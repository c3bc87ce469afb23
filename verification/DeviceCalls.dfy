/**
 * What each call of the fprintd device is for: its sections, run without disturbance, lead to
 * exactly the state the caller asked for, and a refused call changes nothing.
 */
module DeviceCalls {
  import opened Wrappers
  import opened DeviceSlots
  import opened DeviceHistories

  lemma NewTask(s: State)
    requires Inv(s)
    ensures s.nextTask !in s.tasks && s.nextTask + 1 !in s.tasks
    ensures s.verifyTask != Some(s.nextTask) && s.enrollTask != Some(s.nextTask) && s.deleteTask != Some(s.nextTask)
  {
  }

  lemma LeadsTwo(s: State, a: Action, mid: State, b: Action, after: State)
    requires Enabled(s, a) && mid == Apply(s, a) && Enabled(mid, b) && after == Apply(mid, b)
    ensures Leads(s, [a, b], after)
  {
    LeadsOne(mid, b, after);
    LeadsMore(s, a, mid, [b], after);
  }

  // ------------------------------------------------------------------ enrollment

  /** From an idle claim, EnrollStart's three sections leave the enrollment running and in its slot. */
  lemma UndisturbedEnrollStarts(s: State, sender: Name) returns (after: State)
    requires Inv(s) && s.Idle() && s.ClaimedBy(sender)
    ensures var t, go := s.nextTask, Resume(s.nextTask, true, false);
            && Leads(s, [Begin(CallEnrollStart, sender), go, go, go], after)
            && after == s.(tasks := s.tasks[t + 1 := Task(sender, Enrolling)], nextTask := t + 2,
                           enrollTask := Some(t + 1))
  {
    var t, call := s.nextTask, Begin(CallEnrollStart, sender);
    NewTask(s);
    var go := Resume(t, true, false);
    var s1 := Spawn(s, sender, EnrollFirstCheck(s.claimGeneration));
    assert s1 == Apply(s, call);
    var s2 := Goto(s1, t, EnrollProjecting);
    assert s2 == Apply(s1, go);
    var s3 := Goto(s2, t, EnrollSecondCheck(s.claimGeneration));
    assert s3 == Apply(s2, go);
    after := Finish(Spawn(s3.(enrollTask := Some(t + 1)), sender, Enrolling), t);
    assert after == Apply(s3, go);
    assert after.tasks == s.tasks[t + 1 := Task(sender, Enrolling)];
    LeadsTwo(s2, go, s3, go, after);
    LeadsMore(s1, go, s2, [go, go], after);
    LeadsMore(s, call, s1, [go, go, go], after);
  }

  /** An enrollment that ends keeps its slot until it is stopped or collected. */
  lemma EnrollmentEnds(s: State, t: TaskId, ok: bool)
    requires t in s.tasks && s.tasks[t].pc.Enrolling?
    ensures Enabled(s, Resume(t, ok, false)) && Apply(s, Resume(t, ok, false)) == s.(tasks := s.tasks - {t})
  {
  }

  // -------------------------------------------------------------------- deletion

  /** From an idle claim, DeleteEnrolledFinger's sections bring the deletion into its slot. */
  lemma UndisturbedDeleteStarts(s: State, sender: Name) returns (after: State)
    requires Inv(s) && s.Idle() && s.ClaimedBy(sender)
    ensures var t, go := s.nextTask, Resume(s.nextTask, true, false);
            && Leads(s, [Begin(CallDelete, sender), go, go, go], after)
            && after == s.(tasks := s.tasks[t := Task(sender, Deleting)], nextTask := t + 1, deleteTask := Some(t))
  {
    var t, call := s.nextTask, Begin(CallDelete, sender);
    NewTask(s);
    var go := Resume(t, true, false);
    var s1 := Spawn(s, sender, DeleteFirstCheck(s.claimGeneration));
    assert s1 == Apply(s, call);
    var s2 := Goto(s1.(deleteTask := Some(t)), t, DeleteProjecting);
    assert s2 == Apply(s1, go);
    var s3 := Goto(s2, t, DeleteSecondCheck(s.claimGeneration));
    assert s3 == Apply(s2, go);
    after := Goto(s3, t, Deleting);
    assert after == Apply(s3, go);
    assert after.tasks == s.tasks[t := Task(sender, Deleting)];
    LeadsTwo(s2, go, s3, go, after);
    LeadsMore(s1, go, s2, [go, go], after);
    LeadsMore(s, call, s1, [go, go, go], after);
  }

  /** A deletion that ends, or is refused on its way, gives its slot back. */
  lemma DeletionEnds(s: State, t: TaskId, ok: bool)
    requires Inv(s) && t in s.tasks && s.tasks[t].pc.OwnsDelete()
    requires s.tasks[t].pc.Deleting? || !ok || !s.ClaimedBy(s.tasks[t].sender)
    ensures Enabled(s, Resume(t, ok, false))
    ensures Apply(s, Resume(t, ok, false)) == s.(deleteTask := None, tasks := s.tasks - {t})
  {
  }

  // ---------------------------------------------------------------- verification

  /** A verification that ends without an owner keeps its slot and publishes nothing. */
  lemma UnownedVerificationEnds(s: State, t: TaskId, ok: bool, matched: bool)
    requires t in s.tasks && s.tasks[t].pc.Verifies() && (!ok || !s.ClaimedBy(s.tasks[t].sender))
    ensures Enabled(s, Resume(t, ok, matched)) && Apply(s, Resume(t, ok, matched)) == s.(tasks := s.tasks - {t})
  {
  }

  /** A VerifyStart refused on its way gives the reserved slot back. */
  lemma RefusedVerifyGivesBack(s: State, t: TaskId, ok: bool)
    requires Inv(s) && t in s.tasks && (s.tasks[t].pc.VerifyProjecting? || s.tasks[t].pc.VerifySecondCheck?)
    requires !ok || !s.ClaimedBy(s.tasks[t].sender)
    ensures Enabled(s, Resume(t, ok, false))
    ensures Apply(s, Resume(t, ok, false)) == s.(verifyTask := None, tasks := s.tasks - {t})
  {
  }

  // -------------------------------------------------------------------- refusals

  predicate IsStart(call: Call) {
    call.CallVerifyStart? || call.CallEnrollStart? || call.CallDelete?
  }

  /** On a busy device, or with a check that fails, a start ends after its first section and changes nothing. */
  lemma RefusedStartChangesNothing(s: State, call: Call, sender: Name, ok: bool) returns (after: State)
    requires Inv(s) && IsStart(call) && s.ClaimedBy(sender) && (!ok || !s.Idle())
    ensures Leads(s, [Begin(call, sender), Resume(s.nextTask, ok, false)], after)
    ensures after == s.(nextTask := s.nextTask + 1)
  {
    var t, begin, go := s.nextTask, Begin(call, sender), Resume(s.nextTask, ok, false);
    NewTask(s);
    var s1 := Apply(s, begin);
    after := Finish(s1, t);
    assert after == Apply(s1, go);
    assert after.tasks == s.tasks;
    LeadsTwo(s, begin, s1, go, after);
  }

  /** A call of somebody without the claim is refused at once, and only Claim needs none. */
  lemma StrangerIsRefused(s: State, call: Call, sender: Name)
    requires !call.CallClaim? && !s.ClaimedBy(sender)
    ensures Enabled(s, Begin(call, sender)) && Apply(s, Begin(call, sender)) == s
  {
  }

  /** A claim on a device whose claimant lives is refused. */
  lemma LiveClaimIsRespected(s: State, sender: Name) returns (after: State)
    requires Inv(s) && s.claim.Some? && s.claimLock.None?
    ensures Leads(s, [Begin(CallClaim, sender), Resume(s.nextTask, true, false)], after)
    ensures after == s.(nextTask := s.nextTask + 1)
  {
    var t, begin, go := s.nextTask, Begin(CallClaim, sender), Resume(s.nextTask, true, false);
    NewTask(s);
    var s1 := Spawn(s, sender, ClaimWaiting);
    assert s1 == Apply(s, begin);
    after := Finish(s1, t);
    assert after == Apply(s1, go);
    assert after.tasks == s.tasks;
    LeadsTwo(s, begin, s1, go, after);
  }

  // ------------------------------------------------------------------ stopping

  /** VerifyStop waits for the operation in the slot, and then frees it; the claim stays. */
  lemma UndisturbedVerifyStops(s: State, sender: Name, x: TaskId) returns (after: State)
    requires Inv(s) && s.ClaimedBy(sender) && s.verifyTask == Some(x) && x in s.tasks && s.tasks[x].pc.Verifying?
    ensures var go := Resume(s.nextTask, true, false);
            Leads(s, [Begin(CallVerifyStop, sender), go, Resume(x, false, false), go], after)
    ensures after == s.(verifyTask := None, nextTask := s.nextTask + 1, tasks := s.tasks - {x})
  {
    var t, call := s.nextTask, Begin(CallVerifyStop, sender);
    NewTask(s);
    var go, fail := Resume(t, true, false), Resume(x, false, false);
    var s1 := Spawn(s, sender, StopCheck(s.claimGeneration, VerifyStop));
    assert s1 == Apply(s, call);
    var s2 := Goto(s1, t, StoppingVerify(x, VerifyStop));
    assert s2 == Apply(s1, go);
    var s3 := Finish(s2, x);
    assert s3 == Apply(s2, fail);
    after := Finish(s3.(verifyTask := None), t);
    assert after == Apply(s3, go);
    assert after.tasks == s.tasks - {x};
    LeadsTwo(s2, fail, s3, go, after);
    LeadsMore(s1, go, s2, [fail, go], after);
    LeadsMore(s, call, s1, [go, fail, go], after);
  }

  lemma AwaitedEnrollmentEnds(s: State, t: TaskId, x: TaskId) returns (after: State)
    requires t in s.tasks && s.tasks[t].pc == StoppingEnroll(x, EnrollStop)
    requires x != t && x in s.tasks && s.tasks[x].pc.Enrolling?
    requires s.enrollTask == Some(x)
    ensures Leads(s, [Resume(x, false, false), Resume(t, true, false)], after)
    ensures after == s.(enrollTask := None, tasks := s.tasks - {x} - {t})
  {
    var fail, go := Resume(x, false, false), Resume(t, true, false);
    var mid := Finish(s, x);
    assert mid == Apply(s, fail);
    after := Finish(mid.(enrollTask := None), t);
    assert after == Apply(mid, go);
    LeadsTwo(s, fail, mid, go, after);
  }

  /** EnrollStop likewise. */
  lemma UndisturbedEnrollStops(s: State, sender: Name, x: TaskId) returns (after: State)
    requires Inv(s) && s.ClaimedBy(sender) && s.enrollTask == Some(x) && x in s.tasks && s.tasks[x].pc.Enrolling?
    ensures var go := Resume(s.nextTask, true, false);
            Leads(s, [Begin(CallEnrollStop, sender), go, Resume(x, false, false), go], after)
    ensures after == s.(enrollTask := None, nextTask := s.nextTask + 1, tasks := s.tasks - {x})
  {
    var t, call := s.nextTask, Begin(CallEnrollStop, sender);
    NewTask(s);
    var go, fail := Resume(t, true, false), Resume(x, false, false);
    var s1 := Spawn(s, sender, StopCheck(s.claimGeneration, EnrollStop));
    assert s1 == Apply(s, call);
    var s2 := Goto(s1, t, StoppingEnroll(x, EnrollStop));
    assert s2 == Apply(s1, go);
    after := AwaitedEnrollmentEnds(s2, t, x);
    assert after.tasks == s.tasks - {x};
    LeadsMore(s1, go, s2, [fail, go], after);
    LeadsMore(s, call, s1, [go, fail, go], after);
  }

  /** With nothing running, VerifyStop and EnrollStop are refused and change nothing. */
  lemma NothingToStop(s: State, call: Call, sender: Name) returns (after: State)
    requires Inv(s) && s.ClaimedBy(sender)
    requires (call.CallVerifyStop? && s.verifyTask.None?) || (call.CallEnrollStop? && s.enrollTask.None?)
    ensures Leads(s, [Begin(call, sender), Resume(s.nextTask, true, false)], after)
    ensures after == s.(nextTask := s.nextTask + 1)
  {
    var t, begin, go := s.nextTask, Begin(call, sender), Resume(s.nextTask, true, false);
    NewTask(s);
    var s1 := Apply(s, begin);
    after := Finish(s1, t);
    assert after == Apply(s1, go);
    assert after.tasks == s.tasks;
    LeadsTwo(s, begin, s1, go, after);
  }

  lemma AwaitedDeletionEnds(s: State, t: TaskId, x: TaskId) returns (after: State)
    requires t in s.tasks && s.tasks[t].pc == WaitingDelete(x, Release)
    requires x != t && x in s.tasks && s.tasks[x].pc.Deleting?
    requires s.deleteTask == Some(x)
    ensures Leads(s, [Resume(x, true, false), Resume(t, true, false)], after)
    ensures after == ClearClaim(s.(deleteTask := None, tasks := s.tasks - {x} - {t}))
  {
    var done, go := Resume(x, true, false), Resume(t, true, false);
    var mid := Finish(s.(deleteTask := None), x);
    assert mid == Apply(s, done);
    after := Finish(ClearClaim(mid), t);
    assert after == Apply(mid, go);
    LeadsTwo(s, done, mid, go, after);
  }

  /** Release waits for a running deletion, and then clears the claim. */
  lemma ReleaseWaitsForDeletion(s: State, sender: Name, x: TaskId) returns (after: State)
    requires Inv(s) && s.ClaimedBy(sender) && s.deleteTask == Some(x) && s.tasks[x].pc.Deleting?
    ensures var go := Resume(s.nextTask, true, false);
            Leads(s, [Begin(CallRelease, sender), go, Resume(x, true, false), go], after)
    ensures after == ClearClaim(s.(deleteTask := None, nextTask := s.nextTask + 1, tasks := s.tasks - {x}))
  {
    var t, call := s.nextTask, Begin(CallRelease, sender);
    NewTask(s);
    var go, done := Resume(t, true, false), Resume(x, true, false);
    var s1 := Spawn(s, sender, StopCheck(s.claimGeneration, Release));
    assert s1 == Apply(s, call);
    var s2 := Goto(s1, t, WaitingDelete(x, Release));
    assert s2 == Apply(s1, go);
    after := AwaitedDeletionEnds(s2, t, x);
    assert after.tasks == s.tasks - {x};
    LeadsMore(s1, go, s2, [done, go], after);
    LeadsMore(s, call, s1, [go, done, go], after);
  }

  // -------------------------------------------------------- departure and reaping

  /** The claimant's departure clears an idle claim; anybody else's changes nothing. */
  lemma DepartureEndsOwnClaim(s: State, sender: Name) returns (after: State)
    requires Inv(s) && s.Idle() && s.claimLock.None?
    ensures Leads(s, [SenderDeparts(sender), Resume(s.nextTask, true, false)], after)
    ensures after == if s.ClaimedBy(sender) then ClearClaim(s.(nextTask := s.nextTask + 1))
                     else s.(nextTask := s.nextTask + 1)
  {
    var t, leave, go := s.nextTask, SenderDeparts(sender), Resume(s.nextTask, true, false);
    NewTask(s);
    var s1 := Spawn(s, sender, DepartedWaiting);
    assert s1 == Apply(s, leave);
    after := if s.ClaimedBy(sender) then Finish(ClearClaim(s1), t) else Finish(s1, t);
    assert after == Apply(s1, go);
    assert after.tasks == s.tasks;
    LeadsTwo(s, leave, s1, go, after);
  }

  /** A claim whose claimant is provably gone is reaped, and the caller gets its own. */
  lemma DeadClaimIsReaped(s: State, sender: Name) returns (after: State)
    requires Inv(s) && s.Idle() && s.claimLock.None? && s.claim.Some?
    ensures var t := s.nextTask;
            Leads(s, [Begin(CallClaim, sender), Resume(t, true, true), Resume(t, true, false)], after)
    ensures after == SetClaim(ClearClaim(s.(nextTask := s.nextTask + 1)), Claim(sender, s.nextTask))
  {
    var t, call := s.nextTask, Begin(CallClaim, sender);
    NewTask(s);
    var reap, go := Resume(t, true, true), Resume(t, true, false);
    var s1 := Spawn(s, sender, ClaimWaiting);
    assert s1 == Apply(s, call);
    var s2 := Goto(ClearClaim(s1.(claimLock := Some(t))), t, ClaimCollecting);
    assert s2 == Apply(s1, reap);
    after := Finish(SetClaim(s2.(claimLock := None), Claim(sender, t)), t);
    assert after == Apply(s2, go);
    assert after.tasks == s.tasks;
    LeadsTwo(s1, reap, s2, go, after);
    LeadsMore(s, call, s1, [reap, go], after);
  }

  /** A caller whose identity cannot be collected gets no claim, and the lock is free again. */
  lemma UncollectedCallerGetsNothing(s: State, t: TaskId)
    requires t in s.tasks && s.tasks[t].pc.ClaimCollecting?
    ensures Enabled(s, Resume(t, false, false))
    ensures Apply(s, Resume(t, false, false)) == s.(claimLock := None, tasks := s.tasks - {t})
  {
  }

  // ---------------------------------------------------------------------- timers

  /** An unused claim expires, and a used one does not. */
  lemma UnstartedClaimExpires(s: State)
    ensures Enabled(s, ExpireUnstarted)
    ensures Apply(s, ExpireUnstarted) == if s.Idle() then ClearClaim(s) else s
  {
  }

  /** A finished verification is collected with its claim. */
  lemma FinishedVerificationExpires(s: State)
    ensures Enabled(s, ExpireStaleVerify) <==> s.verifyTask.Some? && s.verifyTask.value !in s.tasks
    ensures Enabled(s, ExpireStaleVerify) ==> Apply(s, ExpireStaleVerify) == ClearClaim(s.(verifyTask := None))
  {
  }

  /** A finished enrollment is collected, with its claim unless a newer timer has it. */
  lemma FinishedEnrollmentExpires(s: State, clear: bool)
    requires Enabled(s, ExpireStaleEnroll(clear))
    ensures Apply(s, ExpireStaleEnroll(clear)).enrollTask.None?
    ensures Apply(s, ExpireStaleEnroll(clear)).claim == if clear then None else s.claim
    ensures Apply(s, ExpireStaleEnroll(clear)).tasks == s.tasks
  {
  }
}
