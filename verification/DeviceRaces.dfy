/**
 * Races between the calls of the fprintd device: exactly when a Release can end another sender's
 * claim, and exactly when a match can be published to a later claim than the present one.
 */
module DeviceRaces {
  import opened Wrappers
  import opened DeviceSlots
  import opened DeviceHistories

  // ------------------------------------------------------- who is behind a slot or a wait

  /** A wait of the stop chain is for a task that is over, or that still runs the operation waited for. */
  predicate LiveTarget(s: State, pc: Pc) {
    match pc
    case StoppingVerify(x, _) => x < s.nextTask && (x in s.tasks ==> s.tasks[x].pc.OwnsVerify())
    case StoppingEnroll(x, _) => x < s.nextTask && (x in s.tasks ==> s.tasks[x].pc.Enrolling?)
    case WaitingDelete(x, _) => x < s.nextTask && (x in s.tasks ==> s.tasks[x].pc.OwnsDelete())
    case _ => true
  }

  /** A live task in a slot owns it, and the claim lock is held by a live task that uses it. */
  predicate LiveSlots(s: State) {
    && (s.claimLock.Some? ==> s.claimLock.value in s.tasks && s.tasks[s.claimLock.value].pc.HoldsClaimLock())
    && (s.verifyTask.Some? && s.verifyTask.value in s.tasks ==> s.tasks[s.verifyTask.value].pc.OwnsVerify())
    && (s.enrollTask.Some? && s.enrollTask.value in s.tasks ==> s.tasks[s.enrollTask.value].pc.Enrolling?)
  }

  ghost predicate Live(s: State) {
    LiveSlots(s) && forall r :: r in s.tasks ==> LiveTarget(s, s.tasks[r].pc)
  }

  /** A call keeps the operation it runs until it ends. */
  predicate KeepsRole(before: Pc, after: Pc) {
    && (before.OwnsVerify() ==> after.OwnsVerify())
    && (before.Enrolling? ==> after.Enrolling?)
    && (before.OwnsDelete() ==> after.OwnsDelete())
  }

  lemma LiveStep(s: State, s': State, t: TaskId)
    requires Inv(s) && Live(s) && s.nextTask <= s'.nextTask && LiveSlots(s')
    requires forall u :: u in s'.tasks && u != t && u != s.nextTask ==> u in s.tasks && s'.tasks[u] == s.tasks[u]
    requires t in s'.tasks && t != s.nextTask ==> t in s.tasks && KeepsRole(s.tasks[t].pc, s'.tasks[t].pc)
    requires t in s'.tasks ==> LiveTarget(s', s'.tasks[t].pc)
    requires s.nextTask in s'.tasks ==> LiveTarget(s', s'.tasks[s.nextTask].pc)
    ensures Live(s')
  {
    forall r | r in s'.tasks ensures LiveTarget(s', s'.tasks[r].pc) {
      if r != t && r != s.nextTask {
        assert LiveTarget(s, s.tasks[r].pc);
      }
    }
  }

  lemma VerifySpawnKeepsLive(s: State, t: TaskId)
    requires Inv(s) && Live(s) && t in s.tasks && s.tasks[t].pc.VerifySecondCheck?
    ensures Live(Finish(Spawn(s.(verifyTask := Some(s.nextTask)), s.tasks[t].sender, Verifying), t))
  {
    LiveStep(s, Finish(Spawn(s.(verifyTask := Some(s.nextTask)), s.tasks[t].sender, Verifying), t), t);
  }

  lemma EnrollSpawnKeepsLive(s: State, t: TaskId)
    requires Inv(s) && Live(s) && t in s.tasks && s.tasks[t].pc.EnrollSecondCheck?
    ensures Live(Finish(Spawn(s.(enrollTask := Some(s.nextTask)), s.tasks[t].sender, Enrolling), t))
  {
    LiveStep(s, Finish(Spawn(s.(enrollTask := Some(s.nextTask)), s.tasks[t].sender, Enrolling), t), t);
  }

  lemma VerifyStartKeepsLive(s: State, t: TaskId, ok: bool)
    requires Inv(s) && Live(s) && t in s.tasks && s.tasks[t].pc.InVerifyStart()
    ensures Live(VerifyStartResumed(s, t, ok))
  {
    var s' := VerifyStartResumed(s, t, ok);
    if s.nextTask in s'.tasks {
      VerifySpawnKeepsLive(s, t);
    } else {
      LiveStep(s, s', t);
    }
  }

  lemma EnrollStartKeepsLive(s: State, t: TaskId, ok: bool)
    requires Inv(s) && Live(s) && t in s.tasks && s.tasks[t].pc.InEnrollStart()
    ensures Live(EnrollStartResumed(s, t, ok))
  {
    var s' := EnrollStartResumed(s, t, ok);
    if s.nextTask in s'.tasks {
      EnrollSpawnKeepsLive(s, t);
    } else {
      LiveStep(s, s', t);
    }
  }

  lemma DeleteKeepsLive(s: State, t: TaskId, ok: bool)
    requires Inv(s) && Live(s) && t in s.tasks && s.tasks[t].pc.InDelete()
    ensures Live(DeleteResumed(s, t, ok))
  {
    LiveStep(s, DeleteResumed(s, t, ok), t);
  }

  lemma OperationKeepsLive(s: State, t: TaskId, ok: bool, matched: bool)
    requires Inv(s) && Live(s) && t in s.tasks && s.tasks[t].pc.InOperation()
    ensures Live(OperationResumed(s, t, ok, matched))
  {
    LiveStep(s, OperationResumed(s, t, ok, matched), t);
  }

  /** What a call in the stop chain may have changed before it moves on. */
  ghost predicate LiveStop(s: State, m: State, t: TaskId, who: Stopper) {
    && Inv(s) && Live(s) && t in s.tasks && (s.tasks[t].pc.InStop() || s.tasks[t].pc.InClaim())
    && m.tasks == s.tasks && m.nextTask == s.nextTask
    && (m.verifyTask == s.verifyTask || m.verifyTask.None?)
    && (m.enrollTask == s.enrollTask || m.enrollTask.None?)
    && m.deleteTask == s.deleteTask
    && (if who.Departed? || who.Reap? then m.claimLock == Some(t) else m.claimLock == s.claimLock != Some(t))
  }

  lemma StopMoveKeepsLive(s: State, m: State, t: TaskId, who: Stopper, pc: Pc)
    requires LiveStop(s, m, t, who)
    requires (pc.StoppingVerify? || pc.StoppingEnroll? || pc.WaitingDelete?) && pc.who == who
    requires LiveTarget(Goto(m, t, pc), pc)
    ensures Live(Goto(m, t, pc))
  {
    LiveStep(s, Goto(m, t, pc), t);
  }

  lemma StopEndsKeepsLive(s: State, m: State, t: TaskId, who: Stopper)
    requires LiveStop(s, m, t, who) && !who.Departed? && !who.Reap?
    ensures Live(Finish(m, t))
  {
    LiveStep(s, Finish(m, t), t);
  }

  lemma ClaimReleasedKeepsLive(s: State, m: State, t: TaskId, who: Stopper)
    requires LiveStop(s, m, t, who)
    ensures Live(ClaimReleased(m, t, who))
  {
    LiveStep(s, ClaimReleased(m, t, who), t);
  }

  lemma EnrollStoppedKeepsLive(s: State, m: State, t: TaskId, who: Stopper)
    requires LiveStop(s, m, t, who)
    ensures Live(EnrollStopped(m, t, who))
  {
    if !who.EnrollStop? && m.deleteTask.Some? {
      StopMoveKeepsLive(s, m, t, who, WaitingDelete(m.deleteTask.value, who));
    } else if who.EnrollStop? {
      StopEndsKeepsLive(s, m, t, who);
    } else {
      ClaimReleasedKeepsLive(s, m, t, who);
    }
  }

  lemma StopEnrollKeepsLive(s: State, m: State, t: TaskId, who: Stopper)
    requires LiveStop(s, m, t, who)
    ensures Live(StopEnroll(m, t, who))
  {
    if m.enrollTask.Some? {
      StopMoveKeepsLive(s, m, t, who, StoppingEnroll(m.enrollTask.value, who));
    } else {
      EnrollStoppedKeepsLive(s, m, t, who);
    }
  }

  lemma VerifyStoppedKeepsLive(s: State, m: State, t: TaskId, who: Stopper)
    requires LiveStop(s, m, t, who)
    ensures Live(VerifyStopped(m, t, who))
  {
    if who.VerifyStop? {
      StopEndsKeepsLive(s, m, t, who);
    } else {
      StopEnrollKeepsLive(s, m, t, who);
    }
  }

  lemma StopVerifyKeepsLive(s: State, m: State, t: TaskId, who: Stopper)
    requires LiveStop(s, m, t, who)
    ensures Live(StopVerify(m, t, who))
  {
    if m.verifyTask.Some? {
      StopMoveKeepsLive(s, m, t, who, StoppingVerify(m.verifyTask.value, who));
    } else {
      VerifyStoppedKeepsLive(s, m, t, who);
    }
  }

  lemma StopFailedKeepsLive(s: State, t: TaskId, swallowed: bool)
    requires Inv(s) && Live(s) && t in s.tasks && s.tasks[t].pc.InStop()
    ensures Live(StopFailed(s, t, swallowed))
  {
    var pc := s.tasks[t].pc;
    var m := if pc.StoppingEnroll? then EnrollFreed(s, pc.target) else s;
    if pc.StoppingEnroll? && swallowed && Persistent(pc.who) {
      EnrollStoppedKeepsLive(s, m, t, pc.who);
    } else {
      LiveStep(s, StopFailed(s, t, swallowed), t);
    }
  }

  lemma StopCheckedKeepsLive(s: State, t: TaskId, swallowed: bool)
    requires Inv(s) && Live(s) && t in s.tasks && s.tasks[t].pc.StopCheck?
    ensures Live(StopResumed(s, t, true, swallowed))
  {
    var who := s.tasks[t].pc.who;
    StopEndsKeepsLive(s, s, t, who);
    StopEnrollKeepsLive(s, s, t, who);
    StopVerifyKeepsLive(s, s, t, who);
  }

  lemma StopResumedKeepsLive(s: State, t: TaskId, ok: bool, swallowed: bool)
    requires Inv(s) && Live(s) && t in s.tasks && s.tasks[t].pc.InStop()
    ensures Live(StopResumed(s, t, ok, swallowed))
  {
    if !ok {
      StopFailedKeepsLive(s, t, swallowed);
    } else {
      match s.tasks[t].pc
      case StopCheck(_, _) => StopCheckedKeepsLive(s, t, swallowed);
      case StoppingVerify(x, who) =>
        VerifyStoppedKeepsLive(s, if s.verifyTask == Some(x) then s.(verifyTask := None) else s, t, who);
      case StoppingEnroll(x, who) => EnrollStoppedKeepsLive(s, EnrollFreed(s, x), t, who);
      case WaitingDelete(_, who) => ClaimReleasedKeepsLive(s, s, t, who);
    }
  }

  lemma ClaimResumedKeepsLive(s: State, a: Action)
    requires Inv(s) && Live(s) && a.Resume? && Enabled(s, a) && s.tasks[a.task].pc.InClaim()
    ensures Live(ClaimResumed(s, a.task, a.ok, a.flag))
  {
    var t := a.task;
    var locked := s.(claimLock := Some(t));
    if a.ok && s.tasks[t].pc.ClaimWaiting? && s.claim.Some? && a.flag {
      StopVerifyKeepsLive(s, locked, t, Reap);
    } else if a.ok && s.tasks[t].pc.DepartedWaiting? && s.ClaimedBy(s.tasks[t].sender) {
      StopVerifyKeepsLive(s, locked, t, Departed);
    } else {
      LiveStep(s, ClaimResumed(s, t, a.ok, a.flag), t);
    }
  }

  lemma TimersKeepLive(s: State, a: Action)
    requires Inv(s) && Live(s) && Enabled(s, a) && !a.Resume?
    ensures Live(Apply(s, a))
  {
    LiveStep(s, Apply(s, a), s.nextTask);
  }

  lemma StepKeepsLive(s: State, a: Action)
    requires Inv(s) && Live(s) && Enabled(s, a)
    ensures Live(Apply(s, a))
  {
    if !a.Resume? {
      TimersKeepLive(s, a);
    } else {
      var pc := s.tasks[a.task].pc;
      if pc.InStop() {
        StopResumedKeepsLive(s, a.task, a.ok, a.flag);
      } else if pc.InClaim() {
        ClaimResumedKeepsLive(s, a);
      } else if pc.InVerifyStart() {
        VerifyStartKeepsLive(s, a.task, a.ok);
      } else if pc.InEnrollStart() {
        EnrollStartKeepsLive(s, a.task, a.ok);
      } else if pc.InDelete() {
        DeleteKeepsLive(s, a.task, a.ok);
      } else {
        OperationKeepsLive(s, a.task, a.ok, a.flag);
      }
    }
  }

  lemma {:induction false} RunIsLive(run: seq<State>, i: nat)
    requires IsRun(run) && i < |run|
    ensures Live(run[i])
  {
    if i > 0 {
      RunIsLive(run, i - 1);
      RunKeepsInv(run, i - 1);
      assert StepAt(run, i - 1);
      NextKeepsLive(run[i - 1], run[i]);
    }
  }

  lemma NextKeepsLive(s: State, s': State)
    requires Inv(s) && Live(s) && Next(s, s')
    ensures Live(s')
  {
    var a :| Enabled(s, a) && s' == Apply(s, a);
    StepKeepsLive(s, a);
  }

  lemma {:induction false} LeadsKeeps(s: State, actions: seq<Action>, after: State)
    requires Inv(s) && Live(s) && Leads(s, actions, after)
    ensures Inv(after) && Live(after)
    decreases |actions|
  {
    if actions != [] {
      StepKeepsInv(s, actions[0]);
      StepKeepsLive(s, actions[0]);
      LeadsKeeps(Apply(s, actions[0]), actions[1..], after);
    }
  }

  // ------------------------------------------------------------------ making room

  /** Tasks ended and their slots may be free; claim, numbers, publications and the other tasks are as before. */
  predicate Calmer(s: State, s': State) {
    && s'.claim == s.claim && s'.claimGeneration == s.claimGeneration
    && s'.nextTask == s.nextTask && s'.published == s.published
    && (forall u :: u in s'.tasks ==> u in s.tasks && s'.tasks[u] == s.tasks[u])
    && (s'.verifyTask == s.verifyTask || s'.verifyTask.None?)
    && (s'.enrollTask == s.enrollTask || s'.enrollTask.None?)
    && (s'.deleteTask == s.deleteTask || s'.deleteTask.None?)
  }

  /** The holder of the claim lock fails: the lock is free, and only that task is gone. */
  lemma HolderFails(s: State) returns (actions: seq<Action>, after: State)
    requires Inv(s) && Live(s) && (s.claim.Some? || s.claimLock.None?)
    ensures Leads(s, actions, after) && Calmer(s, after) && after.claimLock.None?
    ensures after.verifyTask == s.verifyTask && after.deleteTask == s.deleteTask
    ensures forall u :: u in s.tasks && !s.tasks[u].pc.HoldsClaimLock() ==> u in after.tasks
  {
    if s.claimLock.None? {
      actions, after := [], s;
    } else {
      var h := s.claimLock.value;
      var fail := Resume(h, false, false);
      actions := [fail];
      after := HolderFailed(s, h);
      LeadsOne(s, fail, after);
    }
  }

  /** A failing lock holder leaves, and with it at most a finished enrollment's slot. */
  lemma HolderFailed(s: State, h: TaskId) returns (after: State)
    requires Inv(s) && Live(s) && s.claim.Some? && s.claimLock == Some(h)
    ensures Enabled(s, Resume(h, false, false)) && after == Apply(s, Resume(h, false, false))
    ensures Calmer(s, after) && after.claimLock.None? && after.tasks == s.tasks - {h}
    ensures after.verifyTask == s.verifyTask && after.deleteTask == s.deleteTask
  {
    after := Apply(s, Resume(h, false, false));
    assert s.tasks[h].pc.InStop();
    assert after == StopFailed(s, h, false);
  }

  /** The task behind a slot fails: it is gone, and its slot free or left to be collected. */
  lemma OwnerFails(s: State, x: TaskId) returns (actions: seq<Action>, after: State)
    requires Inv(s) && Live(s)
    requires s.verifyTask == Some(x) || s.enrollTask == Some(x) || s.deleteTask == Some(x)
    ensures Leads(s, actions, after) && Calmer(s, after) && after.claimLock == s.claimLock
    ensures after.tasks == s.tasks - {x} && after.deleteTask.None?
  {
    if x !in s.tasks {
      actions, after := [], s;
      assert s.tasks - {x} == s.tasks;
    } else {
      var fail := Resume(x, false, false);
      actions, after := [fail], Apply(s, fail);
      OwnerFailed(s, x);
      LeadsOne(s, fail, after);
    }
  }

  lemma OwnerFailed(s: State, x: TaskId)
    requires Inv(s) && Live(s) && x in s.tasks
    requires s.verifyTask == Some(x) || s.enrollTask == Some(x) || s.deleteTask == Some(x)
    ensures var after := Apply(s, Resume(x, false, false));
            Calmer(s, after) && after.claimLock == s.claimLock && after.tasks == s.tasks - {x} && after.deleteTask.None?
  {
    var pc := s.tasks[x].pc;
    assert pc.OwnsVerify() || pc.Enrolling? || pc.OwnsDelete();
  }

  // ------------------------------------------------- whose claim a Release can end

  /** A step of the Release call t that clears a claim of someone else than the caller. */
  predicate EndsAnothers(s: State, t: TaskId, ok: bool, flag: bool) {
    && t in s.tasks && s.tasks[t].pc.InStop() && s.tasks[t].pc.who.Release?
    && Enabled(s, Resume(t, ok, flag)) && s.claim.Some? && s.claim.value.sender != s.tasks[t].sender
    && t !in Apply(s, Resume(t, ok, flag)).tasks && Apply(s, Resume(t, ok, flag)).claim.None?
  }

  ghost predicate CanEndAnothers(s: State, t: TaskId) {
    exists actions, before, ok, flag :: Leads(s, actions, before) && EndsAnothers(before, t, ok, flag)
  }

  /** The slot that a stopper of an otherwise idle device waits for. */
  predicate WaitsFor(s: State, t: TaskId, x: TaskId) {
    && t in s.tasks
    && (|| s.tasks[t].pc == StoppingVerify(x, Release)
        || s.tasks[t].pc == StoppingEnroll(x, Release)
        || s.tasks[t].pc == WaitingDelete(x, Release))
  }

  /** Only the slot of x may still be set. */
  predicate OnlySlot(s: State, x: TaskId) {
    && (s.verifyTask.None? || s.verifyTask == Some(x))
    && (s.enrollTask.None? || s.enrollTask == Some(x))
    && (s.deleteTask.None? || s.deleteTask == Some(x))
  }

  /** A passing check of a Release on a busy device leaves it waiting for what fills the one slot. */
  lemma BusyReleaseWaits(s: State, t: TaskId) returns (x: TaskId)
    requires Inv(s) && t in s.tasks && s.tasks[t].pc.StopCheck? && s.tasks[t].pc.who.Release?
    requires OwnerStillCurrent(s, t, s.tasks[t].pc.gen, true) && !s.Idle()
    ensures var s' := Apply(s, Resume(t, true, false));
            && WaitsFor(s', t, x) && OnlySlot(s', x) && s' == s.(tasks := s'.tasks)
            && s'.tasks[t].sender == s.tasks[t].sender
            && (s.verifyTask == Some(x) || s.enrollTask == Some(x) || s.deleteTask == Some(x))
  {
    x := if s.verifyTask.Some? then s.verifyTask.value
         else if s.enrollTask.Some? then s.enrollTask.value else s.deleteTask.value;
  }

  /** Another Release of the claimant, with nothing left to wait for, clears the claim. */
  lemma SecondReleaseClears(s: State, sender: Name, x: TaskId) returns (actions: seq<Action>, after: State)
    requires Inv(s) && s.ClaimedBy(sender) && x !in s.tasks && OnlySlot(s, x) && s.deleteTask.None?
    ensures Leads(s, actions, after)
    ensures after == ClearClaim(s.(verifyTask := None, enrollTask := None, nextTask := s.nextTask + 1))
  {
    var n, call := s.nextTask, Begin(CallRelease, sender);
    var go := Resume(n, true, false);
    var s1 := Spawn(s, sender, StopCheck(s.claimGeneration, Release));
    assert s1 == Apply(s, call);
    var rest;
    if s.Idle() {
      rest, after := [go], Finish(ClearClaim(s1), n);
      assert after == Apply(s1, go);
      LeadsOne(s1, go, after);
    } else {
      rest, after := SecondReleaseWaits(s1, n, x);
    }
    assert after.tasks == s.tasks;
    LeadsMore(s, call, s1, rest, after);
    actions := [call] + rest;
  }

  lemma SecondReleaseWaits(s: State, n: TaskId, x: TaskId) returns (actions: seq<Action>, after: State)
    requires n in s.tasks && s.tasks[n].pc == StopCheck(s.claimGeneration, Release) && s.ClaimedBy(s.tasks[n].sender)
    requires x !in s.tasks && n != x && s.deleteTask.None?
    requires (s.verifyTask == Some(x) && s.enrollTask.None?) || (s.verifyTask.None? && s.enrollTask == Some(x))
    ensures Leads(s, actions, after)
    ensures after == ClearClaim(s.(verifyTask := None, enrollTask := None, tasks := s.tasks - {n}))
  {
    var go := Resume(n, true, false);
    var pc := if s.verifyTask.Some? then StoppingVerify(x, Release) else StoppingEnroll(x, Release);
    var s1 := Goto(s, n, pc);
    assert s1 == Apply(s, go);
    after := Finish(ClearClaim(s1.(verifyTask := None, enrollTask := None)), n);
    assert after == Apply(s1, go);
    assert after.tasks == s.tasks - {n};
    LeadsOne(s1, go, after);
    LeadsMore(s, go, s1, [go], after);
    actions := [go] + [go];
  }

  /** A waiting Release whose wait is over clears the claim it finds. */
  lemma WaitingReleaseClears(s: State, t: TaskId, x: TaskId)
    requires WaitsFor(s, t, x) && x !in s.tasks && s.Idle()
    requires s.claim.Some? && s.claim.value.sender != s.tasks[t].sender
    ensures EndsAnothers(s, t, true, false)
  {
    assert Apply(s, Resume(t, true, false)) == Finish(ClearClaim(s), t);
  }

  /** What a waiting Release waits for ends, and another Release of the claimant clears the claim. */
  lemma WaitingReleaseYields(s: State, t: TaskId, x: TaskId, sender: Name) returns (actions: seq<Action>, after: State)
    requires Inv(s) && Live(s) && WaitsFor(s, t, x) && OnlySlot(s, x) && s.ClaimedBy(sender)
    requires s.verifyTask == Some(x) || s.enrollTask == Some(x) || s.deleteTask == Some(x)
    ensures Leads(s, actions, after) && after.claim.None? && after.claimLock.None? && after.Idle()
    ensures WaitsFor(after, t, x) && after.tasks[t] == s.tasks[t] && x !in after.tasks
    ensures after.nextTask !in after.tasks
  {
    var first, s1 := MakeRoom(s, t, x);
    LeadsKeeps(s, first, s1);
    var second;
    second, after := SecondReleaseClears(s1, sender, x);
    LeadsOn(s, first, s1, second, after);
    actions := first + second;
  }

  /** Then another sender claims, and the Release ends that claim. */
  lemma WaitingReleaseLoses(s: State, t: TaskId, x: TaskId, sender: Name, other: Name)
    requires Inv(s) && Live(s) && WaitsFor(s, t, x) && OnlySlot(s, x) && s.tasks[t].sender == sender != other
    requires s.ClaimedBy(sender) && (s.verifyTask == Some(x) || s.enrollTask == Some(x) || s.deleteTask == Some(x))
    ensures CanEndAnothers(s, t)
  {
    var first, s1 := WaitingReleaseYields(s, t, x, sender);
    var n := s1.nextTask;
    var second := [Begin(CallClaim, other), Resume(n, true, false), Resume(n, true, false)];
    var s2 := UndisturbedClaim(s1, other);
    LeadsOn(s, first, s1, second, s2);
    WaitingReleaseClears(s2, t, x);
  }

  /** The lock holder and the awaited task both fail; the Release still waits. */
  lemma MakeRoom(s: State, t: TaskId, x: TaskId) returns (actions: seq<Action>, after: State)
    requires Inv(s) && Live(s) && WaitsFor(s, t, x) && OnlySlot(s, x) && s.claim.Some?
    requires s.verifyTask == Some(x) || s.enrollTask == Some(x) || s.deleteTask == Some(x)
    ensures Leads(s, actions, after) && after.claim == s.claim && after.claimLock.None?
    ensures WaitsFor(after, t, x) && after.tasks[t] == s.tasks[t] && x !in after.tasks
    ensures OnlySlot(after, x) && after.deleteTask.None?
  {
    var first, s1 := HolderFails(s);
    LeadsKeeps(s, first, s1);
    assert t in s1.tasks && t != x;
    if s1.verifyTask.None? && s1.enrollTask.None? && s1.deleteTask.None? {
      assert x !in s.tasks;
      actions, after := first, s1;
    } else {
      var second;
      second, after := OwnerFails(s1, x);
      LeadsOn(s, first, s1, second, after);
      actions := first + second;
    }
  }

  /** A call that is over never comes back. */
  lemma {:induction false} EndedStaysEnded(s: State, actions: seq<Action>, after: State, t: TaskId)
    requires Inv(s) && Leads(s, actions, after) && t < s.nextTask && t !in s.tasks
    ensures t !in after.tasks
    decreases |actions|
  {
    if actions != [] {
      StepKeepsInv(s, actions[0]);
      StepArrives(s, actions[0]);
      EndedStaysEnded(Apply(s, actions[0]), actions[1..], after, t);
    }
  }

  /**
   * The exact condition, known when the owner check passes: in every run, a Release can go on to end
   * another sender's claim if and only if some operation slot is set at that moment.
   */
  lemma ReleaseEndsOnlyItsOwnClaimExactly(run: seq<State>, i: nat, t: TaskId)
    requires IsRun(run) && i < |run|
    requires t in run[i].tasks && run[i].tasks[t].pc.StopCheck? && run[i].tasks[t].pc.who.Release?
    requires OwnerStillCurrent(run[i], t, run[i].tasks[t].pc.gen, true)
    ensures CanEndAnothers(Apply(run[i], Resume(t, true, false)), t) <==> !run[i].Idle()
  {
    var s := run[i];
    var go := Resume(t, true, false);
    RunKeepsInv(run, i);
    RunIsLive(run, i);
    StepKeepsInv(s, go);
    StepKeepsLive(s, go);
    if s.Idle() {
      IdleReleaseIsOver(s, t);
      forall actions, before | Leads(Apply(s, go), actions, before) ensures t !in before.tasks {
        EndedStaysEnded(Apply(s, go), actions, before, t);
      }
    } else {
      var x := BusyReleaseWaits(s, t);
      var sender := s.tasks[t].sender;
      WaitingReleaseLoses(Apply(s, go), t, x, sender, if sender == "" then "another" else "");
    }
  }

  /** With no operation to stop, the check and the clearing are one step. */
  lemma IdleReleaseIsOver(s: State, t: TaskId)
    requires Inv(s) && t in s.tasks && s.tasks[t].pc.StopCheck? && s.tasks[t].pc.who.Release? && s.Idle()
    requires OwnerStillCurrent(s, t, s.tasks[t].pc.gen, true)
    ensures Apply(s, Resume(t, true, false)) == Finish(ClearClaim(s), t) && t < s.nextTask
  {
  }

  // --------------------------------------------------- which claim a match can go to

  /** r waits in the stop chain, past the operation, and will clear the claim without stopping it. */
  predicate Threatens(s: State, r: TaskId, operation: TaskId)
    requires r in s.tasks
  {
    match s.tasks[r].pc
    case StoppingVerify(x, who) => x != operation && Persistent(who)
    case StoppingEnroll(_, who) => !who.EnrollStop?
    case WaitingDelete(_, _) => true
    case _ => false
  }

  predicate Threatened(s: State, operation: TaskId) {
    exists r :: r in s.tasks && Threatens(s, r, operation)
  }

  ghost predicate CanPublishElsewhere(s: State, operation: TaskId) {
    exists actions, before, after, p ::
      Leads(s, actions, before) && PublishesElsewhere(before, after, p, operation, s.claim)
  }

  ghost predicate PublishesElsewhere(s: State, s': State, p: Publication, operation: TaskId, claim: Option<Claim>) {
    Next(s, s') && Publishes(s, s', p) && p.operation == operation && p.claim != claim
  }

  /** While the operation runs, this is the claim and nobody threatens it. */
  predicate Undisturbed(s: State, operation: TaskId, c: Option<Claim>) {
    operation in s.tasks ==>
      && s.tasks[operation].pc.Verifies() && s.claim == c && c.Some? && !Threatened(s, operation)
  }

  /** With the operation in the verify slot, a stopper that begins waits for it. */
  lemma StopWaitsForOperation(s: State, t: TaskId, who: Stopper, operation: TaskId)
    requires t in s.tasks && t != operation && s.verifyTask == Some(operation)
    requires forall r :: r in s.tasks && r != t ==> !Threatens(s, r, operation)
    ensures StopVerify(s, t, who) == Goto(s, t, StoppingVerify(operation, who))
    ensures !Threatened(StopVerify(s, t, who), operation)
  {
    var s' := StopVerify(s, t, who);
    forall r | r in s'.tasks ensures !Threatens(s', r, operation) {
      assert r != t ==> !Threatens(s, r, operation);
    }
  }

  /** A step that keeps the claim and starts no wait keeps the operation undisturbed. */
  lemma QuietStep(s: State, s': State, t: TaskId, operation: TaskId)
    requires !Threatened(s, operation) && s'.claim == s.claim
    requires forall u :: u in s'.tasks && u != t ==> u in s.tasks && s'.tasks[u] == s.tasks[u]
    requires t in s'.tasks ==> !Threatens(s', t, operation)
    ensures !Threatened(s', operation)
  {
    forall r | r in s'.tasks ensures !Threatens(s', r, operation) {
      assert r != t ==> !Threatens(s, r, operation);
    }
  }

  lemma StopKeepsUndisturbed(s: State, a: Action, operation: TaskId)
    requires Inv(s) && a.Resume? && Enabled(s, a) && s.tasks[a.task].pc.InStop()
    requires operation in s.tasks && Undisturbed(s, operation, s.claim)
    ensures Undisturbed(Apply(s, a), operation, s.claim)
  {
    var t, pc := a.task, s.tasks[a.task].pc;
    assert !Threatens(s, t, operation);
    if a.ok && pc.StopCheck? && OwnerStillCurrent(s, t, pc.gen, true) && !pc.who.EnrollStop? {
      StopWaitsForOperation(s, t, pc.who, operation);
    } else {
      assert Apply(s, a) == Finish(Apply(s, a), t);
      QuietStep(s, Apply(s, a), t, operation);
    }
  }

  lemma ClaimKeepsUndisturbed(s: State, a: Action, operation: TaskId)
    requires Inv(s) && a.Resume? && Enabled(s, a) && s.tasks[a.task].pc.InClaim()
    requires operation in s.tasks && Undisturbed(s, operation, s.claim)
    ensures Undisturbed(Apply(s, a), operation, s.claim)
  {
    var t := a.task;
    var locked := s.(claimLock := Some(t));
    forall r | r in locked.tasks ensures !Threatens(locked, r, operation) {
      assert !Threatens(s, r, operation);
    }
    if a.ok && s.tasks[t].pc.ClaimWaiting? && a.flag {
      StopWaitsForOperation(locked, t, Reap, operation);
    } else if a.ok && s.tasks[t].pc.DepartedWaiting? && s.ClaimedBy(s.tasks[t].sender) {
      StopWaitsForOperation(locked, t, Departed, operation);
    } else {
      assert Apply(s, a) == Finish(s, t);
      QuietStep(s, Apply(s, a), t, operation);
    }
  }

  /** Everybody but the stop chain and the claims leaves the claim alone and starts no wait. */
  predicate Harmless(s: State, s': State) {
    && s'.claim == s.claim
    && forall u :: u in s'.tasks ==>
         || (u in s.tasks && s'.tasks[u] == s.tasks[u])
         || !(s'.tasks[u].pc.StoppingVerify? || s'.tasks[u].pc.StoppingEnroll? || s'.tasks[u].pc.WaitingDelete?)
  }

  lemma StartsAreHarmless(s: State, t: TaskId, ok: bool)
    requires t in s.tasks
    ensures s.tasks[t].pc.InVerifyStart() ==> Harmless(s, VerifyStartResumed(s, t, ok))
    ensures s.tasks[t].pc.InEnrollStart() ==> Harmless(s, EnrollStartResumed(s, t, ok))
  {
  }

  lemma OperationsAreHarmless(s: State, t: TaskId, ok: bool, matched: bool)
    requires t in s.tasks
    ensures s.tasks[t].pc.InDelete() ==> Harmless(s, DeleteResumed(s, t, ok))
    ensures s.tasks[t].pc.InOperation() ==> Harmless(s, OperationResumed(s, t, ok, matched))
  {
  }

  lemma HarmlessKeepsUnthreatened(s: State, s': State, operation: TaskId)
    requires Harmless(s, s') && !Threatened(s, operation)
    ensures !Threatened(s', operation)
  {
    forall r | r in s'.tasks ensures !Threatens(s', r, operation) {
      if r in s.tasks {
        assert !Threatens(s, r, operation);
      }
    }
  }

  lemma CallsKeepUndisturbed(s: State, a: Action, operation: TaskId)
    requires Inv(s) && a.Resume? && Enabled(s, a)
    requires !s.tasks[a.task].pc.InStop() && !s.tasks[a.task].pc.InClaim()
    requires operation in s.tasks && Undisturbed(s, operation, s.claim)
    ensures Undisturbed(Apply(s, a), operation, s.claim)
  {
    StartsAreHarmless(s, a.task, a.ok);
    OperationsAreHarmless(s, a.task, a.ok, a.flag);
    HarmlessKeepsUnthreatened(s, Apply(s, a), operation);
    OperationStays(s, a, operation);
  }

  /** The step of a call leaves a running operation running, or ends it. */
  lemma OperationStays(s: State, a: Action, operation: TaskId)
    requires Inv(s) && a.Resume? && Enabled(s, a)
    requires !s.tasks[a.task].pc.InStop() && !s.tasks[a.task].pc.InClaim()
    requires operation in s.tasks && s.tasks[operation].pc.Verifies()
    ensures operation in Apply(s, a).tasks ==> Apply(s, a).tasks[operation].pc.Verifies()
  {
  }

  lemma TimersKeepUndisturbed(s: State, a: Action, operation: TaskId)
    requires Inv(s) && Enabled(s, a) && !a.Resume?
    requires operation in s.tasks && Undisturbed(s, operation, s.claim)
    ensures Undisturbed(Apply(s, a), operation, s.claim)
  {
    assert s.verifyTask == Some(operation) && s.enrollTask.None?;
    HarmlessKeepsUnthreatened(s, Apply(s, a), operation);
  }

  lemma StepKeepsUndisturbed(s: State, a: Action, operation: TaskId, c: Option<Claim>)
    requires Inv(s) && Enabled(s, a) && operation < s.nextTask && Undisturbed(s, operation, c)
    ensures Undisturbed(Apply(s, a), operation, c) && operation < Apply(s, a).nextTask
  {
    StepArrives(s, a);
    if operation in s.tasks {
      if !a.Resume? {
        TimersKeepUndisturbed(s, a, operation);
      } else if s.tasks[a.task].pc.InStop() {
        StopKeepsUndisturbed(s, a, operation);
      } else if s.tasks[a.task].pc.InClaim() {
        ClaimKeepsUndisturbed(s, a, operation);
      } else {
        CallsKeepUndisturbed(s, a, operation);
      }
    }
  }

  lemma {:induction false} LeadsKeepsUndisturbed(s: State, actions: seq<Action>, after: State, operation: TaskId,
                                                 c: Option<Claim>)
    requires Inv(s) && Leads(s, actions, after) && operation < s.nextTask && Undisturbed(s, operation, c)
    ensures Undisturbed(after, operation, c)
    decreases |actions|
  {
    if actions != [] {
      StepKeepsInv(s, actions[0]);
      StepKeepsUndisturbed(s, actions[0], operation, c);
      LeadsKeepsUndisturbed(Apply(s, actions[0]), actions[1..], after, operation, c);
    }
  }

  /** The wait of a threatening call is over: what it waited for no longer runs. */
  lemma ThreatIsReady(s: State, r: TaskId, operation: TaskId)
    requires Inv(s) && Live(s) && operation in s.tasks && s.tasks[operation].pc.Verifies()
    requires r in s.tasks && Threatens(s, r, operation)
    ensures Enabled(s, Resume(r, true, false))
    ensures Apply(s, Resume(r, true, false)) == ClaimReleased(s, r, s.tasks[r].pc.who)
  {
    assert LiveTarget(s, s.tasks[r].pc);
    assert s.verifyTask == Some(operation) && s.enrollTask.None? && s.deleteTask.None?;
  }

  /** A threatening departure or reaping clears the claim and gives up the lock it holds. */
  lemma LockedThreatStrikes(s: State, r: TaskId, operation: TaskId) returns (actions: seq<Action>, after: State)
    requires Inv(s) && Live(s) && operation in s.tasks && s.tasks[operation].pc.Verifies()
    requires r in s.tasks && Threatens(s, r, operation) && (s.tasks[r].pc.who.Departed? || s.tasks[r].pc.who.Reap?)
    ensures Leads(s, actions, after) && after.claim.None? && after.claimLock.None? && after.nextTask == s.nextTask
    ensures operation in after.tasks && after.tasks[operation] == s.tasks[operation]
  {
    var go, fail, who := Resume(r, true, false), Resume(r, false, false), s.tasks[r].pc.who;
    ThreatIsReady(s, r, operation);
    var s1 := ClaimReleased(s, r, who);
    if who.Departed? {
      actions, after := [go], s1;
      LeadsOne(s, go, after);
    } else {
      after := Finish(s1.(claimLock := None), r);
      assert after == Apply(s1, fail);
      LeadsOne(s1, fail, after);
      LeadsMore(s, go, s1, [fail], after);
      actions := [go] + [fail];
    }
  }

  /** Any threatening call clears the claim, with the lock free in the end, while the operation goes on. */
  lemma ThreatStrikes(s: State, r: TaskId, operation: TaskId) returns (actions: seq<Action>, after: State)
    requires Inv(s) && Live(s) && operation in s.tasks && s.tasks[operation].pc.Verifies()
    requires r in s.tasks && Threatens(s, r, operation) && s.claim.Some?
    ensures Leads(s, actions, after) && after.claim.None? && after.claimLock.None? && after.nextTask == s.nextTask
    ensures operation in after.tasks && after.tasks[operation] == s.tasks[operation]
  {
    var go, who := Resume(r, true, false), s.tasks[r].pc.who;
    if who.Departed? || who.Reap? {
      actions, after := LockedThreatStrikes(s, r, operation);
    } else {
      var first, s1 := HolderFails(s);
      LeadsKeeps(s, first, s1);
      assert Threatens(s1, r, operation);
      ThreatIsReady(s1, r, operation);
      after := ClaimReleased(s1, r, who);
      LeadsOne(s1, go, after);
      LeadsOn(s, first, s1, [go], after);
      actions := first + [go];
    }
  }

  /** With the claim free, the operation's sender claims again and the operation comes to its last section. */
  lemma Reclaims(s: State, operation: TaskId) returns (actions: seq<Action>, after: State)
    requires Inv(s) && s.claim.None? && s.claimLock.None?
    requires operation in s.tasks && s.tasks[operation].pc.Verifying?
    ensures var sender := s.tasks[operation].sender;
            && Leads(s, actions, after) && after.claim == Some(Claim(sender, s.nextTask))
            && operation in after.tasks
            && after.tasks[operation] == Task(sender, PublishCheck(after.claimGeneration, true))
  {
    var sender, n, go := s.tasks[operation].sender, s.nextTask, Resume(operation, true, true);
    var first := [Begin(CallClaim, sender), Resume(n, true, false), Resume(n, true, false)];
    var s1 := UndisturbedClaim(s, sender);
    after := Goto(s1, operation, PublishCheck(s1.claimGeneration, true));
    assert after == Apply(s1, go);
    LeadsOne(s1, go, after);
    LeadsOn(s, first, s1, [go], after);
    actions := first + [go];
  }

  /** The sender claims again, and the old operation publishes to the new claim. */
  lemma ThreatenedPublishesElsewhere(s: State, r: TaskId, operation: TaskId)
    requires Inv(s) && Live(s) && ClaimSettled(s) && operation in s.tasks && s.tasks[operation].pc.Verifying?
    requires s.claim.Some? && r in s.tasks && Threatens(s, r, operation)
    ensures CanPublishElsewhere(s, operation)
  {
    var first, s1 := ThreatStrikes(s, r, operation);
    LeadsKeeps(s, first, s1);
    var second, s2 := Reclaims(s1, operation);
    LeadsKeeps(s1, second, s2);
    LeadsOn(s, first, s1, second, s2);
    LastSectionPublishes(s2, operation, s.claim);
  }

  lemma LastSectionPublishes(s: State, operation: TaskId, claim: Option<Claim>)
    requires Inv(s) && operation in s.tasks && s.tasks[operation].pc == PublishCheck(s.claimGeneration, true)
    requires s.ClaimedBy(s.tasks[operation].sender) && s.claim != claim
    ensures exists after, p :: PublishesElsewhere(s, after, p, operation, claim)
  {
    var go, p := Resume(operation, true, true), Publication(operation, s.tasks[operation].sender, s.claim);
    var after := Apply(s, go);
    assert Enabled(s, go) && Next(s, after) && Publishes(s, after, p);
    assert PublishesElsewhere(s, after, p, operation, claim);
  }

  /**
   * In every run, a verification under a claim can publish its match to another claim than the
   * present one if and only if some call already waits in the stop chain past it.
   */
  lemma MatchKeepsItsClaimExactly(run: seq<State>, i: nat, operation: TaskId)
    requires IsRun(run) && i < |run| && run[i].claim.Some?
    requires operation in run[i].tasks && run[i].tasks[operation].pc.Verifying?
    ensures CanPublishElsewhere(run[i], operation) <==> Threatened(run[i], operation)
  {
    var s := run[i];
    RunKeepsInv(run, i);
    RunIsLive(run, i);
    ClaimsAreSettled(run, i);
    if Threatened(s, operation) {
      var r :| r in s.tasks && Threatens(s, r, operation);
      ThreatenedPublishesElsewhere(s, r, operation);
    } else {
      forall actions, before, after, p | Leads(s, actions, before)
        ensures !PublishesElsewhere(before, after, p, operation, s.claim)
      {
        LeadsKeepsUndisturbed(s, actions, before, operation, s.claim);
      }
    }
  }
}
