/**
 * Histories of the fprintd device: where a published match comes from, how claims succeed one
 * another, and what undisturbed calls achieve.
 */
module DeviceHistories {
  import opened Wrappers
  import opened DeviceSlots

  // ------------------------------------------------- where a publication comes from

  /** u is the same call or operation as before, no nearer to publishing than its own sections take it. */
  predicate Inherits(s: State, s': State, u: TaskId)
    requires u in s'.tasks
  {
    && u in s.tasks && s'.tasks[u].sender == s.tasks[u].sender
    && (s'.tasks[u].pc.InVerifyStart() ==> s.tasks[u].pc.InVerifyStart())
    && (s'.tasks[u].pc.Verifies() ==> s.tasks[u].pc.Verifies())
  }

  /** u is a VerifyStart call that just began, under its sender's claim. */
  predicate VerifyStartBegins(s: State, s': State, u: TaskId, sender: Name) {
    && u == s.nextTask && u !in s.tasks && s.ClaimedBy(sender)
    && u in s'.tasks && s'.tasks[u].sender == sender && s'.tasks[u].pc.VerifyFirstCheck?
  }

  /** The VerifyStart call v, past its second check and holding the verify slot, hands it to a new operation. */
  predicate OperationBegins(s: State, s': State, v: TaskId, operation: TaskId, sender: Name) {
    && v in s.tasks && s.tasks[v].sender == sender && s.tasks[v].pc.VerifySecondCheck?
    && s.verifyTask == Some(v) && s.ClaimedBy(sender)
    && operation == s.nextTask && operation !in s.tasks
    && operation in s'.tasks && s'.tasks[operation] == Task(sender, Verifying) && s'.verifyTask == Some(operation)
  }

  predicate Originates(s: State, s': State, u: TaskId)
    requires u in s'.tasks
  {
    || Inherits(s, s', u)
    || VerifyStartBegins(s, s', u, s'.tasks[u].sender)
    || (s.verifyTask.Some? && OperationBegins(s, s', s.verifyTask.value, u, s'.tasks[u].sender))
    || (!s'.tasks[u].pc.InVerifyStart() && !s'.tasks[u].pc.Verifies())
  }

  lemma EnrollStoppedMoves(s: State, t: TaskId, who: Stopper)
    requires t in s.tasks
    ensures StopMoves(s, EnrollStopped(s, t, who), t)
  {
  }

  lemma StopEnrollMoves(s: State, t: TaskId, who: Stopper)
    requires t in s.tasks
    ensures StopMoves(s, StopEnroll(s, t, who), t)
  {
    EnrollStoppedMoves(s, t, who);
  }

  lemma StopChainMoves(s: State, t: TaskId, who: Stopper)
    requires t in s.tasks
    ensures StopMoves(s, VerifyStopped(s, t, who), t) && StopMoves(s, StopVerify(s, t, who), t)
    ensures StopMoves(s, EnrollStopped(s, t, who), t) && StopMoves(s, StopEnroll(s, t, who), t)
  {
    EnrollStoppedMoves(s, t, who);
    StopEnrollMoves(s, t, who);
  }

  /** A stopping call only ever becomes a stopping or claiming one, and a new claim is the call's that it ends. */
  predicate StopMoves(s: State, s': State, t: TaskId) {
    && s'.published == s.published && s'.nextTask == s.nextTask
    && (s'.claim == s.claim || s'.claim.None? || (s'.claim.value.caller == t && t !in s'.tasks))
    && (forall u :: u in s'.tasks ==> u in s.tasks && (u != t ==> s'.tasks[u] == s.tasks[u]))
    && (t in s'.tasks ==> s'.tasks[t].pc.InStop() || s'.tasks[t].pc.InClaim())
  }

  lemma StopFailedMoves(s: State, t: TaskId, swallowed: bool)
    requires t in s.tasks && s.tasks[t].pc.InStop()
    ensures StopMoves(s, StopFailed(s, t, swallowed), t)
  {
    var pc := s.tasks[t].pc;
    if pc.StoppingEnroll? {
      StopChainMoves(EnrollFreed(s, pc.target), t, pc.who);
    }
  }

  lemma StopResumedMoves(s: State, t: TaskId, ok: bool, swallowed: bool)
    requires t in s.tasks && s.tasks[t].pc.InStop()
    ensures StopMoves(s, StopResumed(s, t, ok, swallowed), t)
  {
    if !ok {
      StopFailedMoves(s, t, swallowed);
    } else {
      match s.tasks[t].pc
      case StopCheck(_, who) => StopChainMoves(s, t, who);
      case StoppingVerify(target, who) =>
        StopChainMoves(if s.verifyTask == Some(target) then s.(verifyTask := None) else s, t, who);
      case StoppingEnroll(target, who) => StopChainMoves(EnrollFreed(s, target), t, who);
      case WaitingDelete(_, who) =>
    }
  }

  lemma ClaimResumedMoves(s: State, t: TaskId, ok: bool, dead: bool)
    requires t in s.tasks && s.tasks[t].pc.InClaim()
    ensures StopMoves(s, ClaimResumed(s, t, ok, dead), t)
  {
    var locked := s.(claimLock := Some(t));
    if s.tasks[t].pc.ClaimWaiting? {
      StopChainMoves(locked, t, Reap);
    } else if s.tasks[t].pc.DepartedWaiting? {
      StopChainMoves(locked, t, Departed);
    }
  }

  lemma StopMovesOriginate(s: State, s': State, t: TaskId)
    requires StopMoves(s, s', t)
    ensures forall u :: u in s'.tasks ==> Originates(s, s', u)
  {
  }

  lemma VerifyStartOriginates(s: State, t: TaskId, ok: bool)
    requires Inv(s) && t in s.tasks && s.tasks[t].pc.InVerifyStart()
    ensures var s' := VerifyStartResumed(s, t, ok); forall u :: u in s'.tasks ==> Originates(s, s', u)
  {
  }

  lemma EnrollOrDeleteOriginates(s: State, t: TaskId, ok: bool)
    requires Inv(s) && t in s.tasks
    ensures s.tasks[t].pc.InEnrollStart() ==>
              var s' := EnrollStartResumed(s, t, ok); forall u :: u in s'.tasks ==> Originates(s, s', u)
    ensures s.tasks[t].pc.InDelete() ==>
              var s' := DeleteResumed(s, t, ok); forall u :: u in s'.tasks ==> Originates(s, s', u)
  {
  }

  lemma OperationOriginates(s: State, t: TaskId, ok: bool, matched: bool)
    requires t in s.tasks && s.tasks[t].pc.InOperation()
    ensures var s' := OperationResumed(s, t, ok, matched); forall u :: u in s'.tasks ==> Originates(s, s', u)
  {
  }

  /** After any step every verify call and operation is an old one, or began as a VerifyStart. */
  lemma StepOriginates(s: State, a: Action)
    requires Inv(s) && Enabled(s, a)
    ensures forall u :: u in Apply(s, a).tasks ==> Originates(s, Apply(s, a), u)
  {
    if a.Resume? {
      var t, pc := a.task, s.tasks[a.task].pc;
      if pc.InStop() {
        StopResumedMoves(s, t, a.ok, a.flag);
        StopMovesOriginate(s, Apply(s, a), t);
      } else if pc.InClaim() {
        ClaimResumedMoves(s, t, a.ok, a.flag);
        StopMovesOriginate(s, Apply(s, a), t);
      } else if pc.InVerifyStart() {
        VerifyStartOriginates(s, t, a.ok);
      } else if pc.InOperation() {
        OperationOriginates(s, t, a.ok, a.flag);
      } else {
        EnrollOrDeleteOriginates(s, t, a.ok);
      }
    }
  }

  /** The call v of this run is a VerifyStart of this sender: it began in step l. */
  ghost predicate CalledAt(run: seq<State>, l: nat, v: TaskId, sender: Name) {
    l + 1 < |run| && VerifyStartBegins(run[l], run[l + 1], v, sender)
  }

  ghost predicate Called(run: seq<State>, i: nat, v: TaskId, sender: Name) {
    exists l :: 0 <= l < i && CalledAt(run, l, v, sender)
  }

  /** The operation was created in step m by a VerifyStart call of this sender. */
  ghost predicate CreatedAt(run: seq<State>, m: nat, v: TaskId, operation: TaskId, sender: Name) {
    m + 1 < |run| && OperationBegins(run[m], run[m + 1], v, operation, sender) && Called(run, m, v, sender)
  }

  ghost predicate Created(run: seq<State>, i: nat, operation: TaskId, sender: Name) {
    exists m, v :: 0 <= m < i && CreatedAt(run, m, v, operation, sender)
  }

  /** Step j published p, from the verify slot and under its starter's claim. */
  ghost predicate PublishedAt(run: seq<State>, j: nat, p: Publication) {
    && j + 1 < |run| && run[j + 1].published == run[j].published + [p]
    && run[j].verifyTask == Some(p.operation) && run[j].enrollTask.None? && run[j].deleteTask.None?
    && run[j].ClaimedBy(p.starter) && p.claim == run[j].claim && Created(run, j, p.operation, p.starter)
  }

  lemma CalledLater(run: seq<State>, i: nat, v: TaskId, sender: Name)
    requires Called(run, i, v, sender)
    ensures Called(run, i + 1, v, sender)
  {
    var l :| 0 <= l < i && CalledAt(run, l, v, sender);
    assert CalledAt(run, l, v, sender);
  }

  lemma CreatedLater(run: seq<State>, i: nat, operation: TaskId, sender: Name)
    requires Created(run, i, operation, sender)
    ensures Created(run, i + 1, operation, sender)
  {
    var m, v :| 0 <= m < i && CreatedAt(run, m, v, operation, sender);
    assert CreatedAt(run, m, v, operation, sender);
  }

  /** In state i every verify call was called, and every operation created, in this run. */
  ghost predicate Traced(run: seq<State>, i: nat)
    requires i < |run|
  {
    forall u :: u in run[i].tasks ==> TracedTask(run, i, u, run[i].tasks[u])
  }

  ghost predicate TracedTask(run: seq<State>, i: nat, u: TaskId, k: Task) {
    (k.pc.InVerifyStart() ==> Called(run, i, u, k.sender)) && (k.pc.Verifies() ==> Created(run, i, u, k.sender))
  }

  lemma TraceStep(run: seq<State>, i: nat, u: TaskId)
    requires i + 1 < |run| && Traced(run, i) && u in run[i + 1].tasks && Originates(run[i], run[i + 1], u)
    ensures TracedTask(run, i + 1, u, run[i + 1].tasks[u])
  {
    var s, s' := run[i], run[i + 1];
    var k := s'.tasks[u];
    if Inherits(s, s', u) {
      assert TracedTask(run, i, u, s.tasks[u]);
      if k.pc.InVerifyStart() { CalledLater(run, i, u, k.sender); }
      if k.pc.Verifies() { CreatedLater(run, i, u, k.sender); }
    } else if VerifyStartBegins(s, s', u, k.sender) {
      assert CalledAt(run, i, u, k.sender);
    } else if k.pc.InVerifyStart() || k.pc.Verifies() {
      var v := s.verifyTask.value;
      assert TracedTask(run, i, v, s.tasks[v]);
      assert CreatedAt(run, i, v, u, k.sender);
    }
  }

  lemma NextOriginates(s: State, s': State)
    requires Inv(s) && Next(s, s')
    ensures forall u :: u in s'.tasks ==> Originates(s, s', u)
  {
    var a :| Enabled(s, a) && s' == Apply(s, a);
    StepOriginates(s, a);
  }

  lemma {:induction false} RunIsTraced(run: seq<State>, i: nat)
    requires IsRun(run) && i < |run|
    ensures Traced(run, i)
  {
    if i > 0 {
      RunIsTraced(run, i - 1);
      RunKeepsInv(run, i - 1);
      assert StepAt(run, i - 1);
      NextOriginates(run[i - 1], run[i]);
      forall u | u in run[i].tasks ensures TracedTask(run, i, u, run[i].tasks[u]) {
        TraceStep(run, i - 1, u);
      }
    }
  }

  lemma PublisherVerifies(s: State, a: Action)
    requires Inv(s) && Enabled(s, a) && Apply(s, a).published != s.published && a.Resume?
    ensures s.tasks[a.task].pc.Verifies()
  {
    if s.tasks[a.task].pc.InStop() {
      StopResumedMoves(s, a.task, a.ok, a.flag);
    } else if s.tasks[a.task].pc.InClaim() {
      ClaimResumedMoves(s, a.task, a.ok, a.flag);
    }
  }

  /** A step that publishes: p comes from a running operation in the verify slot, under its sender's claim. */
  predicate Publishes(s: State, s': State, p: Publication) {
    && s'.published == s.published + [p] && p.operation in s.tasks && s.tasks[p.operation].pc.Verifies()
    && p.starter == s.tasks[p.operation].sender && p.claim == s.claim && s.ClaimedBy(p.starter)
    && s.verifyTask == Some(p.operation) && s.enrollTask.None? && s.deleteTask.None?
  }

  lemma NextPublishes(s: State, s': State)
    requires Inv(s) && Next(s, s')
    ensures s'.published == s.published || exists p :: Publishes(s, s', p)
  {
    var a :| Enabled(s, a) && s' == Apply(s, a);
    if s'.published != s.published {
      PublishStep(s, a);
      PublisherVerifies(s, a);
      assert Publishes(s, s', Publication(a.task, s.tasks[a.task].sender, s.claim));
    }
  }

  lemma PublishingStep(run: seq<State>, j: nat, p: Publication)
    requires j + 1 < |run| && Traced(run, j) && Publishes(run[j], run[j + 1], p)
    ensures PublishedAt(run, j, p)
  {
    assert TracedTask(run, j, p.operation, run[j].tasks[p.operation]);
  }

  /**
   * Provenance: every published match was published in some step j, from the verify slot and under
   * the claim of its starter, by an operation that an earlier step m created for a VerifyStart call
   * of that same sender, itself begun under that sender's claim in a step before m.
   */
  lemma {:induction false} MatchesReachTheirStarter(run: seq<State>, i: nat, k: nat) returns (j: nat)
    requires IsRun(run) && i < |run| && k < |run[i].published|
    ensures j < i && |run[j].published| == k && PublishedAt(run, j, run[i].published[k])
  {
    j := i - 1;
    RunKeepsInv(run, j);
    assert StepAt(run, j);
    NextPublishes(run[j], run[i]);
    if k < |run[j].published| {
      assert run[i].published[k] == run[j].published[k];
      j := MatchesReachTheirStarter(run, j, k);
    } else {
      var p :| Publishes(run[j], run[i], p);
      RunIsTraced(run, j);
      PublishingStep(run, j, p);
    }
  }

  // ------------------------------------------------------------- claims and their generations

  /** The call that took the current claim has returned. */
  predicate ClaimSettled(s: State) {
    s.claim.Some? ==> s.claim.value.caller < s.nextTask && s.claim.value.caller !in s.tasks
  }

  /** c is not the claim and never will be again: its call is over. */
  predicate ClaimGone(s: State, c: Claim) {
    c.caller < s.nextTask && c.caller !in s.tasks && s.claim != Some(c)
  }

  /** Calls keep their numbers, new ones get new numbers, and a new claim carries the number of the call it ends. */
  predicate ClaimArrives(s: State, s': State) {
    && s.nextTask <= s'.nextTask
    && (forall u :: u in s'.tasks ==> u in s.tasks || s.nextTask <= u)
    && (s'.claim.Some? && s'.claim != s.claim ==>
          s'.claim.value.caller in s.tasks && s'.claim.value.caller !in s'.tasks)
  }

  lemma StartsArrive(s: State, t: TaskId, ok: bool)
    requires t in s.tasks
    ensures s.tasks[t].pc.InVerifyStart() ==> ClaimArrives(s, VerifyStartResumed(s, t, ok))
    ensures s.tasks[t].pc.InEnrollStart() ==> ClaimArrives(s, EnrollStartResumed(s, t, ok))
  {
  }

  lemma OperationsArrive(s: State, t: TaskId, ok: bool, matched: bool)
    requires t in s.tasks
    ensures s.tasks[t].pc.InDelete() ==> ClaimArrives(s, DeleteResumed(s, t, ok))
    ensures s.tasks[t].pc.InOperation() ==> ClaimArrives(s, OperationResumed(s, t, ok, matched))
  {
  }

  lemma StepArrives(s: State, a: Action)
    requires Inv(s) && Enabled(s, a)
    ensures ClaimArrives(s, Apply(s, a))
  {
    if a.Resume? {
      var t, pc := a.task, s.tasks[a.task].pc;
      if pc.InStop() {
        StopResumedMoves(s, t, a.ok, a.flag);
      } else if pc.InClaim() {
        ClaimResumedMoves(s, t, a.ok, a.flag);
      } else {
        StartsArrive(s, t, a.ok);
        OperationsArrive(s, t, a.ok, a.flag);
      }
    }
  }

  lemma NextArrives(s: State, s': State)
    requires Inv(s) && Next(s, s')
    ensures ClaimArrives(s, s')
  {
    var a :| Enabled(s, a) && s' == Apply(s, a);
    StepArrives(s, a);
  }

  lemma {:induction false} ClaimsAreSettled(run: seq<State>, i: nat)
    requires IsRun(run) && i < |run|
    ensures ClaimSettled(run[i])
  {
    if i > 0 {
      ClaimsAreSettled(run, i - 1);
      RunKeepsInv(run, i - 1);
      assert StepAt(run, i - 1);
      NextArrives(run[i - 1], run[i]);
    }
  }

  /** In s, c is the claim under this generation, or was given up under an earlier one for good. */
  predicate Follows(s: State, c: Claim, generation: nat) {
    if s.claimGeneration == generation then s.claim == Some(c)
    else s.claimGeneration > generation && ClaimGone(s, c)
  }

  lemma FollowsStep(s: State, s': State, c: Claim, generation: nat)
    requires ClaimSettled(s) && ClaimArrives(s, s') && CountsClaims(s, s') && Follows(s, c, generation)
    ensures Follows(s', c, generation)
  {
  }

  lemma NextFollows(s: State, s': State, c: Claim, generation: nat)
    requires Inv(s) && Next(s, s') && ClaimSettled(s) && Follows(s, c, generation)
    ensures Follows(s', c, generation)
  {
    var a :| Enabled(s, a) && s' == Apply(s, a);
    StepArrives(s, a);
    StepCountsClaims(s, a);
    FollowsStep(s, s', c, generation);
  }

  lemma RunFollows(run: seq<State>, i: nat, c: Claim, generation: nat)
    requires IsRun(run) && i + 1 < |run| && Follows(run[i], c, generation)
    ensures Follows(run[i + 1], c, generation)
  {
    ClaimsAreSettled(run, i);
    RunKeepsInv(run, i);
    assert StepAt(run, i);
    NextFollows(run[i], run[i + 1], c, generation);
  }

  /** A claim that was given up never comes back, so the generation identifies it. */
  lemma {:induction false} ClaimsNeverRecur(run: seq<State>, i: nat, j: nat)
    requires IsRun(run) && i <= j < |run| && run[i].claim.Some?
    ensures Follows(run[j], run[i].claim.value, run[i].claimGeneration)
    ensures run[j].claim == run[i].claim <==> run[j].claimGeneration == run[i].claimGeneration
  {
    if i < j {
      ClaimsNeverRecur(run, i, j - 1);
      RunFollows(run, j - 1, run[i].claim.value, run[i].claimGeneration);
    }
  }

  // --------------------------------------------------- what is not blocked

  ghost predicate Leads(s: State, actions: seq<Action>, after: State)
    decreases |actions|
  {
    if actions == [] then s == after
    else Enabled(s, actions[0]) && Leads(Apply(s, actions[0]), actions[1..], after)
  }

  /** From an idle claim, VerifyStart's three sections leave its operation running and in the slot. */
  lemma UndisturbedVerifyStarts(s: State, sender: Name) returns (after: State)
    requires Inv(s) && s.Idle() && s.ClaimedBy(sender)
    ensures var t, go := s.nextTask, Resume(s.nextTask, true, false);
            && Leads(s, [Begin(CallVerifyStart, sender), go, go, go], after)
            && after == s.(tasks := s.tasks[t + 1 := Task(sender, Verifying)], nextTask := t + 2,
                           verifyTask := Some(t + 1))
  {
    var t := s.nextTask;
    assert t !in s.tasks && t + 1 !in s.tasks;
    var go := Resume(t, true, false);
    var s1 := Spawn(s, sender, VerifyFirstCheck(s.claimGeneration));
    assert s1 == Apply(s, Begin(CallVerifyStart, sender));
    var s2 := Goto(s1.(verifyTask := Some(t)), t, VerifyProjecting);
    assert s2 == Apply(s1, go);
    var s3 := Goto(s2, t, VerifySecondCheck(s.claimGeneration));
    assert s3 == Apply(s2, go);
    after := Finish(Spawn(s3.(verifyTask := Some(t + 1)), sender, Verifying), t);
    assert after == Apply(s3, go);
    assert after.tasks == s.tasks[t + 1 := Task(sender, Verifying)];
    LeadsOne(s3, go, after);
    LeadsMore(s2, go, s3, [go], after);
    LeadsMore(s1, go, s2, [go, go], after);
    LeadsMore(s, Begin(CallVerifyStart, sender), s1, [go, go, go], after);
  }

  lemma LeadsOne(s: State, a: Action, after: State)
    requires Enabled(s, a) && after == Apply(s, a)
    ensures Leads(s, [a], after)
  {
    assert [a][1..] == [];
  }

  lemma LeadsMore(s: State, a: Action, mid: State, rest: seq<Action>, after: State)
    requires Enabled(s, a) && mid == Apply(s, a) && Leads(mid, rest, after)
    ensures Leads(s, [a] + rest, after)
  {
    assert ([a] + rest)[1..] == rest;
  }

  /** A running operation of the claimant publishes its match, once and to that claim. */
  lemma UndisturbedMatchIsPublished(s: State, t: TaskId, matched: bool) returns (after: State)
    requires Inv(s) && t in s.tasks && s.tasks[t].pc.Verifying? && s.ClaimedBy(s.tasks[t].sender)
    ensures Leads(s, [Resume(t, true, matched), Resume(t, true, matched)], after)
    ensures after.published == s.published + if matched then [Publication(t, s.tasks[t].sender, s.claim)] else []
    ensures t !in after.tasks && after.verifyTask == s.verifyTask && after.claim == s.claim
  {
    var go := Resume(t, true, matched);
    var s1 := Goto(s, t, PublishCheck(s.claimGeneration, matched));
    assert s1 == Apply(s, go);
    after := Apply(s1, go);
    LeadsOne(s1, go, after);
    LeadsMore(s, go, s1, [go], after);
  }

  /** With the claim and its lock free, a Claim of another sender succeeds. */
  lemma UndisturbedClaim(s: State, sender: Name) returns (after: State)
    requires s.claim.None? && s.claimLock.None? && s.nextTask !in s.tasks
    ensures var n := s.nextTask;
            && Leads(s, [Begin(CallClaim, sender), Resume(n, true, false), Resume(n, true, false)], after)
            && after == SetClaim(s.(nextTask := n + 1), Claim(sender, n))
  {
    var n, go := s.nextTask, Resume(s.nextTask, true, false);
    var s1 := Spawn(s, sender, ClaimWaiting);
    assert s1 == Apply(s, Begin(CallClaim, sender));
    var s2 := Goto(s1.(claimLock := Some(n)), n, ClaimCollecting);
    assert s2 == Apply(s1, go);
    after := Finish(SetClaim(s2.(claimLock := None), Claim(sender, n)), n);
    assert after == Apply(s2, go);
    assert after.tasks == s.tasks;
    LeadsOne(s2, go, after);
    LeadsMore(s1, go, s2, [go], after);
    LeadsMore(s, Begin(CallClaim, sender), s1, [go, go], after);
  }

  lemma {:induction false} LeadsOn(s: State, a: seq<Action>, mid: State, b: seq<Action>, after: State)
    requires Leads(s, a, mid) && Leads(mid, b, after)
    ensures Leads(s, a + b, after)
    decreases |a|
  {
    if a == [] {
      assert a + b == b;
    } else {
      assert (a + b)[1..] == a[1..] + b;
      LeadsOn(Apply(s, a[0]), a[1..], mid, b, after);
    }
  }
}
