/**
 * The fprintd device facade: the claim and its generation, and the verify,
 * enroll and delete slots, under every interleaving of D-Bus calls.
 *
 * A call is a task suspended at one of its awaits; one action runs one task to
 * its next await.  Every suspended call may fail or be cancelled, every timer
 * may fire at any time, and evidence revalidation may fail at any time.
 */
module DeviceSlots {
  import opened Wrappers

  type TaskId = nat
  type Name = string

  datatype Claim = Claim(sender: Name, caller: nat)

  /** Who is unwinding the running operations. */
  datatype Stopper = VerifyStop | EnrollStop | Release | Departed | Reap

  datatype Pc =
    // VerifyStart
    | VerifyFirstCheck(gen: nat)
    | VerifyProjecting
    | VerifySecondCheck(gen: nat)
      // EnrollStart
    | EnrollFirstCheck(gen: nat)
    | EnrollProjecting
    | EnrollSecondCheck(gen: nat)
      // DeleteEnrolledFinger
    | DeleteFirstCheck(gen: nat)
    | DeleteProjecting
    | DeleteSecondCheck(gen: nat)
    | Deleting
      // VerifyStop, EnrollStop, Release and the two claim-lock holders
    | StopCheck(gen: nat, who: Stopper)
    | StoppingVerify(target: TaskId, who: Stopper)
    | StoppingEnroll(target: TaskId, who: Stopper)
    | WaitingDelete(target: TaskId, who: Stopper)
      // Claim and sender_departed
    | ClaimWaiting
    | ClaimCollecting
    | DepartedWaiting
      // _run_verification and the enrollment worker
    | Verifying
    | PublishCheck(gen: nat, matched: bool)
    | Enrolling
  {
    predicate InVerifyStart() {
      VerifyFirstCheck? || VerifyProjecting? || VerifySecondCheck?
    }

    predicate InEnrollStart() {
      EnrollFirstCheck? || EnrollProjecting? || EnrollSecondCheck?
    }

    predicate InDelete() {
      DeleteFirstCheck? || OwnsDelete()
    }

    predicate InStop() {
      StopCheck? || StoppingVerify? || StoppingEnroll? || WaitingDelete?
    }

    predicate InClaim() {
      ClaimWaiting? || ClaimCollecting? || DepartedWaiting?
    }

    predicate InOperation() {
      Verifying? || PublishCheck? || Enrolling?
    }

    /** Suspended inside _require_claim_owner. */
    predicate ChecksOwner() {
      VerifyFirstCheck? || VerifySecondCheck? || EnrollFirstCheck? || EnrollSecondCheck?
      || DeleteFirstCheck? || DeleteSecondCheck? || StopCheck? || PublishCheck?
    }

    /** The operation a VerifyStart created. */
    predicate Verifies() {
      Verifying? || PublishCheck?
    }

    predicate OwnsVerify() {
      VerifyProjecting? || VerifySecondCheck? || Verifying? || PublishCheck?
    }

    predicate OwnsDelete() {
      DeleteProjecting? || DeleteSecondCheck? || Deleting?
    }

    /** A biometric operation that is really running. */
    predicate Operates() {
      Verifying? || PublishCheck? || Deleting? || Enrolling?
    }

    predicate HoldsClaimLock() {
      ClaimCollecting?
      || ((StoppingVerify? || StoppingEnroll? || WaitingDelete?) && (who.Departed? || who.Reap?))
    }
  }

  datatype Task = Task(sender: Name, pc: Pc)

  /** One VerifyFingerMatched + VerifyStatus("verify-match"), and the claim it went to. */
  datatype Publication = Publication(operation: TaskId, starter: Name, claim: Option<Claim>)

  datatype State = State(
    claim: Option<Claim>,
    claimGeneration: nat,
    claimLock: Option<TaskId>,
    verifyTask: Option<TaskId>,
    enrollTask: Option<TaskId>,
    deleteTask: Option<TaskId>,
    tasks: map<TaskId, Task>,
    nextTask: TaskId,
    published: seq<Publication>)
  {
    predicate Idle() {
      verifyTask.None? && enrollTask.None? && deleteTask.None?
    }

    predicate ClaimedBy(sender: Name) {
      claim.Some? && claim.value.sender == sender
    }
  }

  const INIT := State(None, 0, None, None, None, None, map[], 0, [])

  // ---------------------------------------------------------------- steps

  function Goto(s: State, t: TaskId, pc: Pc): State
    requires t in s.tasks
  {
    s.(tasks := s.tasks[t := s.tasks[t].(pc := pc)])
  }

  function Spawn(s: State, sender: Name, pc: Pc): State {
    s.(tasks := s.tasks[s.nextTask := Task(sender, pc)], nextTask := s.nextTask + 1)
  }

  function Finish(s: State, t: TaskId): State {
    s.(tasks := s.tasks - {t})
  }

  function ClearClaim(s: State): State {
    s.(claim := None, claimGeneration := s.claimGeneration + 1)
  }

  function SetClaim(s: State, c: Claim): State {
    s.(claim := Some(c), claimGeneration := s.claimGeneration + 1)
  }

  /** The part of _require_claim_owner after its await. */
  predicate OwnerStillCurrent(s: State, t: TaskId, gen: nat, ok: bool)
    requires t in s.tasks
  {
    ok && s.claimGeneration == gen && s.ClaimedBy(s.tasks[t].sender)
  }

  // The stop chain: verification, then enrollment, then deletion, then the claim.

  function StopVerify(s: State, t: TaskId, who: Stopper): State
    requires t in s.tasks
  {
    if s.verifyTask.Some? then Goto(s, t, StoppingVerify(s.verifyTask.value, who)) else VerifyStopped(s, t, who)
  }

  function VerifyStopped(s: State, t: TaskId, who: Stopper): State
    requires t in s.tasks
  {
    if who.VerifyStop? then Finish(s, t) else StopEnroll(s, t, who)
  }

  function StopEnroll(s: State, t: TaskId, who: Stopper): State
    requires t in s.tasks
  {
    if s.enrollTask.Some? then Goto(s, t, StoppingEnroll(s.enrollTask.value, who)) else EnrollStopped(s, t, who)
  }

  function EnrollStopped(s: State, t: TaskId, who: Stopper): State
    requires t in s.tasks
  {
    if who.EnrollStop? then Finish(s, t)
    else if s.deleteTask.Some? then Goto(s, t, WaitingDelete(s.deleteTask.value, who))
    else ClaimReleased(s, t, who)
  }

  function ClaimReleased(s: State, t: TaskId, who: Stopper): State
    requires t in s.tasks
  {
    if who.Reap? then Goto(ClearClaim(s), t, ClaimCollecting)
    else if who.Departed? then Finish(ClearClaim(s).(claimLock := None), t)
    else Finish(ClearClaim(s), t)
  }

  /** What client.stop() leaves of the enrollment slot: free once its worker is done. */
  function EnrollFreed(s: State, target: TaskId): State {
    if s.enrollTask == Some(target) && target !in s.tasks then s.(enrollTask := None) else s
  }

  /** Release, departure and reaping ignore an enrollment worker that fails to stop. */
  predicate Persistent(who: Stopper) {
    who.Release? || who.Departed? || who.Reap?
  }

  /** `swallowed`: what ended the await is an error, not a cancellation. */
  function StopFailed(s: State, t: TaskId, swallowed: bool): State
    requires t in s.tasks
    requires s.tasks[t].pc.InStop()
  {
    var pc := s.tasks[t].pc;
    var m := if pc.StoppingEnroll? then EnrollFreed(s, pc.target) else s;
    if pc.StoppingEnroll? && swallowed && Persistent(pc.who) then EnrollStopped(m, t, pc.who)
    else Finish(if pc.HoldsClaimLock() then m.(claimLock := None) else m, t)
  }

  function StopResumed(s: State, t: TaskId, ok: bool, swallowed: bool): State
    requires t in s.tasks
    requires s.tasks[t].pc.InStop()
  {
    if !ok then StopFailed(s, t, swallowed)
    else
      match s.tasks[t].pc
      case StopCheck(gen, who) =>
        if !OwnerStillCurrent(s, t, gen, ok) then Finish(s, t)
        else if who.VerifyStop? && s.verifyTask.None? then Finish(s, t)
        else if who.EnrollStop? then
          if s.enrollTask.None? then Finish(s, t) else StopEnroll(s, t, who)
        else StopVerify(s, t, who)
      case StoppingVerify(target, who) =>
        VerifyStopped(if s.verifyTask == Some(target) then s.(verifyTask := None) else s, t, who)
      case StoppingEnroll(target, who) => EnrollStopped(EnrollFreed(s, target), t, who)
      case WaitingDelete(_, who) => ClaimReleased(s, t, who)
  }

  /** Leaving VerifyStart early gives the reservation back. */
  function VerifyStartFailed(s: State, t: TaskId): State {
    Finish(if s.verifyTask == Some(t) then s.(verifyTask := None) else s, t)
  }

  function VerifyStartResumed(s: State, t: TaskId, ok: bool): State
    requires t in s.tasks
    requires s.tasks[t].pc.InVerifyStart()
  {
    match s.tasks[t].pc
    case VerifyFirstCheck(gen) =>
      if OwnerStillCurrent(s, t, gen, ok) && s.Idle() then
        Goto(s.(verifyTask := Some(t)), t, VerifyProjecting)
      else Finish(s, t)
    case VerifyProjecting =>
      if ok && s.ClaimedBy(s.tasks[t].sender) then Goto(s, t, VerifySecondCheck(s.claimGeneration))
      else VerifyStartFailed(s, t)
    case VerifySecondCheck(gen) =>
      if OwnerStillCurrent(s, t, gen, ok)
         && s.verifyTask == Some(t) && s.deleteTask.None? && s.enrollTask.None?
      then Finish(Spawn(s.(verifyTask := Some(s.nextTask)), s.tasks[t].sender, Verifying), t)
      else VerifyStartFailed(s, t)
  }

  /** Reserves nothing across its awaits: it re-checks every slot before client.start. */
  function EnrollStartResumed(s: State, t: TaskId, ok: bool): State
    requires t in s.tasks
    requires s.tasks[t].pc.InEnrollStart()
  {
    match s.tasks[t].pc
    case EnrollFirstCheck(gen) =>
      if OwnerStillCurrent(s, t, gen, ok) && s.Idle() then Goto(s, t, EnrollProjecting) else Finish(s, t)
    case EnrollProjecting =>
      if ok && s.ClaimedBy(s.tasks[t].sender) then Goto(s, t, EnrollSecondCheck(s.claimGeneration))
      else Finish(s, t)
    case EnrollSecondCheck(gen) =>
      if OwnerStillCurrent(s, t, gen, ok) && s.Idle() then
        Finish(Spawn(s.(enrollTask := Some(s.nextTask)), s.tasks[t].sender, Enrolling), t)
      else Finish(s, t)
  }

  function DeleteFinished(s: State, t: TaskId): State {
    Finish(if s.deleteTask == Some(t) then s.(deleteTask := None) else s, t)
  }

  function DeleteResumed(s: State, t: TaskId, ok: bool): State
    requires t in s.tasks
    requires s.tasks[t].pc.InDelete()
  {
    match s.tasks[t].pc
    case DeleteFirstCheck(gen) =>
      if OwnerStillCurrent(s, t, gen, ok) && s.Idle() then
        Goto(s.(deleteTask := Some(t)), t, DeleteProjecting)
      else Finish(s, t)
    case DeleteProjecting =>
      if ok && s.ClaimedBy(s.tasks[t].sender) then Goto(s, t, DeleteSecondCheck(s.claimGeneration))
      else DeleteFinished(s, t)
    case DeleteSecondCheck(gen) =>
      if OwnerStillCurrent(s, t, gen, ok)
         && s.deleteTask == Some(t) && s.verifyTask.None? && s.enrollTask.None?
      then Goto(s, t, Deleting)
      else DeleteFinished(s, t)
    case Deleting => DeleteFinished(s, t)
  }

  /** _run_verification: after the touch it needs the owner again before it publishes. */
  function OperationResumed(s: State, t: TaskId, ok: bool, matched: bool): State
    requires t in s.tasks
    requires s.tasks[t].pc.InOperation()
  {
    match s.tasks[t].pc
    case Verifying =>
      if ok && s.ClaimedBy(s.tasks[t].sender) then Goto(s, t, PublishCheck(s.claimGeneration, matched))
      else Finish(s, t)
    case PublishCheck(gen, didMatch) =>
      if OwnerStillCurrent(s, t, gen, ok) && didMatch then
        Finish(s.(published := s.published + [Publication(t, s.tasks[t].sender, s.claim)]), t)
      else Finish(s, t)
    case Enrolling => Finish(s, t)
  }

  /** `dead`: the claiming process of the current claim is provably gone. */
  function ClaimResumed(s: State, t: TaskId, ok: bool, dead: bool): State
    requires t in s.tasks
    requires s.tasks[t].pc.InClaim()
  {
    match s.tasks[t].pc
    case ClaimWaiting =>
      if !ok || (s.claim.Some? && !dead) then Finish(s, t)
      else if s.claim.Some? then StopVerify(s.(claimLock := Some(t)), t, Reap)
      else Goto(s.(claimLock := Some(t)), t, ClaimCollecting)
    case ClaimCollecting =>
      var free := s.(claimLock := None);
      Finish(if ok then SetClaim(free, Claim(s.tasks[t].sender, t)) else free, t)
    case DepartedWaiting =>
      if ok && s.ClaimedBy(s.tasks[t].sender) then StopVerify(s.(claimLock := Some(t)), t, Departed)
      else Finish(s, t)
  }

  datatype Call =
    | CallClaim
    | CallRelease
    | CallVerifyStart
    | CallVerifyStop
    | CallEnrollStart
    | CallEnrollStop
    | CallDelete

  datatype Action =
    | Begin(call: Call, sender: Name)
    | SenderDeparts(sender: Name)
    | ExpireUnstarted
    | ExpireStaleVerify
    | ExpireStaleEnroll(clear: bool)
    | Resume(task: TaskId, ok: bool, flag: bool)

  function FirstPc(call: Call, gen: nat): Pc {
    match call
    case CallClaim => ClaimWaiting
    case CallRelease => StopCheck(gen, Release)
    case CallVerifyStart => VerifyFirstCheck(gen)
    case CallVerifyStop => StopCheck(gen, VerifyStop)
    case CallEnrollStart => EnrollFirstCheck(gen)
    case CallEnrollStop => StopCheck(gen, EnrollStop)
    case CallDelete => DeleteFirstCheck(gen)
  }

  predicate Enabled(s: State, a: Action) {
    match a
    case ExpireStaleVerify => s.verifyTask.Some? && s.verifyTask.value !in s.tasks
    case ExpireStaleEnroll(_) => s.enrollTask.Some? && s.enrollTask.value !in s.tasks
    case Resume(t, ok, _) =>
      && t in s.tasks
      && (ok ==>
            match s.tasks[t].pc
            case ClaimWaiting => s.claimLock.None?
            case DepartedWaiting => s.claimLock.None?
            case StoppingVerify(target, _) => target !in s.tasks
            case StoppingEnroll(target, _) => target !in s.tasks
            case WaitingDelete(target, _) => target !in s.tasks
            case _ => true)
    case _ => true
  }

  function Resumed(s: State, t: TaskId, ok: bool, flag: bool): State
    requires t in s.tasks
  {
    var pc := s.tasks[t].pc;
    if pc.InVerifyStart() then VerifyStartResumed(s, t, ok)
    else if pc.InEnrollStart() then EnrollStartResumed(s, t, ok)
    else if pc.InDelete() then DeleteResumed(s, t, ok)
    else if pc.InStop() then StopResumed(s, t, ok, flag)
    else if pc.InClaim() then ClaimResumed(s, t, ok, flag)
    else OperationResumed(s, t, ok, flag)
  }

  function Apply(s: State, a: Action): State
    requires Enabled(s, a)
  {
    match a
    case Begin(call, sender) =>
      if call.CallClaim? || s.ClaimedBy(sender) then Spawn(s, sender, FirstPc(call, s.claimGeneration)) else s
    case SenderDeparts(sender) => Spawn(s, sender, DepartedWaiting)
    case ExpireUnstarted => if s.Idle() then ClearClaim(s) else s
    case ExpireStaleVerify => ClearClaim(s.(verifyTask := None))
    case ExpireStaleEnroll(clear) =>
      var stopped := s.(enrollTask := None);
      if clear then ClearClaim(stopped) else stopped
    case Resume(t, ok, flag) => Resumed(s, t, ok, flag)
  }

  ghost predicate Next(s: State, s': State) {
    exists a :: Enabled(s, a) && s' == Apply(s, a)
  }

  ghost predicate IsRun(run: seq<State>) {
    && |run| > 0
    && run[0] == INIT
    && forall i :: 0 <= i < |run| - 1 ==> StepAt(run, i)
  }

  ghost predicate StepAt(run: seq<State>, i: int)
    requires 0 <= i < |run| - 1
  {
    Next(run[i], run[i + 1])
  }

  // ------------------------------------------------------------ invariant

  predicate AtMostOneSlot(s: State) {
    && !(s.verifyTask.Some? && s.enrollTask.Some?)
    && !(s.verifyTask.Some? && s.deleteTask.Some?)
    && !(s.enrollTask.Some? && s.deleteTask.Some?)
  }

  /** A captured generation that is still current pins the claim it was captured under. */
  predicate PinsClaim(s: State, k: Task) {
    k.pc.ChecksOwner() ==>
      k.pc.gen <= s.claimGeneration && (k.pc.gen == s.claimGeneration ==> s.ClaimedBy(k.sender))
  }

  predicate OwnsSlot(s: State, t: TaskId, k: Task) {
    && (k.pc.OwnsVerify() ==> s.verifyTask == Some(t))
    && (k.pc.Enrolling? ==> s.enrollTask == Some(t))
    && (k.pc.OwnsDelete() ==> s.deleteTask == Some(t))
  }

  predicate TaskOk(s: State, t: TaskId, k: Task) {
    && PinsClaim(s, k)
    && OwnsSlot(s, t, k)
    && (k.pc.HoldsClaimLock() ==> s.claimLock == Some(t))
    && (k.pc.ClaimCollecting? ==> s.claim.None?)
    && (k.pc.StopCheck? ==> !k.pc.who.Departed? && !k.pc.who.Reap?)
  }

  ghost predicate PublishedToStarter(s: State) {
    forall i :: 0 <= i < |s.published| ==>
      s.published[i].claim.Some? && s.published[i].claim.value.sender == s.published[i].starter
  }

  ghost predicate Inv(s: State) {
    && AtMostOneSlot(s)
    && (forall t :: t in s.tasks ==> t < s.nextTask && TaskOk(s, t, s.tasks[t]))
    && (forall t :: s.verifyTask == Some(t) || s.enrollTask == Some(t) || s.deleteTask == Some(t) ==> t < s.nextTask)
    && (s.deleteTask.Some? ==> s.deleteTask.value in s.tasks && s.tasks[s.deleteTask.value].pc.OwnsDelete())
    && PublishedToStarter(s)
  }

  // ---------------------------------------------------------------- proof

  /** A slot may be given up by its own task, or once its task has ended. */
  predicate SlotMoves(s: State, t: TaskId, before: Option<TaskId>, after: Option<TaskId>) {
    after == before || before.None? || before == Some(t) || before.value !in s.tasks
  }

  /** What a step of task t may do to the fields that other tasks rely on. */
  predicate KeepsOthers(s: State, m: State, t: TaskId) {
    && (m.claimGeneration > s.claimGeneration || (m.claimGeneration == s.claimGeneration && m.claim == s.claim))
    && (m.claim == s.claim || m.claim.None? || s.claimLock == Some(t))
    && SlotMoves(s, t, s.verifyTask, m.verifyTask)
    && SlotMoves(s, t, s.enrollTask, m.enrollTask)
    && SlotMoves(s, t, s.deleteTask, m.deleteTask)
    && SlotMoves(s, t, s.claimLock, m.claimLock)
  }

  lemma OthersStayOk(s: State, m: State, t: TaskId, u: TaskId)
    requires Inv(s) && KeepsOthers(s, m, t)
    requires u != t && u in s.tasks
    ensures TaskOk(m, u, s.tasks[u])
  {
  }

  lemma StepIsOk(s: State, s': State, t: TaskId)
    requires Inv(s) && KeepsOthers(s, s', t) && AtMostOneSlot(s')
    requires s'.nextTask >= s.nextTask
    requires forall u :: u in s'.tasks && u != t && u != s.nextTask ==> u in s.tasks && s'.tasks[u] == s.tasks[u]
    requires t in s'.tasks ==> t < s'.nextTask && TaskOk(s', t, s'.tasks[t])
    requires s.nextTask in s'.tasks ==> s.nextTask < s'.nextTask && TaskOk(s', s.nextTask, s'.tasks[s.nextTask])
    requires forall x :: s'.verifyTask == Some(x) || s'.enrollTask == Some(x) ==> x < s'.nextTask
    requires s'.deleteTask.Some? ==> s'.deleteTask.value in s'.tasks && s'.tasks[s'.deleteTask.value].pc.OwnsDelete()
    requires PublishedToStarter(s')
    ensures Inv(s')
  {
    forall u | u in s'.tasks
      ensures u < s'.nextTask && TaskOk(s', u, s'.tasks[u])
    {
      if u != t && u != s.nextTask { OthersStayOk(s, s', t, u); }
    }
  }

  lemma VerifyStartResumedKeepsInv(s: State, t: TaskId, ok: bool)
    requires Inv(s) && t in s.tasks
    requires s.tasks[t].pc.InVerifyStart()
    ensures Inv(VerifyStartResumed(s, t, ok))
  {
    var pc, after := s.tasks[t].pc, VerifyStartResumed(s, t, ok);
    if pc.VerifySecondCheck? && OwnerStillCurrent(s, t, pc.gen, ok)
       && s.verifyTask == Some(t) && s.deleteTask.None? && s.enrollTask.None? {
      VerifySpawnKeepsInv(s, t);
    } else {
      StepIsOk(s, after, t);
    }
  }

  lemma VerifySpawnKeepsInv(s: State, t: TaskId)
    requires Inv(s) && t in s.tasks && s.tasks[t].pc.VerifySecondCheck?
    requires s.verifyTask == Some(t) && s.deleteTask.None? && s.enrollTask.None?
    ensures Inv(Finish(Spawn(s.(verifyTask := Some(s.nextTask)), s.tasks[t].sender, Verifying), t))
  {
    StepIsOk(s, Finish(Spawn(s.(verifyTask := Some(s.nextTask)), s.tasks[t].sender, Verifying), t), t);
  }

  lemma EnrollStartResumedKeepsInv(s: State, t: TaskId, ok: bool)
    requires Inv(s) && t in s.tasks
    requires s.tasks[t].pc.InEnrollStart()
    ensures Inv(EnrollStartResumed(s, t, ok))
  {
    var pc, after := s.tasks[t].pc, EnrollStartResumed(s, t, ok);
    if pc.EnrollSecondCheck? && OwnerStillCurrent(s, t, pc.gen, ok) && s.Idle() {
      EnrollSpawnKeepsInv(s, t);
    } else {
      StepIsOk(s, after, t);
    }
  }

  lemma EnrollSpawnKeepsInv(s: State, t: TaskId)
    requires Inv(s) && t in s.tasks && s.tasks[t].pc.EnrollSecondCheck? && s.Idle()
    ensures Inv(Finish(Spawn(s.(enrollTask := Some(s.nextTask)), s.tasks[t].sender, Enrolling), t))
  {
    StepIsOk(s, Finish(Spawn(s.(enrollTask := Some(s.nextTask)), s.tasks[t].sender, Enrolling), t), t);
  }

  lemma DeleteResumedKeepsInv(s: State, t: TaskId, ok: bool)
    requires Inv(s) && t in s.tasks
    requires s.tasks[t].pc.InDelete()
    ensures Inv(DeleteResumed(s, t, ok))
  {
    var s' := DeleteResumed(s, t, ok);
    if s' == DeleteFinished(s, t) {
      DeleteFinishedKeepsInv(s, t);
    } else {
      StepIsOk(s, s', t);
    }
  }

  lemma DeleteFinishedKeepsInv(s: State, t: TaskId)
    requires Inv(s) && t in s.tasks && s.tasks[t].pc.InDelete()
    ensures Inv(DeleteFinished(s, t))
  {
    StepIsOk(s, DeleteFinished(s, t), t);
  }

  lemma OperationResumedKeepsInv(s: State, t: TaskId, ok: bool, matched: bool)
    requires Inv(s) && t in s.tasks
    requires s.tasks[t].pc.InOperation()
    ensures Inv(OperationResumed(s, t, ok, matched))
  {
    StepIsOk(s, OperationResumed(s, t, ok, matched), t);
  }

  /** What a stopping task may have changed before it moves on. */
  ghost predicate StopReady(s: State, m: State, t: TaskId, who: Stopper) {
    && Inv(s) && t in s.tasks && !s.tasks[t].pc.OwnsDelete()
    && m.tasks == s.tasks && m.nextTask == s.nextTask && m.published == s.published
    && KeepsOthers(s, m, t) && m.claimGeneration == s.claimGeneration
    && m.deleteTask == s.deleteTask && AtMostOneSlot(m)
    && (forall x :: m.verifyTask == Some(x) || m.enrollTask == Some(x) ==> x < m.nextTask)
    && ((who.Departed? || who.Reap?) ==> m.claimLock == Some(t))
  }

  lemma ClaimReleasedKeepsInv(s: State, m: State, t: TaskId, who: Stopper)
    requires StopReady(s, m, t, who)
    ensures Inv(ClaimReleased(m, t, who))
  {
    assert KeepsOthers(s, ClaimReleased(m, t, who), t);
    StepIsOk(s, ClaimReleased(m, t, who), t);
  }

  lemma StopMoveKeepsInv(s: State, m: State, t: TaskId, who: Stopper, pc: Pc)
    requires StopReady(s, m, t, who)
    requires TaskOk(Goto(m, t, pc), t, Goto(m, t, pc).tasks[t])
    ensures Inv(Goto(m, t, pc))
  {
    StepIsOk(s, Goto(m, t, pc), t);
  }

  lemma StopDoneKeepsInv(s: State, m: State, t: TaskId, who: Stopper)
    requires StopReady(s, m, t, who)
    ensures Inv(Finish(m, t))
  {
    StepIsOk(s, Finish(m, t), t);
  }

  lemma EnrollStoppedKeepsInv(s: State, m: State, t: TaskId, who: Stopper)
    requires StopReady(s, m, t, who)
    ensures Inv(EnrollStopped(m, t, who))
  {
    if who.EnrollStop? {
      StopDoneKeepsInv(s, m, t, who);
    } else if m.deleteTask.Some? {
      StopMoveKeepsInv(s, m, t, who, WaitingDelete(m.deleteTask.value, who));
    } else {
      ClaimReleasedKeepsInv(s, m, t, who);
    }
  }

  lemma StopEnrollKeepsInv(s: State, m: State, t: TaskId, who: Stopper)
    requires StopReady(s, m, t, who)
    ensures Inv(StopEnroll(m, t, who))
  {
    if m.enrollTask.Some? {
      StopMoveKeepsInv(s, m, t, who, StoppingEnroll(m.enrollTask.value, who));
    } else {
      EnrollStoppedKeepsInv(s, m, t, who);
    }
  }

  lemma VerifyStoppedKeepsInv(s: State, m: State, t: TaskId, who: Stopper)
    requires StopReady(s, m, t, who)
    ensures Inv(VerifyStopped(m, t, who))
  {
    if who.VerifyStop? {
      StopDoneKeepsInv(s, m, t, who);
    } else {
      StopEnrollKeepsInv(s, m, t, who);
    }
  }

  lemma StopVerifyKeepsInv(s: State, m: State, t: TaskId, who: Stopper)
    requires StopReady(s, m, t, who)
    ensures Inv(StopVerify(m, t, who))
  {
    if m.verifyTask.Some? {
      StopMoveKeepsInv(s, m, t, who, StoppingVerify(m.verifyTask.value, who));
    } else {
      VerifyStoppedKeepsInv(s, m, t, who);
    }
  }

  lemma StopCheckedKeepsInv(s: State, t: TaskId, swallowed: bool)
    requires Inv(s) && t in s.tasks && s.tasks[t].pc.StopCheck?
    ensures Inv(StopResumed(s, t, true, swallowed))
  {
    var who := s.tasks[t].pc.who;
    if StopResumed(s, t, true, swallowed) == Finish(s, t) {
      StepIsOk(s, Finish(s, t), t);
    } else if who.EnrollStop? {
      StopEnrollKeepsInv(s, s, t, who);
    } else {
      StopVerifyKeepsInv(s, s, t, who);
    }
  }

  lemma StopFailedKeepsInv(s: State, t: TaskId, swallowed: bool)
    requires Inv(s) && t in s.tasks && s.tasks[t].pc.InStop()
    ensures Inv(StopFailed(s, t, swallowed))
  {
    var pc := s.tasks[t].pc;
    if pc.StoppingEnroll? && swallowed && Persistent(pc.who) {
      EnrollStoppedKeepsInv(s, EnrollFreed(s, pc.target), t, pc.who);
    } else {
      StepIsOk(s, StopFailed(s, t, swallowed), t);
    }
  }

  lemma StopResumedKeepsInv(s: State, a: Action)
    requires Inv(s) && a.Resume? && Enabled(s, a)
    requires s.tasks[a.task].pc.InStop()
    ensures Inv(StopResumed(s, a.task, a.ok, a.flag))
  {
    var t := a.task;
    if !a.ok {
      StopFailedKeepsInv(s, t, a.flag);
    } else {
      match s.tasks[t].pc
      case StopCheck(_, _) => StopCheckedKeepsInv(s, t, a.flag);
      case StoppingVerify(target, who) =>
        VerifyStoppedKeepsInv(s, if s.verifyTask == Some(target) then s.(verifyTask := None) else s, t, who);
      case StoppingEnroll(target, who) => EnrollStoppedKeepsInv(s, EnrollFreed(s, target), t, who);
      case WaitingDelete(_, who) => ClaimReleasedKeepsInv(s, s, t, who);
    }
  }

  lemma ClaimResumedKeepsInv(s: State, a: Action)
    requires Inv(s) && a.Resume? && Enabled(s, a)
    requires s.tasks[a.task].pc.InClaim()
    ensures Inv(ClaimResumed(s, a.task, a.ok, a.flag))
  {
    var t := a.task;
    var s' := ClaimResumed(s, t, a.ok, a.flag);
    var locked := s.(claimLock := Some(t));
    if a.ok && s.tasks[t].pc.ClaimWaiting? && s.claim.Some? && a.flag {
      StopVerifyKeepsInv(s, locked, t, Reap);
    } else if a.ok && s.tasks[t].pc.DepartedWaiting? && s.ClaimedBy(s.tasks[t].sender) {
      StopVerifyKeepsInv(s, locked, t, Departed);
    } else {
      StepIsOk(s, s', t);
    }
  }

  /** A new call, a departure or a timer. */
  lemma TimersKeepInv(s: State, a: Action)
    requires Inv(s) && Enabled(s, a) && !a.Resume?
    ensures Inv(Apply(s, a))
  {
    StepIsOk(s, Apply(s, a), s.nextTask);
  }

  lemma StepKeepsInv(s: State, a: Action)
    requires Inv(s) && Enabled(s, a)
    ensures Inv(Apply(s, a))
  {
    if !a.Resume? {
      TimersKeepInv(s, a);
    } else {
      var pc := s.tasks[a.task].pc;
      if pc.InVerifyStart() {
        VerifyStartResumedKeepsInv(s, a.task, a.ok);
      } else if pc.InEnrollStart() {
        EnrollStartResumedKeepsInv(s, a.task, a.ok);
      } else if pc.InDelete() {
        DeleteResumedKeepsInv(s, a.task, a.ok);
      } else if pc.InClaim() {
        ClaimResumedKeepsInv(s, a);
      } else if pc.InOperation() {
        OperationResumedKeepsInv(s, a.task, a.ok, a.flag);
      } else {
        StopResumedKeepsInv(s, a);
      }
    }
  }

  predicate CountsClaims(s: State, s': State) {
    || (s'.claimGeneration == s.claimGeneration && s'.claim == s.claim)
    || (s'.claimGeneration == s.claimGeneration + 1 && (s.claim.None? || s'.claim.None?))
  }

  lemma EnrollStoppedCountsClaims(s: State, t: TaskId, who: Stopper)
    requires t in s.tasks
    ensures CountsClaims(s, EnrollStopped(s, t, who)) && EnrollStopped(s, t, who).published == s.published
  {
  }

  lemma StopEnrollCountsClaims(s: State, t: TaskId, who: Stopper)
    requires t in s.tasks
    ensures CountsClaims(s, StopEnroll(s, t, who)) && StopEnroll(s, t, who).published == s.published
  {
    EnrollStoppedCountsClaims(s, t, who);
  }

  lemma StopVerifyCountsClaims(s: State, t: TaskId, who: Stopper)
    requires t in s.tasks
    ensures CountsClaims(s, VerifyStopped(s, t, who)) && VerifyStopped(s, t, who).published == s.published
    ensures CountsClaims(s, StopVerify(s, t, who)) && StopVerify(s, t, who).published == s.published
  {
    StopEnrollCountsClaims(s, t, who);
  }

  lemma StopFailedCountsClaims(s: State, t: TaskId, swallowed: bool)
    requires t in s.tasks && s.tasks[t].pc.InStop()
    ensures CountsClaims(s, StopFailed(s, t, swallowed)) && StopFailed(s, t, swallowed).published == s.published
  {
    var pc := s.tasks[t].pc;
    if pc.StoppingEnroll? {
      EnrollStoppedCountsClaims(EnrollFreed(s, pc.target), t, pc.who);
    }
  }

  lemma StopResumedCountsClaims(s: State, t: TaskId, ok: bool, swallowed: bool)
    requires t in s.tasks && s.tasks[t].pc.InStop()
    ensures CountsClaims(s, StopResumed(s, t, ok, swallowed))
    ensures StopResumed(s, t, ok, swallowed).published == s.published
  {
    if !ok {
      StopFailedCountsClaims(s, t, swallowed);
    } else {
      match s.tasks[t].pc
      case StopCheck(_, who) =>
        StopEnrollCountsClaims(s, t, who);
        StopVerifyCountsClaims(s, t, who);
      case StoppingVerify(x, who) =>
        StopVerifyCountsClaims(if s.verifyTask == Some(x) then s.(verifyTask := None) else s, t, who);
      case StoppingEnroll(x, who) => EnrollStoppedCountsClaims(EnrollFreed(s, x), t, who);
      case WaitingDelete(_, who) =>
    }
  }

  lemma ClaimResumedCountsClaims(s: State, t: TaskId, ok: bool, dead: bool)
    requires Inv(s) && t in s.tasks && s.tasks[t].pc.InClaim()
    ensures CountsClaims(s, ClaimResumed(s, t, ok, dead)) && ClaimResumed(s, t, ok, dead).published == s.published
  {
    if s.tasks[t].pc.ClaimWaiting? {
      StopVerifyCountsClaims(s.(claimLock := Some(t)), t, Reap);
    } else if s.tasks[t].pc.DepartedWaiting? {
      StopVerifyCountsClaims(s.(claimLock := Some(t)), t, Departed);
    }
  }

  lemma StartsKeepClaim(s: State, t: TaskId, ok: bool)
    requires t in s.tasks
    ensures s.tasks[t].pc.InVerifyStart() ==> SameClaim(s, VerifyStartResumed(s, t, ok))
    ensures s.tasks[t].pc.InEnrollStart() ==> SameClaim(s, EnrollStartResumed(s, t, ok))
    ensures s.tasks[t].pc.InDelete() ==> SameClaim(s, DeleteResumed(s, t, ok))
  {
  }

  predicate SameClaim(s: State, s': State) {
    s'.claim == s.claim && s'.claimGeneration == s.claimGeneration && s'.published == s.published
  }

  lemma OperationKeepsClaim(s: State, t: TaskId, ok: bool, matched: bool)
    requires t in s.tasks && s.tasks[t].pc.InOperation()
    ensures var s' := OperationResumed(s, t, ok, matched);
            && s'.claim == s.claim && s'.claimGeneration == s.claimGeneration
            && (s'.published != s.published ==>
                  && s.tasks[t].pc.PublishCheck? && s.ClaimedBy(s.tasks[t].sender)
                  && s'.published == s.published + [Publication(t, s.tasks[t].sender, s.claim)])
  {
  }

  lemma TimersCountClaims(s: State, a: Action)
    requires Enabled(s, a) && !a.Resume?
    ensures CountsClaims(s, Apply(s, a)) && Apply(s, a).published == s.published
  {
  }

  /** Every claim and every clear bumps the generation by one, and nothing else does. */
  lemma StepCountsClaims(s: State, a: Action)
    requires Inv(s) && Enabled(s, a)
    ensures CountsClaims(s, Apply(s, a))
  {
    if !a.Resume? {
      TimersCountClaims(s, a);
    } else {
      var t, pc := a.task, s.tasks[a.task].pc;
      if pc.InStop() {
        StopResumedCountsClaims(s, t, a.ok, a.flag);
      } else if pc.InClaim() {
        ClaimResumedCountsClaims(s, t, a.ok, a.flag);
      } else if pc.InOperation() {
        OperationKeepsClaim(s, t, a.ok, a.flag);
      } else {
        StartsKeepClaim(s, t, a.ok);
      }
    }
  }

  /** A match leaves the device only to the claimant who started it, and alone. */
  lemma PublishStep(s: State, a: Action)
    requires Inv(s) && Enabled(s, a) && Apply(s, a).published != s.published
    ensures a.Resume? && a.task in s.tasks
    ensures Apply(s, a).published == s.published + [Publication(a.task, s.tasks[a.task].sender, s.claim)]
    ensures s.ClaimedBy(s.tasks[a.task].sender)
    ensures s.verifyTask == Some(a.task) && s.enrollTask.None? && s.deleteTask.None?
  {
    if !a.Resume? {
      TimersCountClaims(s, a);
    } else {
      var t, pc := a.task, s.tasks[a.task].pc;
      if pc.InStop() {
        StopResumedCountsClaims(s, t, a.ok, a.flag);
      } else if pc.InClaim() {
        ClaimResumedCountsClaims(s, t, a.ok, a.flag);
      } else if pc.InOperation() {
        OperationKeepsClaim(s, t, a.ok, a.flag);
      } else {
        StartsKeepClaim(s, t, a.ok);
      }
    }
  }

  lemma NextKeepsInv(s: State, s': State)
    requires Inv(s) && Next(s, s')
    ensures Inv(s')
  {
    var a :| Enabled(s, a) && s' == Apply(s, a);
    StepKeepsInv(s, a);
  }

  lemma {:induction false} RunKeepsInv(run: seq<State>, i: nat)
    requires IsRun(run) && i < |run|
    ensures Inv(run[i])
  {
    if i > 0 {
      RunKeepsInv(run, i - 1);
      assert StepAt(run, i - 1);
      NextKeepsInv(run[i - 1], run[i]);
    }
  }

  /**
   * In every reachable state at most one of the three slots is set, and at most
   * one verification, deletion or enrollment is really running: a running
   * operation always still holds its slot.
   */
  lemma OperationsAreExclusive(run: seq<State>, i: nat)
    requires IsRun(run) && i < |run|
    ensures AtMostOneSlot(run[i])
    ensures forall t, u | t in run[i].tasks && u in run[i].tasks ::
              run[i].tasks[t].pc.Operates() && run[i].tasks[u].pc.Operates() ==> t == u
    ensures forall t | t in run[i].tasks && run[i].tasks[t].pc.Operates() ::
              run[i].verifyTask == Some(t) || run[i].enrollTask == Some(t) || run[i].deleteTask == Some(t)
  {
    RunKeepsInv(run, i);
    assert forall t :: t in run[i].tasks ==> TaskOk(run[i], t, run[i].tasks[t]);
  }

  lemma NextCountsClaims(s: State, s': State)
    requires Inv(s) && Next(s, s')
    ensures CountsClaims(s, s')
  {
    var a :| Enabled(s, a) && s' == Apply(s, a);
    StepCountsClaims(s, a);
  }

  lemma RunCountsClaims(run: seq<State>, i: nat)
    requires IsRun(run) && i + 1 < |run|
    ensures CountsClaims(run[i], run[i + 1])
  {
    RunKeepsInv(run, i);
    assert StepAt(run, i);
    NextCountsClaims(run[i], run[i + 1]);
  }

  lemma {:induction false} GenerationOnlyGrows(run: seq<State>, i: nat, j: nat)
    requires IsRun(run) && i <= j < |run|
    ensures run[i].claimGeneration <= run[j].claimGeneration
    ensures run[i].claimGeneration == run[j].claimGeneration ==> run[i].claim == run[j].claim
  {
    if i < j {
      GenerationOnlyGrows(run, i, j - 1);
      RunCountsClaims(run, j - 1);
    }
  }

  /**
   * _require_claim_owner returns only if no claim or clear happened across its
   * await: when the generation captured at i is still current at j, the claim
   * was the same, and the checking sender's, in every state between.
   */
  lemma OwnerCheckSpansOneClaim(run: seq<State>, i: nat, k: nat, j: nat, t: TaskId)
    requires IsRun(run) && i <= k <= j < |run|
    requires t in run[i].tasks && t in run[j].tasks
    requires run[i].tasks[t].pc.ChecksOwner() && run[i].tasks[t].pc.gen == run[i].claimGeneration
    requires run[j].tasks[t] == run[i].tasks[t]
    requires OwnerStillCurrent(run[j], t, run[j].tasks[t].pc.gen, true)
    ensures run[k].claimGeneration == run[i].claimGeneration
    ensures run[k].claim == run[i].claim && run[k].ClaimedBy(run[i].tasks[t].sender)
  {
    GenerationOnlyGrows(run, i, k);
    GenerationOnlyGrows(run, k, j);
  }

  // ------------------------------------------------- the fields, in place

  /** The device object: the atomic sections of its methods update the fields in place. */
  class FprintDevice {
    var claim: Option<Claim>
    var claimGeneration: nat
    var claimLock: Option<TaskId>
    var verifyTask: Option<TaskId>
    var enrollTask: Option<TaskId>
    var deleteTask: Option<TaskId>
    var tasks: map<TaskId, Task>
    var nextTask: TaskId
    var published: seq<Publication>

    ghost function View(): State
      reads this
    {
      State(claim, claimGeneration, claimLock, verifyTask, enrollTask, deleteTask, tasks, nextTask, published)
    }

    constructor ()
      ensures View() == INIT
    {
      claim, claimGeneration, claimLock := None, 0, None;
      verifyTask, enrollTask, deleteTask := None, None, None;
      tasks, nextTask, published := map[], 0, [];
    }

    method ClearDeviceClaim()
      modifies this`claim, this`claimGeneration
      ensures View() == ClearClaim(old(View()))
    {
      claim := None;
      claimGeneration := claimGeneration + 1;
    }

    method EndTask(t: TaskId)
      modifies this`tasks
      ensures View() == Finish(old(View()), t)
    {
      tasks := tasks - {t};
    }

    method Await(t: TaskId, pc: Pc)
      requires t in tasks
      modifies this`tasks
      ensures View() == Goto(old(View()), t, pc)
    {
      tasks := tasks[t := tasks[t].(pc := pc)];
    }

    /** The end of Release, departure and reaping. */
    method ReleaseClaim(t: TaskId, who: Stopper)
      requires t in tasks
      modifies this
      ensures View() == ClaimReleased(old(View()), t, who)
    {
      ClearDeviceClaim();
      if who.Reap? {
        Await(t, ClaimCollecting);
      } else {
        if who.Departed? { claimLock := None; }
        EndTask(t);
      }
    }

    /** _wait_deletion, and what follows it. */
    method WaitDeletion(t: TaskId, who: Stopper)
      requires t in tasks
      modifies this
      ensures View() == EnrollStopped(old(View()), t, who)
    {
      if who.EnrollStop? {
        EndTask(t);
      } else if deleteTask.Some? {
        Await(t, WaitingDelete(deleteTask.value, who));
      } else {
        ReleaseClaim(t, who);
      }
    }

    /** _stop_enrollment, and what follows it. */
    method StopEnrollment(t: TaskId, who: Stopper)
      requires t in tasks
      modifies this
      ensures View() == StopEnroll(old(View()), t, who)
    {
      if enrollTask.Some? {
        Await(t, StoppingEnroll(enrollTask.value, who));
      } else {
        WaitDeletion(t, who);
      }
    }

    method AfterVerification(t: TaskId, who: Stopper)
      requires t in tasks
      modifies this
      ensures View() == VerifyStopped(old(View()), t, who)
    {
      if who.VerifyStop? {
        EndTask(t);
      } else {
        StopEnrollment(t, who);
      }
    }

    /** _stop_verification, and what follows it. */
    method StopVerification(t: TaskId, who: Stopper)
      requires t in tasks
      modifies this
      ensures View() == StopVerify(old(View()), t, who)
    {
      if verifyTask.Some? {
        Await(t, StoppingVerify(verifyTask.value, who));
      } else {
        AfterVerification(t, who);
      }
    }

    /** VerifyStop, EnrollStop, Release, departure or reaping, from one await to the next. */
    method StopSection(t: TaskId, ok: bool, swallowed: bool)
      requires t in tasks
      requires tasks[t].pc.InStop()
      modifies this
      ensures View() == StopResumed(old(View()), t, ok, swallowed)
    {
      var me := tasks[t];
      if me.pc.StoppingEnroll? && enrollTask == Some(me.pc.target) && me.pc.target !in tasks {
        enrollTask := None;
      }
      if !ok && !(me.pc.StoppingEnroll? && swallowed && Persistent(me.pc.who)) {
        if me.pc.HoldsClaimLock() { claimLock := None; }
        EndTask(t);
        return;
      }
      match me.pc {
        case StopCheck(gen, who) =>
          var owned := claimGeneration == gen && claim.Some? && claim.value.sender == me.sender;
          if !owned || (who.VerifyStop? && verifyTask.None?) || (who.EnrollStop? && enrollTask.None?) {
            EndTask(t);
          } else if who.EnrollStop? {
            StopEnrollment(t, who);
          } else {
            StopVerification(t, who);
          }
        case StoppingVerify(target, who) =>
          if verifyTask == Some(target) { verifyTask := None; }
          AfterVerification(t, who);
        case StoppingEnroll(_, who) => WaitDeletion(t, who);
        case WaitingDelete(_, who) => ReleaseClaim(t, who);
      }
    }

    /** Claim and sender_departed, from one await to the next. */
    method ClaimSection(t: TaskId, ok: bool, dead: bool)
      requires t in tasks
      requires tasks[t].pc.InClaim()
      modifies this
      ensures View() == ClaimResumed(old(View()), t, ok, dead)
    {
      var me := tasks[t];
      match me.pc {
        case ClaimWaiting =>
          if !ok || (claim.Some? && !dead) {
            EndTask(t);
          } else {
            claimLock := Some(t);
            if claim.Some? { StopVerification(t, Reap); } else { Await(t, ClaimCollecting); }
          }
        case ClaimCollecting =>
          claimLock := None;
          if ok {
            claim := Some(Claim(me.sender, t));
            claimGeneration := claimGeneration + 1;
          }
          EndTask(t);
        case DepartedWaiting =>
          if ok && claim.Some? && claim.value.sender == me.sender {
            claimLock := Some(t);
            StopVerification(t, Departed);
          } else {
            EndTask(t);
          }
      }
    }

    /** DeleteEnrolledFinger, from one await to the next. */
    method DeleteSection(t: TaskId, ok: bool)
      requires t in tasks
      requires tasks[t].pc.InDelete()
      modifies this
      ensures View() == DeleteResumed(old(View()), t, ok)
    {
      var me := tasks[t];
      var owned := ok && claim.Some? && claim.value.sender == me.sender;
      var idle := verifyTask.None? && enrollTask.None?;
      match me.pc {
        case DeleteFirstCheck(gen) =>
          if owned && claimGeneration == gen && idle && deleteTask.None? {
            deleteTask := Some(t);
            Await(t, DeleteProjecting);
            return;
          }
        case DeleteProjecting =>
          if owned {
            Await(t, DeleteSecondCheck(claimGeneration));
            return;
          }
        case DeleteSecondCheck(gen) =>
          if owned && claimGeneration == gen && idle && deleteTask == Some(t) {
            Await(t, Deleting);
            return;
          }
        case Deleting =>
      }
      if !me.pc.DeleteFirstCheck? && deleteTask == Some(t) { deleteTask := None; }
      EndTask(t);
    }

    method VerifyStartSection(t: TaskId, ok: bool)
      requires t in tasks
      requires tasks[t].pc.InVerifyStart()
      modifies this
      ensures View() == VerifyStartResumed(old(View()), t, ok)
    {
      var me := tasks[t];
      var owned := ok && claim.Some? && claim.value.sender == me.sender;
      var next: Option<Pc> := None;
      match me.pc {
        case VerifyFirstCheck(gen) =>
          if owned && claimGeneration == gen && verifyTask.None? && enrollTask.None? && deleteTask.None? {
            verifyTask := Some(t);
            next := Some(VerifyProjecting);
          }
        case VerifyProjecting =>
          if owned {
            next := Some(VerifySecondCheck(claimGeneration));
          } else if verifyTask == Some(t) {
            verifyTask := None;
          }
        case VerifySecondCheck(gen) =>
          if owned && claimGeneration == gen && verifyTask == Some(t) && deleteTask.None? && enrollTask.None? {
            verifyTask := Some(nextTask);
            tasks := tasks[nextTask := Task(me.sender, Verifying)];
            nextTask := nextTask + 1;
          } else if verifyTask == Some(t) {
            verifyTask := None;
          }
      }
      tasks := if next.Some? then tasks[t := Task(me.sender, next.value)] else tasks - {t};
    }

    method EnrollStartSection(t: TaskId, ok: bool)
      requires t in tasks
      requires tasks[t].pc.InEnrollStart()
      modifies this
      ensures View() == EnrollStartResumed(old(View()), t, ok)
    {
      var me := tasks[t];
      var owned := ok && claim.Some? && claim.value.sender == me.sender;
      var idle := verifyTask.None? && enrollTask.None? && deleteTask.None?;
      var next: Option<Pc> := None;
      match me.pc {
        case EnrollFirstCheck(gen) =>
          if owned && claimGeneration == gen && idle { next := Some(EnrollProjecting); }
        case EnrollProjecting =>
          if owned { next := Some(EnrollSecondCheck(claimGeneration)); }
        case EnrollSecondCheck(gen) =>
          if owned && claimGeneration == gen && idle {
            enrollTask := Some(nextTask);
            tasks := tasks[nextTask := Task(me.sender, Enrolling)];
            nextTask := nextTask + 1;
          }
      }
      tasks := if next.Some? then tasks[t := Task(me.sender, next.value)] else tasks - {t};
    }

    method OperationSection(t: TaskId, ok: bool, matched: bool)
      requires t in tasks
      requires tasks[t].pc.InOperation()
      modifies this`tasks, this`published
      ensures View() == OperationResumed(old(View()), t, ok, matched)
    {
      var me := tasks[t];
      var owned := ok && claim.Some? && claim.value.sender == me.sender;
      match me.pc {
        case Verifying =>
          if owned {
            tasks := tasks[t := Task(me.sender, PublishCheck(claimGeneration, matched))];
            return;
          }
        case PublishCheck(gen, didMatch) =>
          if owned && claimGeneration == gen && didMatch {
            published := published + [Publication(t, me.sender, claim)];
          }
        case Enrolling =>
      }
      tasks := tasks - {t};
    }
  }
}
