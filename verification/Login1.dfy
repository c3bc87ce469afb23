/**
 * Binding the daemon's sleep state to one authenticated login1 owner.
 *
 * The state holds the `nonlocal` variables of main_async, the reconciliation
 * coroutines, and the bus: a FIFO of messages not yet handled, the current
 * holder of org.freedesktop.login1, and who is really preparing for sleep.
 * A reply is delivered first and its coroutine resumes later, so other
 * messages can be handled in between.  The daemon's match rule names the
 * well-known name, so the bus forwards sleep signals of the holder only.
 */
module Login1 {
  import opened Wrappers

  type Name = string
  type TaskId = nat

  datatype Message =
    | OwnerChanged(newOwner: Option<Name>)
    | OwnerReply(task: TaskId, owner: Option<Name>)
    | PropertyReply(task: TaskId, source: Name, preparing: Option<bool>)
    | SleepSignal(sender: Name, sleeping: bool)

  /** Where a reconcile_login1 coroutine is suspended. */
  datatype Pc =
    | Waiting
    | OwnerAsked(gen: nat)
    | OwnerAnswered(gen: nat, reply: Option<Name>)
    | PropertyAsked(gen: nat, asked: Name, signals: nat, hadPending: bool)
    | PropertyAnswered(gen: nat, asked: Name, signals: nat, hadPending: bool, value: Option<bool>)

  datatype State = State(
    owner: Option<Name>,
    ownerGeneration: nat,
    signalGeneration: nat,
    pending: Option<(Name, bool)>,
    sleeping: bool,
    evidence: Option<Name>,
    lock: Option<TaskId>,
    tasks: map<TaskId, Pc>,
    nextTask: TaskId,
    // the bus
    queue: seq<Message>,
    seen: Option<Name>,
    holder: Option<Name>,
    preparing: set<Name>)

  /** Subscribed, asleep, the name held by anyone or nobody, one reconciliation scheduled. */
  ghost predicate Initial(s: State) {
    && s.owner.None? && s.ownerGeneration == 0 && s.signalGeneration == 0 && s.pending.None?
    && s.sleeping && s.evidence.None? && s.lock.None?
    && s.tasks == map[0 := Waiting] && s.nextTask == 1
    && s.queue == [] && s.seen == s.holder
  }

  // ---------------------------------------------------------------- steps

  /** apply_sleep_state; `by` is the login1 connection that vouches for it, if any. */
  function ApplySleep(s: State, asleep: bool, voucher: Option<Name>): State {
    s.(signalGeneration := s.signalGeneration + 1, sleeping := asleep, evidence := voucher)
  }

  function Goto(s: State, t: TaskId, pc: Pc): State {
    s.(tasks := s.tasks[t := pc])
  }

  function Leave(s: State, t: TaskId): State {
    s.(tasks := s.tasks - {t}, lock := None)
  }

  /** sender_departure_handler for org.freedesktop.login1. */
  function OwnerChangeHandled(s: State, newOwner: Option<Name>): State {
    var kept := if s.pending.Some? && Some(s.pending.value.0) != newOwner then None else s.pending;
    var m := ApplySleep(
               s.(ownerGeneration := s.ownerGeneration + 1, owner := newOwner, pending := kept, seen := newOwner),
               true, None);
    if newOwner.None? then m else Goto(m.(nextTask := m.nextTask + 1), m.nextTask, Waiting)
  }

  /** system_sleep_handler. */
  function SignalHandled(s: State, sender: Name, asleep: bool): State {
    if s.owner.None? then s.(pending := Some((sender, asleep)))
    else if s.owner == Some(sender) then ApplySleep(s, asleep, Some(sender))
    else s
  }

  function Handled(s: State, m: Message): State {
    match m
    case OwnerChanged(newOwner) => OwnerChangeHandled(s, newOwner)
    case SleepSignal(sender, asleep) => SignalHandled(s, sender, asleep)
    case OwnerReply(t, reply) =>
      if t in s.tasks && s.tasks[t].OwnerAsked? then Goto(s, t, OwnerAnswered(s.tasks[t].gen, reply)) else s
    case PropertyReply(t, source, value) =>
      if t in s.tasks && s.tasks[t].PropertyAsked? && s.tasks[t].asked == source then
        var pc := s.tasks[t];
        Goto(s, t, PropertyAnswered(pc.gen, pc.asked, pc.signals, pc.hadPending, value))
      else s
  }

  /** The GetNameOwner reply: record the owner, use a signal that raced it, ask for the state. */
  function OwnerResumed(s: State, t: TaskId, gen: nat, reply: Option<Name>): State {
    if gen != s.ownerGeneration then Goto(s, t, OwnerAsked(s.ownerGeneration))
    else if reply.None? then Leave(s, t)
    else
      var m := s.(owner := reply);
      var raced := s.pending.Some? && Some(s.pending.value.0) == reply;
      var applied := if raced then ApplySleep(m.(pending := None), s.pending.value.1, reply) else m;
      Goto(applied, t, PropertyAsked(gen, reply.value, applied.signalGeneration, raced))
  }

  /** The PreparingForSleep reply: used only if nothing newer was applied meanwhile. */
  function PropertyResumed(s: State, t: TaskId, pc: Pc): State
    requires pc.PropertyAnswered?
  {
    if pc.gen != s.ownerGeneration || s.owner != Some(pc.asked) then Goto(s, t, OwnerAsked(s.ownerGeneration))
    else if pc.value.None? then Leave(s, t)
    else if !pc.hadPending && pc.signals == s.signalGeneration then
      Leave(ApplySleep(s, pc.value.value, Some(pc.asked)), t)
    else Leave(s, t)
  }

  datatype Action =
    | HolderChanges(newHolder: Option<Name>)
    | Toggles(name: Name, asleep: bool)
    | AnswerOwner(task: TaskId, fail: bool)
    | AnswerProperty(task: TaskId, fail: bool)
    | Deliver
    | Resume(task: TaskId)
    | Fails(task: TaskId)

  predicate Answers(m: Message, t: TaskId) {
    (m.OwnerReply? || m.PropertyReply?) && m.task == t
  }

  predicate Enabled(s: State, a: Action) {
    match a
    case HolderChanges(n) => n != s.holder
    case Toggles(_, _) => true
    case AnswerOwner(t, _) =>
      t in s.tasks && s.tasks[t].OwnerAsked? && forall m :: m in s.queue ==> !Answers(m, t)
    case AnswerProperty(t, _) =>
      t in s.tasks && s.tasks[t].PropertyAsked? && forall m :: m in s.queue ==> !Answers(m, t)
    case Deliver => s.queue != []
    case Resume(t) =>
      && t in s.tasks
      && (s.tasks[t].Waiting? || s.tasks[t].OwnerAnswered? || s.tasks[t].PropertyAnswered?)
      && (s.tasks[t].Waiting? ==> s.lock.None?)
    case Fails(t) => t in s.tasks
  }

  function Apply(s: State, a: Action): State
    requires Enabled(s, a)
  {
    match a
    case HolderChanges(n) => s.(holder := n, queue := s.queue + [OwnerChanged(n)])
    case Toggles(n, asleep) =>
      var m := s.(preparing := if asleep then s.preparing + {n} else s.preparing - {n});
      if s.holder == Some(n) then m.(queue := s.queue + [SleepSignal(n, asleep)]) else m
    case AnswerOwner(t, fail) => s.(queue := s.queue + [OwnerReply(t, if fail then None else s.holder)])
    case AnswerProperty(t, fail) =>
      var o := s.tasks[t].asked;
      s.(queue := s.queue + [PropertyReply(t, o, if fail then None else Some(o in s.preparing))])
    case Deliver => Handled(s.(queue := s.queue[1..]), s.queue[0])
    case Resume(t) =>
      (match s.tasks[t]
       case Waiting => Goto(s.(lock := Some(t)), t, OwnerAsked(s.ownerGeneration))
       case OwnerAnswered(gen, reply) => OwnerResumed(s, t, gen, reply)
       case PropertyAnswered(_, _, _, _, _) => PropertyResumed(s, t, s.tasks[t])
       case _ => s)
    case Fails(t) => if s.lock == Some(t) then Leave(s, t) else s.(tasks := s.tasks - {t})
  }

  ghost predicate Next(s: State, s': State) {
    exists a :: Enabled(s, a) && s' == Apply(s, a)
  }

  ghost predicate IsRun(run: seq<State>) {
    && |run| > 0
    && Initial(run[0])
    && forall i :: 0 <= i < |run| - 1 ==> StepAt(run, i)
  }

  ghost predicate StepAt(run: seq<State>, i: int)
    requires 0 <= i < |run| - 1
  {
    Next(run[i], run[i + 1])
  }

  // ------------------------------------------- what the queue still carries

  predicate NoOwnerChange(q: seq<Message>) {
    forall m :: m in q ==> !m.OwnerChanged?
  }

  /** What x's sleep state will be known as once q is handled, starting from v. */
  function PreparingAfter(v: bool, x: Name, q: seq<Message>): bool
    decreases q
  {
    if q == [] then v
    else PreparingAfter(if q[0].SleepSignal? && q[0].sender == x then q[0].sleeping else v, x, q[1..])
  }

  /** v is x's real state, up to x's signals still in q, unless q also replaces the owner. */
  predicate Tracks(x: Name, v: bool, q: seq<Message>, preparing: set<Name>) {
    NoOwnerChange(q) ==> PreparingAfter(v, x, q) == (x in preparing)
  }

  predicate HeadOk(seen: Option<Name>, m: Message, rest: seq<Message>, preparing: set<Name>) {
    match m
    case OwnerChanged(n) => n != seen
    case OwnerReply(_, reply) => reply.Some? ==> reply == seen
    case SleepSignal(x, v) => seen == Some(x) && Tracks(x, v, rest, preparing)
    case PropertyReply(_, x, value) => value.Some? && seen == Some(x) ==> Tracks(x, value.value, rest, preparing)
  }

  function SeenAfter(seen: Option<Name>, m: Message): Option<Name> {
    if m.OwnerChanged? then m.newOwner else seen
  }

  /** Every queued message tells the truth about the moment it will be handled. */
  predicate QueueOk(seen: Option<Name>, q: seq<Message>, holder: Option<Name>, preparing: set<Name>)
    decreases q
  {
    if q == [] then seen == holder
    else HeadOk(seen, q[0], q[1..], preparing) && QueueOk(SeenAfter(seen, q[0]), q[1..], holder, preparing)
  }

  lemma {:induction false} PreparingAfterAppend(v: bool, x: Name, q: seq<Message>, m: Message)
    ensures PreparingAfter(v, x, q + [m]) ==
            if m.SleepSignal? && m.sender == x then m.sleeping else PreparingAfter(v, x, q)
    decreases q
  {
    if q == [] {
      assert [m][1..] == [];
    } else {
      assert (q + [m])[1..] == q[1..] + [m];
      PreparingAfterAppend(if q[0].SleepSignal? && q[0].sender == x then q[0].sleeping else v, x, q[1..], m);
    }
  }

  lemma {:induction false} QuietQueueKeepsHolder(seen: Option<Name>, q: seq<Message>, holder: Option<Name>,
                                                 preparing: set<Name>)
    requires QueueOk(seen, q, holder, preparing) && NoOwnerChange(q)
    ensures seen == holder
  {
    if q != [] { QuietQueueKeepsHolder(seen, q[1..], holder, preparing); }
  }

  /** Appending a truthful message leaves every tracked value tracked. */
  lemma AppendKeepsTracks(x: Name, v: bool, q: seq<Message>, m: Message, was: set<Name>, now: set<Name>)
    requires Tracks(x, v, q, was)
    requires !m.OwnerChanged? && m.SleepSignal? && m.sender == x ==> (x in now) == m.sleeping
    requires !(m.SleepSignal? && m.sender == x) ==> (x in now) == (x in was)
    ensures Tracks(x, v, q + [m], now)
  {
    PreparingAfterAppend(v, x, q, m);
    if NoOwnerChange(q + [m]) {
      assert forall k :: k in q ==> k in q + [m];
    }
  }

  lemma {:induction false} AppendKeepsQueueOk(
    seen: Option<Name>, q: seq<Message>, holder: Option<Name>, was: set<Name>,
    m: Message, holder': Option<Name>, now: set<Name>)
    requires QueueOk(seen, q, holder, was)
    requires HeadOk(holder, m, [], now)
    requires holder' == SeenAfter(holder, m)
    requires m.SleepSignal? ==> forall x :: x != m.sender ==> (x in now <==> x in was)
    requires !m.SleepSignal? ==> now == was
    ensures QueueOk(seen, q + [m], holder', now)
    decreases q
  {
    if q == [] {
      assert [m][1..] == [];
    } else {
      assert (q + [m])[1..] == q[1..] + [m];
      AppendKeepsQueueOk(SeenAfter(seen, q[0]), q[1..], holder, was, m, holder', now);
      if q[0].SleepSignal? {
        AppendKeepsTracks(q[0].sender, q[0].sleeping, q[1..], m, was, now);
      } else if q[0].PropertyReply? && q[0].preparing.Some? && seen == Some(q[0].source) {
        AppendKeepsTracks(q[0].source, q[0].preparing.value, q[1..], m, was, now);
      }
    }
  }

  /** A connection that does not hold the name can change its state unheard. */
  lemma {:induction false} UnheardKeepsQueueOk(
    seen: Option<Name>, q: seq<Message>, holder: Option<Name>, was: set<Name>, n: Name, now: set<Name>)
    requires QueueOk(seen, q, holder, was) && holder != Some(n)
    requires forall x :: x != n ==> (x in now <==> x in was)
    ensures QueueOk(seen, q, holder, now)
    decreases q
  {
    if q != [] {
      UnheardKeepsQueueOk(SeenAfter(seen, q[0]), q[1..], holder, was, n, now);
      if NoOwnerChange(q[1..]) && !q[0].OwnerChanged? {
        QuietQueueKeepsHolder(seen, q[1..], holder, was);
      }
    }
  }

  // ------------------------------------------------------------ invariant

  predicate PcOk(s: State, t: TaskId, pc: Pc) {
    && (!pc.Waiting? ==> s.lock == Some(t) && pc.gen <= s.ownerGeneration)
    && (pc.OwnerAnswered? && pc.reply.Some? && pc.gen == s.ownerGeneration ==> s.seen == pc.reply)
    && (pc.PropertyAsked? || pc.PropertyAnswered? ==>
          pc.signals <= s.signalGeneration && (pc.gen == s.ownerGeneration ==> s.owner == Some(pc.asked)))
    && (pc.PropertyAnswered? && pc.value.Some? && pc.gen == s.ownerGeneration && pc.signals == s.signalGeneration ==>
          Tracks(pc.asked, pc.value.value, s.queue, s.preparing))
  }

  ghost predicate Inv(s: State) {
    && QueueOk(s.seen, s.queue, s.holder, s.preparing)
    && (forall t :: t in s.tasks ==> t < s.nextTask && PcOk(s, t, s.tasks[t]))
    && (s.owner.Some? ==> s.owner == s.seen)
    && (s.pending.Some? ==> s.owner.None? && s.seen == Some(s.pending.value.0)
                            && Tracks(s.pending.value.0, s.pending.value.1, s.queue, s.preparing))
    && (!s.sleeping ==> s.evidence.Some?)
    && (s.evidence.Some? ==> s.evidence == s.owner && Tracks(s.owner.value, s.sleeping, s.queue, s.preparing))
  }

  // ---------------------------------------------------------------- proof

  /** The bus side of a step: one more message, told truthfully. */
  lemma EnqueueKeepsInv(s: State, m: Message, holder': Option<Name>, now: set<Name>)
    requires Inv(s)
    requires HeadOk(s.holder, m, [], now) && holder' == SeenAfter(s.holder, m)
    requires m.SleepSignal? ==> forall x :: x != m.sender ==> (x in now <==> x in s.preparing)
    requires m.SleepSignal? ==> (m.sender in now) == m.sleeping
    requires !m.SleepSignal? ==> now == s.preparing
    ensures Inv(s.(queue := s.queue + [m], holder := holder', preparing := now))
  {
    var s' := s.(queue := s.queue + [m], holder := holder', preparing := now);
    AppendKeepsQueueOk(s.seen, s.queue, s.holder, s.preparing, m, holder', now);
    forall t | t in s.tasks
      ensures PcOk(s', t, s.tasks[t])
    {
      var pc := s.tasks[t];
      if pc.PropertyAnswered? && pc.value.Some? && Tracks(pc.asked, pc.value.value, s.queue, s.preparing) {
        AppendKeepsTracks(pc.asked, pc.value.value, s.queue, m, s.preparing, now);
      }
    }
    if s.pending.Some? {
      AppendKeepsTracks(s.pending.value.0, s.pending.value.1, s.queue, m, s.preparing, now);
    }
    if s.evidence.Some? {
      AppendKeepsTracks(s.owner.value, s.sleeping, s.queue, m, s.preparing, now);
    }
  }

  lemma UnheardKeepsInv(s: State, n: Name, now: set<Name>)
    requires Inv(s) && s.holder != Some(n)
    requires forall x :: x != n ==> (x in now <==> x in s.preparing)
    ensures Inv(s.(preparing := now))
  {
    UnheardKeepsQueueOk(s.seen, s.queue, s.holder, s.preparing, n, now);
    if NoOwnerChange(s.queue) {
      QuietQueueKeepsHolder(s.seen, s.queue, s.holder, s.preparing);
    }
  }

  lemma DeliverKeepsInv(s: State)
    requires Inv(s) && s.queue != []
    ensures Inv(Handled(s.(queue := s.queue[1..]), s.queue[0]))
  {
    match s.queue[0]
    case OwnerChanged(n) => OwnerChangeKeepsInv(s, n);
    case SleepSignal(x, v) => SignalKeepsInv(s, x, v);
    case OwnerReply(_, _) => ReplyKeepsInv(s);
    case PropertyReply(_, _, _) => ReplyKeepsInv(s);
  }

  /** Handling anything but an owner change cannot hide one. */
  lemma PoppedTracks(x: Name, v: bool, q: seq<Message>, preparing: set<Name>)
    requires q != [] && !q[0].OwnerChanged? && !(q[0].SleepSignal? && q[0].sender == x)
    requires Tracks(x, v, q, preparing)
    ensures Tracks(x, v, q[1..], preparing)
  {
    assert q == [q[0]] + q[1..];
  }

  lemma ReplyKeepsInv(s: State)
    requires Inv(s) && s.queue != [] && (s.queue[0].OwnerReply? || s.queue[0].PropertyReply?)
    ensures Inv(Handled(s.(queue := s.queue[1..]), s.queue[0]))
  {
    var popped := s.(queue := s.queue[1..]);
    forall t | t in s.tasks
      ensures PcOk(popped, t, s.tasks[t])
    {
      var pc := s.tasks[t];
      if pc.PropertyAnswered? && pc.value.Some? && Tracks(pc.asked, pc.value.value, s.queue, s.preparing) {
        PoppedTracks(pc.asked, pc.value.value, s.queue, s.preparing);
      }
    }
    if s.pending.Some? { PoppedTracks(s.pending.value.0, s.pending.value.1, s.queue, s.preparing); }
    if s.evidence.Some? { PoppedTracks(s.owner.value, s.sleeping, s.queue, s.preparing); }
    assert Inv(popped);
  }

  lemma OwnerChangeKeepsInv(s: State, n: Option<Name>)
    requires Inv(s) && s.queue != [] && s.queue[0] == OwnerChanged(n)
    ensures Inv(OwnerChangeHandled(s.(queue := s.queue[1..]), n))
  {
  }

  lemma SignalKeepsInv(s: State, x: Name, v: bool)
    requires Inv(s) && s.queue != [] && s.queue[0] == SleepSignal(x, v)
    ensures Inv(SignalHandled(s.(queue := s.queue[1..]), x, v))
  {
  }

  lemma OwnerResumedKeepsInv(s: State, t: TaskId)
    requires Inv(s) && t in s.tasks && s.tasks[t].OwnerAnswered?
    ensures Inv(OwnerResumed(s, t, s.tasks[t].gen, s.tasks[t].reply))
  {
  }

  lemma PropertyResumedKeepsInv(s: State, t: TaskId)
    requires Inv(s) && t in s.tasks && s.tasks[t].PropertyAnswered?
    ensures Inv(PropertyResumed(s, t, s.tasks[t]))
  {
  }

  lemma ToggleKeepsInv(s: State, n: Name, asleep: bool)
    requires Inv(s)
    ensures Inv(Apply(s, Toggles(n, asleep)))
  {
    var now := if asleep then s.preparing + {n} else s.preparing - {n};
    if s.holder == Some(n) {
      EnqueueKeepsInv(s, SleepSignal(n, asleep), s.holder, now);
    } else {
      UnheardKeepsInv(s, n, now);
    }
  }

  /** What the bus does: the name moves, the holder signals, queries are answered, a message arrives. */
  lemma BusKeepsInv(s: State, a: Action)
    requires Inv(s) && Enabled(s, a) && !a.Resume? && !a.Fails?
    ensures Inv(Apply(s, a))
  {
    match a
    case HolderChanges(n) => EnqueueKeepsInv(s, OwnerChanged(n), n, s.preparing);
    case Toggles(n, asleep) => ToggleKeepsInv(s, n, asleep);
    case AnswerOwner(t, fail) =>
      EnqueueKeepsInv(s, OwnerReply(t, if fail then None else s.holder), s.holder, s.preparing);
    case AnswerProperty(t, fail) =>
      var o := s.tasks[t].asked;
      EnqueueKeepsInv(s, PropertyReply(t, o, if fail then None else Some(o in s.preparing)), s.holder, s.preparing);
    case Deliver => DeliverKeepsInv(s);
  }

  lemma CoroutineKeepsInv(s: State, a: Action)
    requires Inv(s) && Enabled(s, a) && (a.Resume? || a.Fails?)
    ensures Inv(Apply(s, a))
  {
    if a.Resume? {
      match s.tasks[a.task]
      case OwnerAnswered(_, _) => OwnerResumedKeepsInv(s, a.task);
      case PropertyAnswered(_, _, _, _, _) => PropertyResumedKeepsInv(s, a.task);
      case _ =>
    }
  }

  lemma StepKeepsInv(s: State, a: Action)
    requires Inv(s) && Enabled(s, a)
    ensures Inv(Apply(s, a))
  {
    if a.Resume? || a.Fails? {
      CoroutineKeepsInv(s, a);
    } else {
      BusKeepsInv(s, a);
    }
  }

  lemma NextKeepsInv(s: State, s': State)
    requires Inv(s) && Next(s, s')
    ensures Inv(s')
  {
    var a :| Enabled(s, a) && s' == Apply(s, a);
    StepKeepsInv(s, a);
  }

  lemma {:induction false} RunKeepsInv(run: seq<State>, i: nat)
    requires IsRun(run) && i < |run|
    ensures Inv(run[i])
  {
    if i > 0 {
      RunKeepsInv(run, i - 1);
      assert StepAt(run, i - 1);
      NextKeepsInv(run[i - 1], run[i]);
    }
  }

  /** The backend is awake only on the word of the login1 owner on record. */
  lemma AwakeOnOwnersWord(run: seq<State>, i: nat)
    requires IsRun(run) && i < |run| && !run[i].sleeping
    ensures run[i].owner.Some? && run[i].evidence == run[i].owner
  {
    RunKeepsInv(run, i);
  }

  /**
   * A sleep state on the owner's word is never stale, awake or asleep: unless a message that says
   * otherwise is still on its way, the recorded owner holds the name now, and it is preparing for
   * sleep exactly if the backend sleeps.
   */
  lemma KnownStateIsCurrent(run: seq<State>, i: nat)
    requires IsRun(run) && i < |run| && run[i].evidence.Some?
    ensures run[i].evidence == run[i].owner
    ensures run[i].holder == run[i].owner || exists m :: m in run[i].queue && m.OwnerChanged?
    ensures var s, x := run[i], run[i].owner.value;
            NoOwnerChange(s.queue) && s.sleeping != (x in s.preparing) ==> SleepSignal(x, x in s.preparing) in s.queue
  {
    RunKeepsInv(run, i);
    var s := run[i];
    if NoOwnerChange(s.queue) {
      QuietQueueKeepsHolder(s.seen, s.queue, s.holder, s.preparing);
      if s.sleeping != (s.owner.value in s.preparing) { SomeSignalCorrects(s.sleeping, s.owner.value, s.queue); }
    }
  }

  lemma {:induction false} SomeSignalCorrects(v: bool, x: Name, q: seq<Message>)
    requires PreparingAfter(v, x, q) != v
    ensures SleepSignal(x, !v) in q
  {
    if q[0] != SleepSignal(x, !v) { SomeSignalCorrects(v, x, q[1..]); }
  }

  /** In particular, an awake backend is awake on current word. */
  lemma AwakeIsCurrent(run: seq<State>, i: nat)
    requires IsRun(run) && i < |run| && !run[i].sleeping
    ensures run[i].holder == run[i].owner || exists m :: m in run[i].queue && m.OwnerChanged?
    ensures run[i].owner.Some? && run[i].owner.value in run[i].preparing && NoOwnerChange(run[i].queue) ==>
              SleepSignal(run[i].owner.value, true) in run[i].queue
  {
    RunKeepsInv(run, i);
    KnownStateIsCurrent(run, i);
  }

  /** A recorded owner is replaced only by a step that leaves the backend asleep. */
  lemma OwnerChangeForcesSleep(run: seq<State>, i: nat)
    requires IsRun(run) && i + 1 < |run|
    requires run[i].owner.Some? && run[i + 1].owner != run[i].owner
    ensures run[i + 1].sleeping && run[i + 1].evidence.None?
  {
    RunKeepsInv(run, i);
    assert StepAt(run, i);
    var a :| Enabled(run[i], a) && run[i + 1] == Apply(run[i], a);
    OwnerChangeStep(run[i], a);
  }

  lemma OwnerChangeStep(s: State, a: Action)
    requires Inv(s) && Enabled(s, a) && s.owner.Some? && Apply(s, a).owner != s.owner
    ensures Apply(s, a).sleeping && Apply(s, a).evidence.None?
  {
  }

  /** The signal generation counts the applied sleep states. */
  lemma StepCountsSignals(s: State, a: Action)
    requires Enabled(s, a)
    ensures s.signalGeneration <= Apply(s, a).signalGeneration
    ensures Apply(s, a).signalGeneration == s.signalGeneration ==> Apply(s, a).sleeping == s.sleeping
  {
  }

  lemma {:induction false} SignalsOnlyGrow(run: seq<State>, i: nat, j: nat)
    requires IsRun(run) && i <= j < |run|
    ensures run[i].signalGeneration <= run[j].signalGeneration
    ensures run[i].signalGeneration == run[j].signalGeneration ==> run[i].sleeping == run[j].sleeping
  {
    if i < j {
      SignalsOnlyGrow(run, i, j - 1);
      assert StepAt(run, j - 1);
      var a :| Enabled(run[j - 1], a) && run[j] == Apply(run[j - 1], a);
      StepCountsSignals(run[j - 1], a);
    }
  }

  /**
   * A property reply is never applied over a sleep state applied after its
   * query: if the coroutine that asked at i applies the reply at j, the sleep
   * state did not change hands in any state between.
   */
  lemma ReplyNeverOverridesNewer(run: seq<State>, i: nat, k: nat, j: nat, t: TaskId)
    requires IsRun(run) && i <= k <= j < |run|
    requires t in run[i].tasks && run[i].tasks[t].PropertyAsked?
    requires run[i].tasks[t].signals == run[i].signalGeneration
    requires t in run[j].tasks && run[j].tasks[t].PropertyAnswered?
    requires run[j].tasks[t].signals == run[i].tasks[t].signals
    requires PropertyResumed(run[j], t, run[j].tasks[t]).signalGeneration != run[j].signalGeneration
    ensures run[k].signalGeneration == run[i].signalGeneration && run[k].sleeping == run[i].sleeping
  {
    SignalsOnlyGrow(run, i, k);
    SignalsOnlyGrow(run, k, j);
  }

  // --------------------------------------------------- what is not blocked

  ghost predicate Leads(s: State, actions: seq<Action>, after: State)
    decreases |actions|
  {
    if actions == [] then s == after
    else Enabled(s, actions[0]) && Leads(Apply(s, actions[0]), actions[1..], after)
  }

  lemma LeadsOne(s: State, a: Action, after: State)
    requires Enabled(s, a) && after == Apply(s, a)
    ensures Leads(s, [a], after)
  {
    assert [a][1..] == [];
  }

  lemma LeadsMore(s: State, a: Action, mid: State, rest: seq<Action>, after: State)
    requires Enabled(s, a) && mid == Apply(s, a) && Leads(mid, rest, after)
    ensures Leads(s, [a] + rest, after)
  {
    assert ([a] + rest)[1..] == rest;
  }

  /** The name's holder is on record, the backend sleeps exactly if it prepares for sleep, on its word. */
  predicate Reconciled(s: State, n: Name) {
    s.owner == Some(n) && s.evidence == Some(n) && s.sleeping == (n in s.preparing)
  }

  /** A message taken from an otherwise empty queue. */
  lemma DeliverOnly(s: State, m: Message)
    requires s.queue == [m]
    ensures Enabled(s, Deliver) && Apply(s, Deliver) == Handled(s.(queue := []), m)
  {
    assert s.queue[1..] == [];
  }

  /** A resume signal wakes the backend, and a suspend signal puts it to sleep. */
  lemma SignalIsObeyed(s: State, n: Name, asleep: bool) returns (after: State)
    requires Inv(s) && s.queue == [] && s.owner == Some(n)
    ensures Leads(s, [Toggles(n, asleep), Deliver], after)
    ensures Reconciled(after, n) && after.sleeping == asleep
  {
    var s1 := Apply(s, Toggles(n, asleep));
    assert s.holder == Some(n);
    assert s1.queue == [SleepSignal(n, asleep)];
    DeliverOnly(s1, SleepSignal(n, asleep));
    after := Apply(s1, Deliver);
    LeadsOne(s1, Deliver, after);
    LeadsMore(s, Toggles(n, asleep), s1, [Deliver], after);
  }

  /** The reply that names the owner: a signal that raced it is applied, then the state is asked for. */
  lemma OwnerAnswerIsUsed(s: State, t: TaskId, n: Name) returns (after: State)
    requires Inv(s) && s.queue == [] && s.holder == Some(n)
    requires t in s.tasks && s.tasks[t] == OwnerAsked(s.ownerGeneration)
    ensures Leads(s, [AnswerOwner(t, false), Deliver, Resume(t)], after)
    ensures after.queue == [] && after.holder == s.holder && after.preparing == s.preparing
    ensures after.owner == Some(n) && t in after.tasks && after.tasks[t].PropertyAsked?
    ensures var pc := after.tasks[t];
            && pc.gen == after.ownerGeneration && pc.asked == n && pc.signals == after.signalGeneration
            && (pc.hadPending ==> Reconciled(after, n))
  {
    var s1 := Apply(s, AnswerOwner(t, false));
    assert s1.queue == [OwnerReply(t, Some(n))];
    DeliverOnly(s1, OwnerReply(t, Some(n)));
    var s2 := Apply(s1, Deliver);
    assert s2 == Goto(s, t, OwnerAnswered(s.ownerGeneration, Some(n)));
    after := Apply(s2, Resume(t));
    LeadsOne(s2, Resume(t), after);
    LeadsMore(s1, Deliver, s2, [Resume(t)], after);
    LeadsMore(s, AnswerOwner(t, false), s1, [Deliver, Resume(t)], after);
  }

  /** The reply that tells the state is applied, unless the raced signal already was. */
  lemma PropertyAnswerIsUsed(s: State, t: TaskId, n: Name) returns (after: State)
    requires s.queue == [] && s.owner == Some(n) && t in s.tasks && s.tasks[t].PropertyAsked?
    requires var pc := s.tasks[t];
             && pc.gen == s.ownerGeneration && pc.asked == n && pc.signals == s.signalGeneration
             && (pc.hadPending ==> Reconciled(s, n))
    ensures Leads(s, [AnswerProperty(t, false), Deliver, Resume(t)], after)
    ensures Reconciled(after, n) && t !in after.tasks && after.lock.None?
  {
    var reply := PropertyReply(t, n, Some(n in s.preparing));
    var s1 := Apply(s, AnswerProperty(t, false));
    assert s1.queue == [reply];
    DeliverOnly(s1, reply);
    var pc := s.tasks[t];
    var s2 := Apply(s1, Deliver);
    assert s2 == Goto(s, t, PropertyAnswered(pc.gen, pc.asked, pc.signals, pc.hadPending, Some(n in s.preparing)));
    after := Apply(s2, Resume(t));
    LeadsOne(s2, Resume(t), after);
    LeadsMore(s1, Deliver, s2, [Resume(t)], after);
    LeadsMore(s, AnswerProperty(t, false), s1, [Deliver, Resume(t)], after);
  }

  lemma {:induction false} LeadsOn(s: State, a: seq<Action>, mid: State, b: seq<Action>, after: State)
    requires Leads(s, a, mid) && Leads(mid, b, after)
    ensures Leads(s, a + b, after)
    decreases |a|
  {
    if a == [] {
      assert a + b == b;
    } else {
      assert (a + b)[1..] == a[1..] + b;
      LeadsOn(Apply(s, a[0]), a[1..], mid, b, after);
    }
  }

  /** A reconciliation that has just asked for the owner binds the backend to the holder's true state. */
  lemma AskedReconciles(s: State, t: TaskId, n: Name) returns (actions: seq<Action>, after: State)
    requires Inv(s) && s.queue == [] && s.holder == Some(n)
    requires t in s.tasks && s.tasks[t] == OwnerAsked(s.ownerGeneration)
    ensures Leads(s, actions, after) && Reconciled(after, n) && t !in after.tasks && after.lock.None?
  {
    var mid := OwnerAnswerIsUsed(s, t, n);
    after := PropertyAnswerIsUsed(mid, t, n);
    var first, second := [AnswerOwner(t, false), Deliver, Resume(t)], [AnswerProperty(t, false), Deliver, Resume(t)];
    LeadsOn(s, first, mid, second, after);
    actions := first + second;
  }

  /** A coroutine that would ask next, with a reply it may not use or before its first query. */
  predicate AsksNext(s: State, t: TaskId) {
    && t in s.tasks
    && match s.tasks[t]
       case Waiting => s.lock.None?
       case OwnerAnswered(gen, _) => gen != s.ownerGeneration
       case PropertyAnswered(gen, _, _, _, _) => gen != s.ownerGeneration
       case _ => false
  }

  /**
   * From every state with a quiet bus and a name holder, a coroutine about to start, or one whose
   * replies an owner change has made stale, goes on to bind the backend to the holder's true state.
   */
  lemma ReconciliationBinds(s: State, t: TaskId, n: Name) returns (actions: seq<Action>, after: State)
    requires Inv(s) && s.queue == [] && s.holder == Some(n) && AsksNext(s, t)
    ensures Leads(s, actions, after) && Reconciled(after, n) && t !in after.tasks && after.lock.None?
  {
    var s1 := Apply(s, Resume(t));
    CoroutineKeepsInv(s, Resume(t));
    assert s1 == Goto(s.(lock := s1.lock), t, OwnerAsked(s.ownerGeneration));
    var rest;
    rest, after := AskedReconciles(s1, t, n);
    LeadsMore(s, Resume(t), s1, rest, after);
    actions := [Resume(t)] + rest;
  }

  /** A new owner schedules a reconciliation, which binds the backend to it. */
  lemma NewOwnerIsReconciled(s: State, n: Name) returns (actions: seq<Action>, after: State)
    requires Inv(s) && s.queue == [] && s.lock.None? && s.holder != Some(n)
    ensures Leads(s, [HolderChanges(Some(n)), Deliver] + actions, after) && Reconciled(after, n)
  {
    var t := s.nextTask;
    var change := HolderChanges(Some(n));
    var s1 := Apply(s, change);
    assert s1.queue == [OwnerChanged(Some(n))];
    DeliverOnly(s1, OwnerChanged(Some(n)));
    BusKeepsInv(s, change);
    BusKeepsInv(s1, Deliver);
    var s2 := Apply(s1, Deliver);
    actions, after := ReconciliationBinds(s2, t, n);
    LeadsMore(s1, Deliver, s2, actions, after);
    LeadsMore(s, change, s1, [Deliver] + actions, after);
    assert [change] + ([Deliver] + actions) == [change, Deliver] + actions;
  }

  // ---------------------------------------------- the variables, in place

  /** The nonlocal variables of main_async and the sections that assign them. */
  class SleepMonitor {
    var owner: Option<Name>
    var ownerGeneration: nat
    var signalGeneration: nat
    var pending: Option<(Name, bool)>
    var sleeping: bool
    ghost var evidence: Option<Name>
    var lock: Option<TaskId>
    var tasks: map<TaskId, Pc>
    var nextTask: TaskId

    ghost function View(bus: State): State
      reads this
    {
      bus.(owner := owner, ownerGeneration := ownerGeneration, signalGeneration := signalGeneration,
      pending := pending, sleeping := sleeping, evidence := evidence, lock := lock, tasks := tasks,
      nextTask := nextTask)
    }

    method ApplySleepState(asleep: bool, ghost voucher: Option<Name>, ghost bus: State)
      modifies this`signalGeneration, this`sleeping, this`evidence
      ensures View(bus) == ApplySleep(old(View(bus)), asleep, voucher)
    {
      signalGeneration := signalGeneration + 1;
      sleeping := asleep;
      evidence := voucher;
    }

    method OnOwnerChanged(newOwner: Option<Name>, ghost bus: State)
      modifies this
      ensures View(bus.(seen := newOwner)) == OwnerChangeHandled(old(View(bus)), newOwner)
    {
      ownerGeneration := ownerGeneration + 1;
      owner := newOwner;
      if pending.Some? && Some(pending.value.0) != owner {
        pending := None;
      }
      ApplySleepState(true, None, bus);
      if owner.Some? {
        tasks := tasks[nextTask := Waiting];
        nextTask := nextTask + 1;
      }
    }

    method OnSleepSignal(sender: Name, asleep: bool, ghost bus: State)
      modifies this
      ensures View(bus) == SignalHandled(old(View(bus)), sender, asleep)
    {
      if owner.None? {
        pending := Some((sender, asleep));
      } else if owner.value == sender {
        ApplySleepState(asleep, Some(sender), bus);
      }
    }

    method OnOwnerReply(t: TaskId, gen: nat, reply: Option<Name>, ghost bus: State)
      modifies this
      ensures View(bus) == OwnerResumed(old(View(bus)), t, gen, reply)
    {
      if gen != ownerGeneration {
        tasks := tasks[t := OwnerAsked(ownerGeneration)];
        return;
      }
      if reply.None? {
        tasks := tasks - {t};
        lock := None;
        return;
      }
      owner := reply;
      var hadPending := false;
      if pending.Some? && pending.value.0 == owner.value {
        var asleep := pending.value.1;
        pending := None;
        ApplySleepState(asleep, reply, bus);
        hadPending := true;
      }
      tasks := tasks[t := PropertyAsked(gen, owner.value, signalGeneration, hadPending)];
    }

    method OnPropertyReply(t: TaskId, pc: Pc, ghost bus: State)
      requires pc.PropertyAnswered?
      modifies this
      ensures View(bus) == PropertyResumed(old(View(bus)), t, pc)
    {
      if pc.gen != ownerGeneration || owner != Some(pc.asked) {
        tasks := tasks[t := OwnerAsked(ownerGeneration)];
        return;
      }
      if pc.value.Some? && !pc.hadPending && pc.signals == signalGeneration {
        ApplySleepState(pc.value.value, Some(pc.asked), bus);
      }
      tasks := tasks - {t};
      lock := None;
    }
  }
}
