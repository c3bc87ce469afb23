/**
 * One match session: observing callbacks, exporting one lockout record per
 * accepted result, cancelling, draining, and reconciling late results.
 *
 * The channel is an arbitrary script of turns.  A reply carries every callback
 * that arrived while its command was outstanding, so a script is one
 * interleaving of callbacks with the start, export, cancel and drain commands.
 */
module MatchSession {
  import opened Wrappers
  import opened Bytes
  import opened WireValues
  import opened MatchEvent

  const MAXIMUM_LATE_RESULTS := 256
  const MAXIMUM_DRAINED := 256

  /** summarize_event with the request's enrolled records, user and gates filled in. */
  type Summarizer = Value -> Summary

  /** `published`: whether writing a reply's output to its durable destinations succeeds. */
  datatype Turn =
    | Reply(callbacks: seq<Value>, ok: bool, output: bytes, published: bool)
    | Callback(payload: Value)
    | OtherEnvelope
    | Timeout
    | Broken

  datatype Failure =
    | TransportFailed
    | ExportRejected
    | CommitRejected
    | PublishFailed
    | UnexpectedEnvelope
    | DrainBoundExceeded
    | PublicationExceedsResults
    | LateBoundExceeded
    | NotPublished

  /** A reply that carries a bio-lockout record. */
  predicate Exports(t: Turn) {
    t.Reply? && t.ok && |t.output| >= 4 && t.output[..4] == [0x48, 0x52, 0x4C, 0x42]
  }

  /** ... and whose record reaches every configured destination. */
  predicate Persists(t: Turn, stored: bool) {
    Exports(t) && (stored ==> 16 <= |t.output| <= 4096) && t.published
  }

  /** The service callbacks that one turn of the channel carries. */
  function Carried(t: Turn): seq<Value> {
    match t
    case Reply(callbacks, _, _, _) => callbacks
    case Callback(payload) => [payload]
    case _ => []
  }

  function CarriedAll(ts: seq<Turn>): seq<Value> {
    if ts == [] then [] else Carried(ts[0]) + CarriedAll(ts[1..])
  }

  /** From t0 to t1 turns were taken off the channel, and everything they carried was appended in order. */
  ghost predicate Took(t0: seq<Turn>, t1: seq<Turn>, e0: seq<Value>, e1: seq<Value>)
    decreases |t0|
  {
    if |t1| >= |t0| then t0 == t1 && e0 == e1 else Took(t0[1..], t1, e0 + Carried(t0[0]), e1)
  }

  lemma TookOne(t0: seq<Turn>, e0: seq<Value>, e1: seq<Value>)
    requires t0 != [] && e1 == e0 + Carried(t0[0])
    ensures Took(t0, t0[1..], e0, e1)
  {
  }

  lemma {:induction false} TookThen(t0: seq<Turn>, t1: seq<Turn>, t2: seq<Turn>,
                                    e0: seq<Value>, e1: seq<Value>, e2: seq<Value>)
    requires Took(t0, t1, e0, e1) && Took(t1, t2, e1, e2)
    ensures Took(t0, t2, e0, e2)
    decreases |t0|
  {
    TookShrinks(t1, t2, e1, e2);
    if |t1| < |t0| {
      TookThen(t0[1..], t1, t2, e0 + Carried(t0[0]), e1, e2);
    }
  }

  lemma {:induction false} TookShrinks(t0: seq<Turn>, t1: seq<Turn>, e0: seq<Value>, e1: seq<Value>)
    requires Took(t0, t1, e0, e1)
    ensures |t1| <= |t0|
    decreases |t0|
  {
    if |t1| < |t0| {
      TookShrinks(t0[1..], t1, e0 + Carried(t0[0]), e1);
    }
  }

  /** In closed form: the turns taken are a prefix, and the events grew by what they carried. */
  lemma {:induction false} TookMeans(t0: seq<Turn>, t1: seq<Turn>, e0: seq<Value>, e1: seq<Value>)
    ensures Took(t0, t1, e0, e1) <==>
              && |t1| <= |t0| && t1 == t0[|t0| - |t1|..]
              && e1 == e0 + CarriedAll(t0[..|t0| - |t1|])
    decreases |t0|
  {
    if |t1| >= |t0| {
      assert e0 + [] == e0;
    } else {
      var k := |t0| - |t1|;
      TookMeans(t0[1..], t1, e0 + Carried(t0[0]), e1);
      assert t0[..k][1..] == t0[1..][..k - 1] && t0[..k][0] == t0[0];
      assert t0[1..][k - 1..] == t0[k..];
      assert e0 + Carried(t0[0]) + CarriedAll(t0[1..][..k - 1]) == e0 + (Carried(t0[0]) + CarriedAll(t0[1..][..k - 1]));
    }
  }

  lemma TookNothing(t0: seq<Turn>, n: nat, e0: seq<Value>, e1: seq<Value>)
    requires n <= |t0| && Took(t0, t0[n..], e0, e1)
    ensures |e1| == |e0| <==> CarriedAll(t0[..n]) == []
  {
    TookMeans(t0, t0[n..], e0, e1);
  }

  /** How many of the turns taken from t0 to t1 had nothing to be read. */
  ghost function Idles(t0: seq<Turn>, t1: seq<Turn>): nat
    decreases |t0|
  {
    if |t1| >= |t0| then 0
    else Idles(t0[1..], t1) + if t0[0].Timeout? || t0[0].OtherEnvelope? then 1 else 0
  }

  lemma {:induction false} IdlesAdd(t0: seq<Turn>, t1: seq<Turn>, t2: seq<Turn>, e0: seq<Value>, e1: seq<Value>)
    requires Took(t0, t1, e0, e1) && |t2| <= |t1|
    ensures Idles(t0, t2) == Idles(t0, t1) + Idles(t1, t2)
    decreases |t0|
  {
    TookShrinks(t0, t1, e0, e1);
    if |t1| < |t0| {
      IdlesAdd(t0[1..], t1, t2, e0 + Carried(t0[0]), e1);
    }
  }

  lemma TookOn(t0: seq<Turn>, t1: seq<Turn>, t2: seq<Turn>, e0: seq<Value>, e1: seq<Value>, e2: seq<Value>)
    requires Took(t0, t1, e0, e1) && Took(t1, t2, e1, e2)
    ensures Took(t0, t2, e0, e2) && Idles(t0, t2) == Idles(t0, t1) + Idles(t1, t2)
  {
    TookThen(t0, t1, t2, e0, e1, e2);
    TookShrinks(t1, t2, e1, e2);
    IdlesAdd(t0, t1, t2, e0, e1);
  }

  /** The channel falls quiet within the drain's bound. */
  predicate FallsQuiet(ts: seq<Turn>) {
    exists n :: 0 <= n <= 256 && n < |ts| && ts[n].Timeout? && forall i :: 0 <= i < n ==> ts[i].Callback?
  }

  /** The cancel is accepted and the channel falls quiet after it. */
  predicate CancelsQuietly(ts: seq<Turn>) {
    ts != [] && ts[0].Reply? && ts[0].ok && FallsQuiet(ts[1..])
  }

  /** How many callbacks come before anything else. */
  function Leading(ts: seq<Turn>): (n: nat)
    ensures n <= |ts| && (forall i :: 0 <= i < n ==> ts[i].Callback?) && (n < |ts| ==> !ts[n].Callback?)
  {
    if ts != [] && ts[0].Callback? then 1 + Leading(ts[1..]) else 0
  }

  /** The next n turns are replies whose records reach every configured destination. */
  predicate PersistsAll(ts: seq<Turn>, n: nat, stored: bool) {
    n <= |ts| && forall i :: 0 <= i < n ==> Persists(ts[i], stored)
  }

  /** One round of settling n results succeeds. */
  predicate Rounds(ts: seq<Turn>, n: nat, stored: bool) {
    PersistsAll(ts, n, stored) && (CarriedAll(ts[..n]) == [] || FallsQuiet(ts[n..]))
  }

  /** The turns such a round takes. */
  function RoundLength(ts: seq<Turn>, n: nat): (k: nat)
    requires n <= |ts|
    ensures n <= k <= |ts|
  {
    if CarriedAll(ts[..n]) == [] then n
    else
      var k := n + Leading(ts[n..]) + 1;
      if k <= |ts| then k else |ts|
  }

  /** Where the reconciliation stands between two rounds. */
  datatype Progress = Progress(turns: seq<Turn>, events: seq<Value>, committed: nat, allowance: int)

  /** The accepted results without a generation. */
  function Missing(p: Progress, f: Summarizer): int {
    AcceptedCount(p.events, f) - p.committed
  }

  function AfterRound(p: Progress, f: Summarizer): Progress
    requires 0 <= Missing(p, f) <= |p.turns|
  {
    var n := RoundLength(p.turns, Missing(p, f));
    Progress(p.turns[n..], p.events + CarriedAll(p.turns[..n]), AcceptedCount(p.events, f),
             p.allowance - Missing(p, f))
  }

  /** The missing results get their generations, and what the turns carried is kept. */
  predicate IsRound(p: Progress, q: Progress, f: Summarizer, stored: bool) {
    0 < Missing(p, f) <= p.allowance && Rounds(p.turns, Missing(p, f), stored) && q == AfterRound(p, f)
  }

  /** No round is possible: too many results are missing, or the channel does not let them through. */
  predicate Stuck(p: Progress, f: Summarizer, stored: bool) {
    Missing(p, f) > 0 && (Missing(p, f) > p.allowance || !Rounds(p.turns, Missing(p, f), stored))
  }

  predicate AreRounds(path: seq<Progress>, f: Summarizer, stored: bool) {
    path != [] && forall i :: 0 <= i < |path| - 1 ==> IsRound(path[i], path[i + 1], f, stored)
  }

  /** The channel lets every accepted result get its generation, the late ones included. */
  ghost predicate Settles(p: Progress, f: Summarizer, stored: bool)
    decreases |p.turns|
  {
    Missing(p, f) <= 0 ||
    (Missing(p, f) <= p.allowance && Rounds(p.turns, Missing(p, f), stored) && Settles(AfterRound(p, f), f, stored))
  }

  lemma RoundDecides(p: Progress, q: Progress, f: Summarizer, stored: bool)
    requires IsRound(p, q, f, stored)
    ensures Settles(p, f, stored) <==> Settles(q, f, stored)
  {
    assert q == AfterRound(p, f);
  }

  lemma RoundTakes(p: Progress, q: Progress, f: Summarizer, stored: bool)
    requires IsRound(p, q, f, stored)
    ensures Took(p.turns, q.turns, p.events, q.events)
  {
    TookMeans(p.turns, q.turns, p.events, q.events);
  }

  lemma RoundsRest(path: seq<Progress>, f: Summarizer, stored: bool)
    requires AreRounds(path, f, stored) && |path| > 1
    ensures IsRound(path[0], path[1], f, stored) && AreRounds(path[1..], f, stored)
    ensures path[1..][0] == path[1] && path[1..][|path| - 2] == path[|path| - 1]
  {
    var rest := path[1..];
    forall i | 0 <= i < |rest| - 1 ensures IsRound(rest[i], rest[i + 1], f, stored) {
      assert rest[i] == path[i + 1] && rest[i + 1] == path[i + 1 + 1];
    }
  }

  /**
   * Rounds lead from a state that settles exactly to states that do, and nothing that their turns
   * carry is lost.
   */
  lemma {:induction false} RoundsDecide(path: seq<Progress>, f: Summarizer, stored: bool)
    requires AreRounds(path, f, stored)
    ensures var p, q := path[0], path[|path| - 1];
            (Settles(p, f, stored) <==> Settles(q, f, stored)) && Took(p.turns, q.turns, p.events, q.events)
  {
    if |path| > 1 {
      var p, q, last := path[0], path[1], path[|path| - 1];
      RoundsRest(path, f, stored);
      RoundsDecide(path[1..], f, stored);
      RoundDecides(p, q, f, stored);
      RoundTakes(p, q, f, stored);
      TookThen(p.turns, q.turns, last.turns, p.events, q.events, last.events);
    }
  }

  lemma LastDecides(path: seq<Progress>, f: Summarizer, stored: bool)
    requires AreRounds(path, f, stored)
    ensures Missing(path[|path| - 1], f) == 0 ==> Settles(path[0], f, stored)
    ensures Stuck(path[|path| - 1], f, stored) ==> !Settles(path[0], f, stored)
  {
    RoundsDecide(path, f, stored);
  }

  /** The cancel is accepted, the channel falls quiet, and what has arrived by then settles. */
  ghost predicate ClosesWell(ts: seq<Turn>, events: seq<Value>, persisting: bool, f: Summarizer, stored: bool) {
    && CancelsQuietly(ts)
    && var n := Leading(ts[1..]) + 2;
       n <= |ts|
       && (persisting ==> Settles(Progress(ts[n..], events + CarriedAll(ts[..n]), 0, 256), f, stored))
  }

  lemma ClosingDecides(ts: seq<Turn>, rest: seq<Turn>, events: seq<Value>, known: seq<Value>, persisting: bool,
                       f: Summarizer, stored: bool)
    requires CancelsQuietly(ts) && |rest| == |ts| - Leading(ts[1..]) - 2 && Took(ts, rest, events, known)
    ensures ClosesWell(ts, events, persisting, f, stored) <==>
              (persisting ==> Settles(Progress(rest, known, 0, 256), f, stored))
  {
    TookMeans(ts, rest, events, known);
  }

  lemma RoundTaken(p: Progress, q: Progress, f: Summarizer, stored: bool)
    requires 0 < Missing(p, f) <= p.allowance && Rounds(p.turns, Missing(p, f), stored)
    requires |q.turns| == |p.turns| - RoundLength(p.turns, Missing(p, f))
    requires Took(p.turns, q.turns, p.events, q.events)
    requires q.committed == AcceptedCount(p.events, f) && q.allowance == p.allowance - Missing(p, f)
    ensures IsRound(p, q, f, stored)
  {
    TookMeans(p.turns, q.turns, p.events, q.events);
  }

  lemma RoundsExtend(path: seq<Progress>, q: Progress, f: Summarizer, stored: bool)
    requires AreRounds(path, f, stored) && IsRound(path[|path| - 1], q, f, stored)
    ensures AreRounds(path + [q], f, stored)
  {
  }

  /** A committed lockout record; `received` events were known when its export was sent. */
  datatype Generation = Generation(payload: bytes, received: nat)

  // ------------------------------------------------------------- counting

  function AcceptedCount(events: seq<Value>, f: Summarizer): nat {
    if events == [] then 0
    else
      var last := |events| - 1;
      AcceptedCount(events[..last], f) + (if f(events[last]).IsAccepted() then 1 else 0)
  }

  /** Generation k was exported after the k-th accepted result had been received. */
  predicate Covered(generations: seq<Generation>, events: seq<Value>, f: Summarizer) {
    forall k :: 0 <= k < |generations| ==>
      generations[k].received <= |events| && AcceptedCount(events[..generations[k].received], f) > k
  }

  lemma {:induction false} CountAppends(a: seq<Value>, b: seq<Value>, f: Summarizer)
    ensures AcceptedCount(a + b, f) == AcceptedCount(a, f) + AcceptedCount(b, f)
    decreases |b|
  {
    if b == [] {
      assert a + b == a;
    } else {
      var last := |b| - 1;
      assert (a + b)[..|a + b| - 1] == a + b[..last];
      CountAppends(a, b[..last], f);
    }
  }

  lemma CountGrows(a: seq<Value>, b: seq<Value>, f: Summarizer)
    requires a <= b
    ensures AcceptedCount(a, f) <= AcceptedCount(b, f)
  {
    assert b == a + b[|a|..];
    CountAppends(a, b[|a|..], f);
  }

  lemma CoveredGrows(generations: seq<Generation>, a: seq<Value>, b: seq<Value>, f: Summarizer)
    requires Covered(generations, a, f) && a <= b
    ensures Covered(generations, b, f)
  {
    forall k | 0 <= k < |generations|
      ensures generations[k].received <= |b| && AcceptedCount(b[..generations[k].received], f) > k
    {
      assert b[..generations[k].received] == a[..generations[k].received];
    }
  }

  lemma CoveredExtends(generations: seq<Generation>, events: seq<Value>, f: Summarizer, g: Generation)
    requires Covered(generations, events, f)
    requires g.received <= |events| && AcceptedCount(events[..g.received], f) > |generations|
    ensures Covered(generations + [g], events, f)
  {
  }

  function Summaries(events: seq<Value>, f: Summarizer): (s: seq<Summary>)
    ensures |s| == |events|
  {
    seq(|events|, i requires 0 <= i < |events| => f(events[i]))
  }

  /** What a session keeps in every state. */
  predicate Sound(generations: seq<Generation>, events: seq<Value>, f: Summarizer) {
    Covered(generations, events, f) && |generations| <= AcceptedCount(events, f)
  }

  class Session {
    const summarize: Summarizer
    const options: Options
    /** The append-only store is configured. */
    const stored: bool
    /** A lockout output file or the append-only store is configured. */
    const persisting: bool
    var turns: seq<Turn>
    var events: seq<Value>
    var generations: seq<Generation>

    constructor (summarize: Summarizer, options: Options, output: bool, stored: bool, turns: seq<Turn>,
                 started: seq<Value>)
      ensures this.summarize == summarize && this.options == options
      ensures this.stored == stored && persisting == (output || stored)
      ensures this.turns == turns && events == started && generations == []
    {
      this.summarize, this.options, this.stored, persisting := summarize, options, stored, output || stored;
      this.turns, events, generations := turns, started, [];
    }

    method NextTurn() returns (t: Turn)
      modifies this`turns
      ensures old(turns) != [] ==> t == old(turns)[0] && turns == old(turns)[1..]
      ensures old(turns) == [] ==> t == Broken && turns == []
    {
      if turns == [] {
        t := Broken;
      } else {
        t, turns := turns[0], turns[1..];
      }
    }

    /** export_biolockout_record: callbacks are kept even when the export is rejected. */
    method Export() returns (r: Result<bytes, Failure>)
      modifies this`turns, this`events
      ensures old(events) <= events && |turns| <= |old(turns)|
      ensures old(turns) != [] && old(turns)[0].Reply? ==> events == old(events) + old(turns)[0].callbacks
      ensures r.Ok? <==> old(turns) != [] && Exports(old(turns)[0])
      ensures r.Ok? ==> r.value == old(turns)[0].output && Took(old(turns), turns, old(events), events)
      ensures r.Ok? ==> turns == old(turns)[1..]
    {
      var t := NextTurn();
      if !t.Reply? { return Err(TransportFailed); }
      events := events + t.callbacks;
      TookOne(old(turns), old(events), events);
      if !Exports(t) { return Err(ExportRejected); }
      r := Ok(t.output);
    }

    /**
     * persist_match_result: the store checks the record's length, a plain output file does not, and
     * either write may fail.
     */
    method Persist(s: Summary) returns (r: Result<bool, Failure>)
      modifies this`turns, this`events, this`generations
      ensures old(events) <= events && |turns| <= |old(turns)|
      ensures !(persisting && s.IsAccepted()) ==>
                r.Ok? && events == old(events) && generations == old(generations) && turns == old(turns)
      ensures persisting && s.IsAccepted() ==> (r.Ok? <==> old(turns) != [] && Persists(old(turns)[0], stored))
      ensures persisting && s.IsAccepted() && r.Ok? ==>
                && |generations| == |old(generations)| + 1
                && generations[..|old(generations)|] == old(generations)
                && generations[|old(generations)|] == Generation(old(turns)[0].output, |old(events)|)
                && turns == old(turns)[1..]
                && |old(turns)[0].output| >= 4 && old(turns)[0].output[..4] == [0x48, 0x52, 0x4C, 0x42]
      ensures r.Err? ==> generations == old(generations)
      ensures r.Ok? ==> Took(old(turns), turns, old(events), events)
    {
      if !persisting || !s.IsAccepted() { return Ok(false); }
      var received := |events|;
      var published := turns != [] && turns[0].Reply? && turns[0].published;
      var payload :- Export();
      if stored && !(16 <= |payload| <= 4096) { return Err(CommitRejected); }
      if !published { return Err(PublishFailed); }
      generations := generations + [Generation(payload, received)];
      r := Ok(true);
    }

    /** One generation per accepted result among the first n events, each exported in time. */
    ghost predicate Counted(n: nat)
      reads this
    {
      && n <= |events|
      && |generations| == (if persisting then AcceptedCount(events[..n], summarize) else 0)
      && Covered(generations, events, summarize)
    }

    /** Summarize, persist and judge one callback: the shared body of both loops. */
    method Handle(i: nat) returns (v: Verdict)
      requires i < |events| && Counted(i)
      modifies this`turns, this`events, this`generations
      ensures old(events) <= events && |turns| <= |old(turns)|
      ensures Counted(if v.PersistFailed? then i else i + 1)
      ensures !v.PersistFailed? ==> v == Judge(summarize(events[i]), options)
      ensures !v.PersistFailed? ==> Took(old(turns), turns, old(events), events)
      ensures !persisting || !summarize(old(events)[i]).IsAccepted() ==>
                !v.PersistFailed? && events == old(events) && turns == old(turns) && generations == old(generations)
      ensures persisting && summarize(old(events)[i]).IsAccepted() ==>
                (v.PersistFailed? <==> !PersistsAll(old(turns), 1, stored))
    {
      ghost var before, kept := events, generations;
      var s := summarize(events[i]);
      var r := Persist(s);
      HandledStep(before, kept, events, generations, i + 1, summarize, persisting && s.IsAccepted() && r.Ok?);
      CountStep(before, events, i + 1, summarize);
      v := if r.Err? then PersistFailed else Judge(s, options);
    }

    /**
     * The loop over the callbacks that came with the start reply.  A stop does
     * not break it; an invalid result or a failed export does.
     */
    method ObserveInitial() returns (handled: nat, last: Verdict, stopped: bool, terminal: bool)
      requires Counted(0)
      modifies this`turns, this`events, this`generations
      ensures old(events) <= events && handled <= |old(events)|
      ensures last.Handled? ==> handled == |old(events)|
      ensures last.InvalidResult? ==> handled > 0 && summarize(events[handled - 1]).IsInvalid()
      ensures last.PersistFailed? ==> handled > 0
      ensures Counted(if last.PersistFailed? then handled - 1 else handled)
      ensures last.Handled? ==> NoneInvalid(events[..handled], summarize)
      ensures last.Handled? ==> stopped == SomeStops(events[..handled], summarize, options)
      ensures last.Handled? ==> terminal == SomeEnds(events[..handled], summarize)
      ensures !last.PersistFailed? ==> Took(old(turns), turns, old(events), events)
      ensures !persisting || NoneAccepted(old(events), summarize) ==>
                !last.PersistFailed? && events == old(events) && turns == old(turns) && generations == old(generations)
    {
      var count := |events|;
      handled, last, stopped, terminal := 0, Handled(false, false), false, false;
      while handled < count && last.Handled?
        invariant handled <= count <= |events| && old(events) <= events && count == |old(events)|
        invariant !last.Handled? ==> handled > 0
        invariant Counted(if last.PersistFailed? then handled - 1 else handled)
        invariant last.InvalidResult? ==> summarize(events[handled - 1]).IsInvalid()
        invariant last.Handled? ==> NoneInvalid(events[..handled], summarize)
        invariant last.Handled? ==> stopped == SomeStops(events[..handled], summarize, options)
        invariant last.Handled? ==> terminal == SomeEnds(events[..handled], summarize)
        invariant !last.PersistFailed? ==> Took(old(turns), turns, old(events), events)
        invariant !persisting || NoneAccepted(old(events), summarize) ==>
                    !last.PersistFailed? && events == old(events) && turns == old(turns)
                    && generations == old(generations)
        decreases count - handled, last.Handled?
      {
        ghost var before, channel := events, turns;
        last := Handle(handled);
        handled := handled + 1;
        if !last.PersistFailed? { TookThen(old(turns), channel, turns, old(events), before, events); }
        JudgedPrefix(before, events, handled, summarize, options);
        EndedPrefix(before, events, handled, summarize);
        if last.Handled? {
          terminal := terminal || last.terminal;
          stopped := stopped || last.stop;
        }
      }
    }

    /**
     * next_match_callback: queued callbacks first, then one envelope; what it carries is kept. A
     * command's reply cannot come while no command is outstanding.
     */
    method NextCallback(cursor: nat) returns (r: Result<bool, Failure>)
      requires cursor <= |events|
      modifies this`turns, this`events
      ensures old(events) <= events && |turns| <= |old(turns)|
      ensures cursor < |old(events)| ==> r == Ok(true) && events == old(events) && turns == old(turns)
      ensures r == Ok(true) <==> cursor < |old(events)| || (old(turns) != [] && old(turns)[0].Callback?)
      ensures r == Ok(false) <==> cursor == |old(events)| && old(turns) != []
                                  && (old(turns)[0].Timeout? || old(turns)[0].OtherEnvelope?)
      ensures r.Ok? ==> Took(old(turns), turns, old(events), events) && |events| <= |old(events)| + 1
      ensures r.Ok? && cursor == |old(events)| ==>
                old(turns) != [] && turns == old(turns)[1..] && events == old(events) + Carried(old(turns)[0])
      ensures r == Ok(true) ==> cursor < |events|
    {
      if cursor < |events| { return Ok(true); }
      var t := NextTurn();
      match t {
        case Callback(payload) =>
          events := events + [payload];
          r := Ok(true);
        case Timeout => r := Ok(false);
        case OtherEnvelope => r := Ok(false);
        case Reply(_, _, _, _) => r := Err(TransportFailed);
        case Broken => r := Err(TransportFailed);
      }
      if r.Ok? { TookOne(old(turns), old(events), events); }
    }

    /** Where an observation stands after `handled` events with this verdict on the last one. */
    ghost predicate Observed(handled: nat, last: Verdict)
      reads this
    {
      && (last.PersistFailed? ==> handled > 0 && Counted(handled - 1))
      && (!last.PersistFailed? ==> Counted(handled))
      && (last.InvalidResult? ==> handled > 0 && summarize(events[handled - 1]).IsInvalid())
      && (last.Handled? && !last.stop ==> Clean(events, handled, summarize, options))
      && (last.Handled? && last.stop ==> handled > 0 && StopsFirstAt(events, handled - 1, summarize, options))
      && (last.Handled? ==> (last.terminal <==> SomeEnds(events[..handled], summarize)))
    }

    /** One round of the observation loop: the next event there is, and no other, is handled. */
    method Round(at: nat) returns (handled: nat, last: Verdict, broken: bool)
      requires Counted(at) && Clean(events, at, summarize, options) && !SomeEnds(events[..at], summarize)
      modifies this`turns, this`events, this`generations
      ensures old(events) <= events && at <= handled <= |events| && Observed(handled, last)
      ensures handled == at ==> last == Handled(false, false)
      ensures at < |old(events)| || (old(turns) != [] && old(turns)[0].Callback?) ==> handled == at + 1 && !broken
      ensures handled == at && !broken ==> Idles(old(turns), turns) == 1
      ensures handled == at || handled == at + 1
      ensures !broken && !last.PersistFailed? ==> Took(old(turns), turns, old(events), events)
    {
      handled, last, broken := at, Handled(false, false), false;
      ghost var earlier, first := events, turns;
      var found := NextCallback(at);
      CoveredGrows(generations, earlier, events, summarize);
      assert events[..at] == earlier[..at];
      assert Counted(at) && Clean(events, at, summarize, options);
      if found.Err? {
        broken := true;
      } else if found.value {
        ghost var before, channel := events, turns;
        last := Handle(at);
        handled := at + 1;
        if !last.PersistFailed? { TookThen(first, channel, turns, earlier, before, events); }
        EndedPrefix(before, events, handled, summarize);
        if last.Handled? {
          CleanStep(before, events, at, summarize, options);
        }
      }
    }

    /**
     * The observation loop.  `patience` stands for the deadline and for a
     * requested termination: after that many rounds the loop guard fails. It
     * ends earlier only for a reason, and every round without one handled an
     * event or found none to read.
     */
    method Observe(start: nat, patience: nat) returns (handled: nat, last: Verdict, broken: bool)
      requires Counted(start) && Clean(events, start, summarize, options) && !SomeEnds(events[..start], summarize)
      modifies this`turns, this`events, this`generations
      ensures old(events) <= events && start <= handled <= |events| && Observed(handled, last)
      ensures patience == 0 ==> !broken && handled == start && events == old(events) && turns == old(turns)
      ensures patience == 0 ==> last == Handled(false, false) && generations == old(generations)
      ensures !broken && !last.PersistFailed? ==> Took(old(turns), turns, old(events), events)
      ensures !broken && last == Handled(false, false) ==>
                handled - start + Idles(old(turns), turns) >= patience
    {
      handled, last, broken := start, Handled(false, false), false;
      var rounds := patience;
      while rounds > 0 && last == Handled(false, false) && !broken
        invariant old(events) <= events && start <= handled <= |events| && Observed(handled, last)
        invariant 0 <= rounds <= patience
        invariant rounds == patience ==> !broken && handled == start && events == old(events) && turns == old(turns)
        invariant rounds == patience ==> last == Handled(false, false) && generations == old(generations)
        invariant !broken && !last.PersistFailed? ==> Took(old(turns), turns, old(events), events)
        invariant !broken && last == Handled(false, false) ==>
                    handled - start + Idles(old(turns), turns) >= patience - rounds
        decreases rounds
      {
        ghost var before, channel, at := events, turns, handled;
        rounds := rounds - 1;
        handled, last, broken := Round(handled);
        if !broken && !last.PersistFailed? {
          TookOn(old(turns), channel, turns, old(events), before, events);
        }
      }
    }

    /** drain_post_cancel_service_events: everything up to one quiet period, and no more than the bound. */
    method Drain() returns (r: Result<nat, Failure>)
      modifies this`turns, this`events
      ensures old(events) <= events
      ensures r.Ok? ==>
                && r.value <= MAXIMUM_DRAINED && |events| == |old(events)| + r.value
                && r.value < |old(turns)| && old(turns)[r.value] == Timeout && turns == old(turns)[r.value + 1..]
                && forall i :: 0 <= i < r.value ==> old(turns)[i] == Callback(events[|old(events)| + i])
      ensures r.Ok? ==> Took(old(turns), turns, old(events), events)
      ensures r.Ok? <==> FallsQuiet(old(turns))
      ensures r.Ok? ==> r.value == Leading(old(turns))
    {
      var drained := 0;
      while true
        invariant old(events) <= events && |events| == |old(events)| + drained
        invariant drained <= MAXIMUM_DRAINED && drained <= |old(turns)| && turns == old(turns)[drained..]
        invariant forall i :: 0 <= i < drained ==> old(turns)[i] == Callback(events[|old(events)| + i])
        invariant Took(old(turns), turns, old(events), events)
        decreases |turns|
      {
        ghost var before, known := turns, events;
        var t := NextTurn();
        match t {
          case Timeout =>
            TookOne(before, known, events);
            TookThen(old(turns), before, turns, old(events), known, events);
            return Ok(drained);
          case Callback(payload) =>
            if drained >= MAXIMUM_DRAINED { return Err(DrainBoundExceeded); }
            assert old(turns)[drained] == before[0] && turns == old(turns)[drained + 1..];
            events := events + [payload];
            TookOne(before, known, events);
            TookThen(old(turns), before, turns, old(events), known, events);
            drained := drained + 1;
          case Broken => return Err(TransportFailed);
          case Reply(_, _, _, _) => return Err(UnexpectedEnvelope);
          case OtherEnvelope => return Err(UnexpectedEnvelope);
        }
      }
    }

    /** Persist one accepted result of those known that has no generation yet. */
    method PersistOne(missing: Summary, ghost known: seq<Value>) returns (r: Result<bool, Failure>)
      requires persisting && missing.IsAccepted() && known <= events && Sound(generations, events, summarize)
      requires |generations| < AcceptedCount(known, summarize)
      modifies this`turns, this`events, this`generations
      ensures old(events) <= events && Sound(generations, events, summarize)
      ensures |generations| == |old(generations)| + if r.Ok? then 1 else 0
      ensures r.Ok? <==> PersistsAll(old(turns), 1, stored)
      ensures r.Ok? ==> turns == old(turns)[1..] && Took(old(turns), turns, old(events), events)
    {
      ghost var before, kept := events, generations;
      r := Persist(missing);
      CountGrows(known, before, summarize);
      CountGrows(before, events, summarize);
      CoveredGrows(kept, before, events, summarize);
      if r.Ok? {
        assert events[..|before|] == before;
        assert generations == kept + [generations[|kept|]];
        CoveredExtends(kept, events, summarize, generations[|kept|]);
      }
    }

    /** Persist the accepted results that have no generation yet. */
    method PersistMissing(missing: seq<Summary>, ghost known: seq<Value>) returns (r: Result<bool, Failure>)
      requires persisting && known == events && Sound(generations, events, summarize)
      requires forall i :: 0 <= i < |missing| ==> missing[i].IsAccepted()
      requires |generations| + |missing| <= AcceptedCount(known, summarize)
      modifies this`turns, this`events, this`generations
      ensures old(events) <= events && Sound(generations, events, summarize)
      ensures |old(generations)| <= |generations| <= |old(generations)| + |missing|
      ensures r.Ok? <==> PersistsAll(old(turns), |missing|, stored)
      ensures r.Ok? ==> |generations| == |old(generations)| + |missing| && Took(old(turns), turns, old(events), events)
      ensures r.Ok? ==> turns == old(turns)[|missing|..]
    {
      var k := 0;
      while k < |missing|
        invariant k <= |missing| && |generations| == |old(generations)| + k
        invariant PersistsAll(old(turns), k, stored) && turns == old(turns)[k..]
        invariant known <= events && Sound(generations, events, summarize)
        invariant Took(old(turns), turns, old(events), events)
      {
        ghost var before, channel := events, turns;
        var p := PersistOne(missing[k], known);
        if p.Err? { return Err(p.error); }
        TookThen(old(turns), channel, turns, old(events), before, events);
        k := k + 1;
      }
      r := Ok(true);
    }

    /** One round: persist what is missing and, if anything arrived meanwhile, wait for quiet. */
    method ReconcileRound(missing: seq<Summary>) returns (r: Result<bool, Failure>)
      requires persisting && Sound(generations, events, summarize)
      requires forall i :: 0 <= i < |missing| ==> missing[i].IsAccepted()
      requires |generations| + |missing| == AcceptedCount(events, summarize)
      modifies this`turns, this`events, this`generations
      ensures old(events) <= events && Sound(generations, events, summarize)
      ensures |old(generations)| <= |generations| <= |old(generations)| + |missing|
      ensures r.Ok? <==> Rounds(old(turns), |missing|, stored)
      ensures r.Ok? ==> |generations| == |old(generations)| + |missing| && Took(old(turns), turns, old(events), events)
      ensures r.Ok? ==> |turns| == |old(turns)| - RoundLength(old(turns), |missing|)
    {
      var prior := |events|;
      ghost var known, channel := events, turns;
      r := PersistMissing(missing, events);
      if r.Err? { return; }
      TookNothing(channel, |missing|, known, events);
      if |events| != prior {
        known, channel := events, turns;
        var d := Drain();
        SoundGrows(generations, known, events, summarize);
        if d.Err? { return Err(d.error); }
        TookThen(old(turns), channel, turns, old(events), known, events);
      }
    }

    /** The same, recorded. */
    method Settle(missing: seq<Summary>, ghost path: seq<Progress>)
      returns (r: Result<bool, Failure>, ghost more: seq<Progress>)
      requires persisting && Sound(generations, events, summarize)
      requires forall i :: 0 <= i < |missing| ==> missing[i].IsAccepted()
      requires AreRounds(path, summarize, stored)
      requires var p := path[|path| - 1]; p == Progress(turns, events, |generations|, p.allowance)
      requires 0 < |missing| == Missing(path[|path| - 1], summarize) <= path[|path| - 1].allowance
      modifies this`turns, this`events, this`generations
      ensures old(events) <= events && Sound(generations, events, summarize)
      ensures |old(generations)| <= |generations| <= |old(generations)| + |missing|
      ensures r.Err? ==> Stuck(path[|path| - 1], summarize, stored)
      ensures r.Ok? ==> |generations| == |old(generations)| + |missing|
      ensures r.Ok? ==>
                && AreRounds(more, summarize, stored) && more[0] == path[0]
                && more[|more| - 1] == Progress(turns, events, |generations|, path[|path| - 1].allowance - |missing|)
    {
      ghost var p := path[|path| - 1];
      r := ReconcileRound(missing);
      more := path;
      if r.Ok? {
        ghost var q := Progress(turns, events, |generations|, p.allowance - |missing|);
        RoundTaken(p, q, summarize, stored);
        RoundsExtend(path, q, summarize, stored);
        more := path + [q];
      }
    }

    /** Rounds until nothing is missing, the bound is exceeded or the channel fails. */
    method ReconcileRounds() returns (r: Result<seq<Summary>, Failure>, ghost path: seq<Progress>)
      requires persisting && Sound(generations, events, summarize)
      modifies this`turns, this`events, this`generations
      ensures old(events) <= events && Sound(generations, events, summarize)
      ensures |old(generations)| <= |generations| <= |old(generations)| + 256
      ensures r.Ok? ==> |generations| == AcceptedCount(events, summarize) && r.value == Summaries(events, summarize)
      ensures r.Ok? ==> Took(old(turns), turns, old(events), events)
      ensures AreRounds(path, summarize, stored)
      ensures path[0] == Progress(old(turns), old(events), |old(generations)|, 256)
      ensures r.Ok? ==> path[|path| - 1] == Progress(turns, events, |generations|, path[|path| - 1].allowance)
      ensures r.Err? ==> Stuck(path[|path| - 1], summarize, stored)
      ensures |old(generations)| == AcceptedCount(old(events), summarize) ==>
                r.Ok? && events == old(events) && generations == old(generations)
    {
      var late := 0;
      path := [Progress(turns, events, |generations|, MAXIMUM_LATE_RESULTS)];
      while true
        invariant old(events) <= events && Sound(generations, events, summarize)
        invariant |old(generations)| == AcceptedCount(old(events), summarize) ==>
                    events == old(events) && generations == old(generations)
        invariant late <= MAXIMUM_LATE_RESULTS && |generations| == |old(generations)| + late
        invariant AreRounds(path, summarize, stored)
        invariant path[0] == Progress(old(turns), old(events), |old(generations)|, 256)
        invariant path[|path| - 1] == Progress(turns, events, |generations|, MAXIMUM_LATE_RESULTS - late)
        decreases MAXIMUM_LATE_RESULTS - late
      {
        var accepted := AcceptedSummaries(events, summarize);
        var committed := |generations|;
        if committed > |accepted| { return Err(PublicationExceedsResults), path; }
        if committed == |accepted| {
          RoundsDecide(path, summarize, stored);
          return Ok(Summaries(events, summarize)), path;
        }
        var missing := accepted[committed..];
        if late + |missing| > MAXIMUM_LATE_RESULTS { return Err(LateBoundExceeded), path; }
        late := late + |missing|;
        var p, more := Settle(missing, path);
        if p.Err? { return Err(p.error), path; }
        if |generations| != |accepted| { return Err(NotPublished), path; }
        path := more;
      }
    }

    /**
     * reconcile_match_lockout.  It returns normally only when every accepted
     * result in the whole list has its generation, and it never exports more
     * than the late-result bound.
     */
    method Reconcile() returns (r: Result<seq<Summary>, Failure>)
      requires persisting && Sound(generations, events, summarize)
      modifies this`turns, this`events, this`generations
      ensures old(events) <= events && Sound(generations, events, summarize)
      ensures |old(generations)| <= |generations| <= |old(generations)| + 256
      ensures r.Ok? <==> Settles(Progress(old(turns), old(events), |old(generations)|, 256), summarize, stored)
      ensures r.Ok? ==> |generations| == AcceptedCount(events, summarize) && r.value == Summaries(events, summarize)
      ensures r.Ok? ==> Took(old(turns), turns, old(events), events)
      ensures |old(generations)| == AcceptedCount(old(events), summarize) ==>
                r.Ok? && events == old(events) && generations == old(generations)
    {
      ghost var path;
      r, path := ReconcileRounds();
      LastDecides(path, summarize, stored);
    }

    /** Cancel, then drain if the cancel was accepted. */
    method Cancel() returns (cleanup: bool)
      modifies this`turns, this`events
      ensures old(events) <= events
      ensures cleanup <==> CancelsQuietly(old(turns))
      ensures cleanup ==> Took(old(turns), turns, old(events), events)
      ensures cleanup ==> |turns| == |old(turns)| - Leading(old(turns)[1..]) - 2
    {
      var t := NextTurn();
      if !t.Reply? { return false; }
      events := events + t.callbacks;
      if !t.ok { return false; }
      ghost var channel, known := turns, events;
      TookOne(old(turns), old(events), events);
      var d := Drain();
      if d.Ok? { TookThen(old(turns), channel, turns, old(events), known, events); }
      return d.Ok?;
    }

    /** One post-match inventory command; a late callback belongs to the match stream. */
    method PostMatchCommand() returns (ok: bool)
      modifies this`turns, this`events
      ensures old(events) <= events
      ensures ok <==> old(turns) != [] && old(turns)[0].Reply? && old(turns)[0].ok
      ensures ok ==> turns == old(turns)[1..] && Took(old(turns), turns, old(events), events)
    {
      var t := NextTurn();
      if !t.Reply? || !t.ok { return false; }
      events := events + t.callbacks;
      TookOne(old(turns), old(events), events);
      return true;
    }

    /** The second loop, and what it ended with. */
    method Watch(start: nat, patience: nat)
      returns (handled: nat, last: Verdict, ended: bool, stop: Option<nat>, broken: bool)
      requires Counted(start) && Clean(events, start, summarize, options) && !SomeEnds(events[..start], summarize)
      modifies this`turns, this`events, this`generations
      ensures old(events) <= events && start <= handled <= |events|
      ensures last.PersistFailed? ==> handled > 0
      ensures Counted(if last.PersistFailed? then handled - 1 else handled)
      ensures stop.Some? ==>
                handled > 0 && stop.value == handled - 1 && StopsFirstAt(events, stop.value, summarize, options)
      ensures last.Handled? ==> NoneInvalid(events[..handled], summarize)
      ensures last.Handled? ==> (ended <==> SomeEnds(events[..handled], summarize))
      ensures last.Handled? && stop.None? ==> !SomeStops(events[..handled], summarize, options)
      ensures last.InvalidResult? ==> handled > 0 && summarize(events[handled - 1]).IsInvalid()
      ensures !broken && !last.PersistFailed? ==> Took(old(turns), turns, old(events), events)
      ensures patience == 0 ==>
                && !broken && last.Handled? && handled == start
                && events == old(events) && turns == old(turns) && generations == old(generations)
      ensures !broken && last.Handled? && stop.None? && !ended ==>
                handled - start + Idles(old(turns), turns) >= patience
    {
      handled, last, broken := Observe(start, patience);
      ended, stop := last.Handled? && last.terminal, None;
      if last.Handled? && last.stop { stop := Some(handled - 1); }
    }

    /** Both observation loops; the second runs only if the first neither stopped nor ended. */
    method ObserveAll(patience: nat)
      returns (handled: nat, last: Verdict, ended: bool, stop: Option<nat>, broken: bool)
      requires generations == []
      modifies this`turns, this`events, this`generations
      ensures old(events) <= events && Sound(generations, events, summarize) && handled <= |events|
      ensures stop.Some? ==>
                handled > 0 && stop.value == handled - 1 && StopsFirstAt(events, stop.value, summarize, options)
      ensures last.Handled? ==> NoneInvalid(events[..handled], summarize) && |old(events)| <= handled
      ensures last.Handled? ==> (ended <==> SomeEnds(events[..handled], summarize))
      ensures last.Handled? && stop.None? ==>
                handled == |old(events)| || !SomeStops(events[..handled], summarize, options)
      ensures last.InvalidResult? ==> handled > 0 && summarize(events[handled - 1]).IsInvalid()
      ensures !broken && !last.PersistFailed? ==> Took(old(turns), turns, old(events), events)
      ensures !persisting ==> generations == []
      ensures patience == 0 ==> !broken
      ensures patience == 0 && (!persisting || NoneAccepted(old(events), summarize)) ==>
                events == old(events) && turns == old(turns) && generations == [] && !last.PersistFailed?
      ensures !broken && last.Handled? && stop.None? && !ended && handled > |old(events)| ==>
                handled - |old(events)| + Idles(old(turns), turns) >= patience
    {
      var stopped;
      handled, last, stopped, ended := ObserveInitial();
      stop, broken := None, false;
      if last.Handled? && !stopped && !ended {
        ghost var known, channel := events, turns;
        handled, last, ended, stop, broken := Watch(handled, patience);
        if !broken && !last.PersistFailed? {
          TookOn(old(turns), channel, turns, old(events), known, events);
        }
      }
      SoundPrefix(generations, events, if last.PersistFailed? then handled - 1 else handled, summarize, persisting);
    }

    /** Everything between the observation and the reconciliation. */
    method CleanUp(attested: bool) returns (cleanup: bool, aborted: bool)
      modifies this`turns, this`events
      ensures old(events) <= events && (!attested ==> !aborted)
      ensures cleanup <==> CancelsQuietly(old(turns))
      ensures cleanup && !aborted ==> Took(old(turns), turns, old(events), events)
      ensures cleanup && !attested ==> |turns| == |old(turns)| - Leading(old(turns)[1..]) - 2
    {
      cleanup := Cancel();
      aborted := false;
      if attested {
        ghost var known, channel := events, turns;
        var first := PostMatchCommand();
        var second := false;
        if first {
          ghost var known2, channel2 := events, turns;
          second := PostMatchCommand();
          if second { TookThen(channel, channel2, turns, known, known2, events); }
        }
        aborted := !second;
        if cleanup && second { TookThen(old(turns), channel, turns, old(events), known, events); }
      }
    }

    /**
     * The whole session after an accepted start.  Whatever the interleaving,
     * no generation is ever published without an accepted result received
     * before its export; and a session that reports no failure has kept
     * everything the channel carried, in order, met no invalid result and no
     * end of the operation it did not ask for, and published exactly one
     * generation per accepted result it received.
     */
    method Run(patience: nat, attested: bool, terminated: bool) returns (out: Outcome)
      requires generations == []
      modifies this`turns, this`events, this`generations
      ensures old(events) <= events && Sound(generations, events, summarize)
      ensures out.Finished? && !out.failed ==> Took(old(turns), turns, old(events), events)
      ensures out.Finished? && !out.failed ==>
                && |old(events)| <= out.handled <= |events| && NoneInvalid(events[..out.handled], summarize)
                && (terminated || !SomeEnds(events[..out.handled], summarize))
      ensures out.Finished? && !out.failed && persisting ==> |generations| == AcceptedCount(events, summarize)
      ensures out.Finished? && (!persisting || !out.failed) ==> out.summaries == Summaries(events, summarize)
      ensures out.Finished? && out.stoppedAt.Some? ==> StopsFirstAt(events, out.stoppedAt.value, summarize, options)
      ensures out.Finished? && !out.failed && out.stoppedAt.None? ==>
                out.handled == |old(events)| || !SomeStops(events[..out.handled], summarize, options)
      ensures !persisting ==> generations == []
      ensures patience == 0 && !attested ==> out.Finished?
      ensures patience == 0 && !attested && (!persisting || NoneAccepted(old(events), summarize)) ==>
                (out.failed <==> !ClosesWell(old(turns), old(events), persisting, summarize, stored)
                                 || !NoneInvalid(old(events), summarize)
                                 || (!terminated && SomeEnds(old(events), summarize)))
    {
      var handled, last, ended, stop, cleanup, aborted := ObserveAndCleanUp(patience, attested);
      if aborted { return Aborted; }
      ghost var cleaned, quiet := events, turns;
      out := Conclude(handled, last, ended, stop, cleanup, terminated);
      StopsGrow(cleaned, events, summarize, options);
      assert events[..handled] == cleaned[..handled];
      if !out.failed { TookThen(old(turns), quiet, turns, old(events), cleaned, events); }
      if patience == 0 && !attested && (!persisting || NoneAccepted(old(events), summarize)) {
        PrefixVerdicts(old(events), handled, last, summarize);
        if cleanup { ClosingDecides(old(turns), quiet, old(events), cleaned, persisting, summarize, stored); }
      }
    }

    /** Reconcile, unless an export has failed, and report. */
    method Conclude(handled: nat, last: Verdict, ended: bool, stop: Option<nat>, cleanup: bool, terminated: bool)
      returns (out: Outcome)
      requires Sound(generations, events, summarize) && (!persisting ==> generations == [])
      modifies this`turns, this`events, this`generations
      ensures old(events) <= events && Sound(generations, events, summarize)
      ensures out.Finished? && out.handled == handled && out.stoppedAt == stop
      ensures out.failed <==>
                || !cleanup || !last.Handled? || (ended && !terminated)
                || (persisting
                    && !Settles(Progress(old(turns), old(events), |old(generations)|, 256), summarize, stored))
      ensures !out.failed ==> Took(old(turns), turns, old(events), events)
      ensures !out.failed && persisting ==> |generations| == AcceptedCount(events, summarize)
      ensures !persisting || !out.failed ==> out.summaries == Summaries(events, summarize)
      ensures !persisting ==> generations == []
    {
      var failed := !cleanup || !last.Handled? || (ended && !terminated);
      var summaries := Summaries(events, summarize);
      if persisting && !last.PersistFailed? {
        var r := Reconcile();
        failed := failed || r.Err?;
        if r.Ok? { summaries := r.value; }
      }
      out := Finished(failed, summaries, stop, handled);
    }

    /** Everything before the reconciliation; an aborted session ends there. */
    method ObserveAndCleanUp(patience: nat, attested: bool)
      returns (handled: nat, last: Verdict, ended: bool, stop: Option<nat>, cleanup: bool, aborted: bool)
      requires generations == []
      modifies this`turns, this`events, this`generations
      ensures old(events) <= events && Sound(generations, events, summarize) && handled <= |events|
      ensures stop.Some? ==> StopsFirstAt(events, stop.value, summarize, options)
      ensures last.Handled? ==> NoneInvalid(events[..handled], summarize) && |old(events)| <= handled
      ensures last.Handled? ==> (ended <==> SomeEnds(events[..handled], summarize))
      ensures last.Handled? && stop.None? ==>
                handled == |old(events)| || !SomeStops(events[..handled], summarize, options)
      ensures last.InvalidResult? ==> handled > 0 && summarize(events[handled - 1]).IsInvalid()
      ensures !aborted && cleanup && !last.PersistFailed? ==> Took(old(turns), turns, old(events), events)
      ensures !persisting ==> generations == []
      ensures patience == 0 && !attested ==> !aborted
      ensures patience == 0 && !attested && (!persisting || NoneAccepted(old(events), summarize)) ==>
                && handled <= |old(events)| && !last.PersistFailed? && (cleanup <==> CancelsQuietly(old(turns)))
                && generations == [] && (cleanup ==> |turns| == |old(turns)| - Leading(old(turns)[1..]) - 2)
    {
      handled, last, ended, stop, aborted := ObserveAll(patience);
      cleanup := false;
      if aborted { return; }
      ghost var observed, channel := events, turns;
      cleanup, aborted := CleanUp(attested);
      SoundGrows(generations, observed, events, summarize);
      StopsGrow(observed, events, summarize, options);
      assert events[..handled] == observed[..handled];
      if !aborted && cleanup && !last.PersistFailed? {
        TookThen(old(turns), channel, turns, old(events), observed, events);
      }
    }
  }

  /** With nothing but the start callbacks, the verdict on the whole list is that of the first loop. */
  lemma PrefixVerdicts(events: seq<Value>, handled: nat, last: Verdict, f: Summarizer)
    requires handled <= |events| && !last.PersistFailed?
    requires last.Handled? ==> handled == |events| && NoneInvalid(events[..handled], f)
    requires last.InvalidResult? ==> handled > 0 && f(events[handled - 1]).IsInvalid()
    ensures last.Handled? <==> NoneInvalid(events, f)
    ensures last.Handled? ==> events[..handled] == events
  {
  }

  /**
   * Aborted: a transport error escaped the session. `handled` counts the events that the two
   * observation loops judged; `stoppedAt` is where the second one stopped.
   */
  datatype Outcome = Aborted | Finished(failed: bool, summaries: seq<Summary>, stoppedAt: Option<nat>, handled: nat)

  function AcceptedSummaries(events: seq<Value>, f: Summarizer): (r: seq<Summary>)
    ensures |r| == AcceptedCount(events, f)
    ensures forall i :: 0 <= i < |r| ==> r[i].IsAccepted()
  {
    if events == [] then []
    else
      var last := |events| - 1;
      var s := f(events[last]);
      AcceptedSummaries(events[..last], f) + (if s.IsAccepted() then [s] else [])
  }

  lemma SoundGrows(generations: seq<Generation>, a: seq<Value>, b: seq<Value>, f: Summarizer)
    requires Sound(generations, a, f) && a <= b
    ensures Sound(generations, b, f)
  {
    CoveredGrows(generations, a, b, f);
    CountGrows(a, b, f);
  }

  lemma SoundPrefix(generations: seq<Generation>, events: seq<Value>, n: nat, f: Summarizer, persisting: bool)
    requires n <= |events| && Covered(generations, events, f)
    requires |generations| == if persisting then AcceptedCount(events[..n], f) else 0
    ensures Sound(generations, events, f)
  {
    CountGrows(events[..n], events, f);
  }

  lemma StopsGrow(a: seq<Value>, b: seq<Value>, f: Summarizer, o: Options)
    requires a <= b
    ensures forall k: nat :: StopsFirstAt(a, k, f, o) ==> StopsFirstAt(b, k, f, o)
  {
    forall k: nat | StopsFirstAt(a, k, f, o)
      ensures StopsFirstAt(b, k, f, o)
    {
      assert b[..k + 1] == a[..k + 1] && b[..k] == a[..k];
    }
  }

  datatype Verdict = PersistFailed | InvalidResult | Handled(stop: bool, terminal: bool)

  function Judge(s: Summary, o: Options): Verdict {
    if s.IsInvalid() then InvalidResult else Handled(ShouldStop(s, o), s.IsTerminalStatus())
  }

  predicate NoneInvalid(events: seq<Value>, f: Summarizer) {
    forall i :: 0 <= i < |events| ==> !f(events[i]).IsInvalid()
  }

  predicate NoneAccepted(events: seq<Value>, f: Summarizer) {
    forall i :: 0 <= i < |events| ==> !f(events[i]).IsAccepted()
  }

  predicate SomeStops(events: seq<Value>, f: Summarizer, o: Options) {
    exists i :: 0 <= i < |events| && ShouldStop(f(events[i]), o)
  }

  /** Some status event says that the sensor ended the operation. */
  predicate SomeEnds(events: seq<Value>, f: Summarizer) {
    exists i :: 0 <= i < |events| && f(events[i]).IsTerminalStatus()
  }

  /** The policy runs clean up to event k and stops there for the first time. */
  predicate StopsFirstAt(events: seq<Value>, k: nat, f: Summarizer, o: Options) {
    k < |events| && NoneInvalid(events[..k + 1], f) && !SomeStops(events[..k], f, o)
    && ShouldStop(f(events[k]), o)
  }

  /** The policy neither fails nor stops on the first n events. */
  predicate Clean(events: seq<Value>, n: nat, f: Summarizer, o: Options) {
    n <= |events| && NoneInvalid(events[..n], f) && !SomeStops(events[..n], f, o)
  }

  lemma JudgedPrefix(before: seq<Value>, after: seq<Value>, n: nat, f: Summarizer, o: Options)
    requires before <= after && 0 < n <= |before|
    ensures NoneInvalid(before[..n - 1], f) && !f(after[n - 1]).IsInvalid() ==>
              NoneInvalid(after[..n], f)
    ensures SomeStops(after[..n], f, o) <==>
              SomeStops(before[..n - 1], f, o) || ShouldStop(f(after[n - 1]), o)
  {
    assert after[..n] == before[..n - 1] + [after[n - 1]];
    if SomeStops(before[..n - 1], f, o) {
      var i :| 0 <= i < n - 1 && ShouldStop(f(before[..n - 1][i]), o);
      assert after[..n][i] == before[..n - 1][i];
    }
    if ShouldStop(f(after[n - 1]), o) {
      assert after[..n][n - 1] == after[n - 1];
    }
  }

  lemma EndedPrefix(before: seq<Value>, after: seq<Value>, n: nat, f: Summarizer)
    requires before <= after && 0 < n <= |before|
    ensures SomeEnds(after[..n], f) <==> SomeEnds(before[..n - 1], f) || f(after[n - 1]).IsTerminalStatus()
  {
    assert after[..n] == before[..n - 1] + [after[n - 1]];
    if SomeEnds(before[..n - 1], f) {
      var i :| 0 <= i < n - 1 && f(before[..n - 1][i]).IsTerminalStatus();
      assert after[..n][i] == before[..n - 1][i];
    }
    if f(after[n - 1]).IsTerminalStatus() {
      assert after[..n][n - 1] == after[n - 1];
    }
  }

  lemma CleanStep(before: seq<Value>, after: seq<Value>, n: nat, f: Summarizer, o: Options)
    requires before <= after && n < |before| && Clean(before, n, f, o)
    requires !f(after[n]).IsInvalid()
    ensures if ShouldStop(f(after[n]), o) then StopsFirstAt(after, n, f, o)
            else Clean(after, n + 1, f, o)
  {
    assert after[..n] == before[..n];
    JudgedPrefix(before, after, n + 1, f, o);
  }

  lemma CountStep(before: seq<Value>, after: seq<Value>, handled: nat, f: Summarizer)
    requires before <= after && 0 < handled <= |before|
    ensures after[..handled - 1] == before[..handled - 1] && after[handled - 1] == before[handled - 1]
    ensures AcceptedCount(after[..handled], f) ==
            AcceptedCount(before[..handled - 1], f)
            + (if f(before[handled - 1]).IsAccepted() then 1 else 0)
  {
    assert after[..handled][..handled - 1] == before[..handled - 1];
  }

  /** One handled event keeps every export behind its result. */
  lemma HandledStep(before: seq<Value>, kept: seq<Generation>, after: seq<Value>, now: seq<Generation>,
                    handled: nat, f: Summarizer, published: bool)
    requires before <= after && 0 < handled <= |before|
    requires Covered(kept, before, f)
    requires !published ==> now == kept
    requires published ==> |now| == |kept| + 1 && now[..|kept|] == kept && now[|kept|].received == |before|
                           && f(before[handled - 1]).IsAccepted()
                           && |kept| == AcceptedCount(before[..handled - 1], f)
    ensures Covered(now, after, f)
  {
    CoveredGrows(kept, before, after, f);
    if published {
      CountStep(before, before, handled, f);
      CountGrows(before[..handled], before, f);
      assert after[..|before|] == before;
      assert now == kept + [now[|kept|]];
      CoveredExtends(kept, after, f, now[|kept|]);
    }
  }
}
