/** The per-sender method rate limit, against a limiter that forgets nothing. */
module RateLimiter {

  datatype Call = Call(sender: string, at: real)

  const LIMIT: nat := 8
  const WINDOW: real := 10.0
  const MAX_SENDERS: nat := 64

  /** The stamps less than a window old, in order. */
  function Fresh(stamps: seq<real>, now: real): (r: seq<real>)
    ensures |r| <= |stamps|
  {
    if stamps == [] then []
    else
      var n := |stamps| - 1;
      var rest := Fresh(stamps[..n], now);
      if now - stamps[n] < WINDOW then rest + [stamps[n]] else rest
  }

  function StampsOf(history: seq<Call>, sender: string): (r: seq<real>)
  {
    if history == [] then []
    else
      var n := |history| - 1;
      var rest := StampsOf(history[..n], sender);
      if history[n].sender == sender then rest + [history[n].at] else rest
  }

  /** The full-history decision: fewer than the limit admitted within the last window. */
  predicate Admits(history: seq<Call>, sender: string, now: real) {
    |Fresh(StampsOf(history, sender), now)| < LIMIT
  }

  /** Every call was admitted on the history before it, by a clock that never went back. */
  ghost predicate Admitted(history: seq<Call>) {
    history != [] ==>
      var n := |history| - 1;
      && Admitted(history[..n])
      && Admits(history[..n], history[n].sender, history[n].at)
      && (n > 0 ==> history[n - 1].at <= history[n].at)
  }

  /** Admitted calls of one sender with from <= at < to. */
  function CountIn(history: seq<Call>, sender: string, from: real, to: real): nat {
    if history == [] then 0
    else
      var n := |history| - 1;
      CountIn(history[..n], sender, from, to)
      + if history[n].sender == sender && from <= history[n].at < to then 1 else 0
  }

  lemma {:induction false} FreshAgain(stamps: seq<real>, now: real, later: real)
    requires now <= later
    ensures Fresh(Fresh(stamps, now), later) == Fresh(stamps, later)
  {
    if stamps != [] {
      var n := |stamps| - 1;
      FreshAgain(stamps[..n], now, later);
      FreshAppend(Fresh(stamps[..n], now), stamps[n], later);
    }
  }

  lemma FreshAppend(stamps: seq<real>, stamp: real, now: real)
    ensures Fresh(stamps + [stamp], now)
            == if now - stamp < WINDOW then Fresh(stamps, now) + [stamp] else Fresh(stamps, now)
  {
    assert (stamps + [stamp])[..|stamps|] == stamps;
  }

  lemma {:induction false} NoneFresh(stamps: seq<real>, now: real, later: real)
    requires now <= later && Fresh(stamps, now) == []
    ensures Fresh(stamps, later) == []
  {
    FreshAgain(stamps, now, later);
  }

  /** Calls in a window ending after the last of them are recent at any time inside the window. */
  lemma {:induction false} WindowIsRecent(history: seq<Call>, sender: string, from: real, now: real)
    requires from <= now < from + WINDOW
    ensures CountIn(history, sender, from, from + WINDOW) <= |Fresh(StampsOf(history, sender), now)|
  {
    if history != [] {
      var n := |history| - 1;
      WindowIsRecent(history[..n], sender, from, now);
      if history[n].sender == sender {
        FreshAppend(StampsOf(history[..n], sender), history[n].at, now);
      }
    }
  }

  /** No ten-second window, open at its end, holds more than eight admitted calls of one sender. */
  lemma {:induction false} WindowHoldsAtMostLimit(history: seq<Call>, sender: string, from: real)
    requires Admitted(history)
    ensures CountIn(history, sender, from, from + 10.0) <= 8
  {
    if history != [] {
      var n := |history| - 1;
      if history[n].sender == sender && from <= history[n].at < from + WINDOW {
        WindowIsRecent(history[..n], sender, from, history[n].at);
      } else {
        WindowHoldsAtMostLimit(history[..n], sender, from);
      }
    }
  }

  lemma AdmittedNext(history: seq<Call>, call: Call)
    requires Admitted(history) && Admits(history, call.sender, call.at)
    requires history != [] ==> history[|history| - 1].at <= call.at
    ensures Admitted(history + [call])
  {
    assert (history + [call])[..|history|] == history;
  }

  // --------------------------------------------------------- which windows are bounded

  /** Admitted calls of one sender with from <= at <= to. */
  function CountWithin(history: seq<Call>, sender: string, from: real, to: real): nat {
    if history == [] then 0
    else
      var n := |history| - 1;
      CountWithin(history[..n], sender, from, to)
      + if history[n].sender == sender && from <= history[n].at <= to then 1 else 0
  }

  /** As many calls as the limit allows, at once. */
  function Burst(sender: string, from: real, n: nat): (h: seq<Call>)
    ensures |h| == n && forall i :: 0 <= i < n ==> h[i] == Call(sender, from)
  {
    seq(n, _ => Call(sender, from))
  }

  lemma BurstNext(sender: string, from: real, n: nat)
    ensures Burst(sender, from, n + 1) == Burst(sender, from, n) + [Call(sender, from)]
    ensures Burst(sender, from, n + 1)[..n] == Burst(sender, from, n)
  {
  }

  lemma {:induction false} BurstStamps(sender: string, from: real, n: nat)
    ensures |StampsOf(Burst(sender, from, n), sender)| == n
    ensures Fresh(StampsOf(Burst(sender, from, n), sender), from + WINDOW) == []
  {
    if n > 0 {
      BurstStamps(sender, from, n - 1);
      BurstNext(sender, from, n - 1);
      FreshAppend(StampsOf(Burst(sender, from, n - 1), sender), from, from + WINDOW);
    }
  }

  lemma FewAreAdmitted(history: seq<Call>, sender: string, now: real)
    requires |StampsOf(history, sender)| < LIMIT
    ensures Admits(history, sender, now)
  {
  }

  lemma {:induction false} BurstAdmitted(sender: string, from: real, n: nat)
    requires n <= LIMIT
    ensures Admitted(Burst(sender, from, n))
  {
    if n > 0 {
      var before := Burst(sender, from, n - 1);
      BurstAdmitted(sender, from, n - 1);
      BurstStamps(sender, from, n - 1);
      FewAreAdmitted(before, sender, from);
      AdmittedNext(before, Call(sender, from));
      BurstNext(sender, from, n - 1);
    }
  }

  lemma {:induction false} BurstCounts(sender: string, from: real, n: nat, to: real)
    requires from < to
    ensures CountIn(Burst(sender, from, n), sender, from, to) == n
    ensures CountWithin(Burst(sender, from, n), sender, from, to) == n
  {
    if n > 0 {
      BurstCounts(sender, from, n - 1, to);
      BurstNext(sender, from, n - 1);
    }
  }

  /** A full burst, and one call exactly when it has aged out. */
  function OneTooMany(sender: string, from: real): seq<Call> {
    Burst(sender, from, LIMIT) + [Call(sender, from + WINDOW)]
  }

  lemma OneTooManyAdmitted(sender: string, from: real, to: real)
    requires from + WINDOW <= to
    ensures Admitted(OneTooMany(sender, from))
    ensures CountWithin(OneTooMany(sender, from), sender, from, to) == LIMIT + 1
    ensures from + WINDOW < to ==> CountIn(OneTooMany(sender, from), sender, from, to) == LIMIT + 1
  {
    var burst, h := Burst(sender, from, LIMIT), OneTooMany(sender, from);
    BurstAdmitted(sender, from, LIMIT);
    BurstStamps(sender, from, LIMIT);
    BurstCounts(sender, from, LIMIT, to);
    AdmittedNext(burst, Call(sender, from + WINDOW));
    assert h[..LIMIT] == burst;
  }

  lemma {:induction false} ShorterCounts(history: seq<Call>, sender: string, from: real, to: real)
    ensures to < from + WINDOW ==>
              CountWithin(history, sender, from, to) <= CountIn(history, sender, from, from + WINDOW)
    ensures to <= from + WINDOW ==>
              CountIn(history, sender, from, to) <= CountIn(history, sender, from, from + WINDOW)
  {
    if history != [] {
      ShorterCounts(history[..|history| - 1], sender, from, to);
    }
  }

  ghost predicate ClosedBounded(sender: string, from: real, to: real) {
    forall history | Admitted(history) :: CountWithin(history, sender, from, to) <= 8
  }

  ghost predicate HalfOpenBounded(sender: string, from: real, to: real) {
    forall history | Admitted(history) :: CountIn(history, sender, from, to) <= 8
  }

  /**
   * The exact boundary: every admitted history keeps a closed window to the limit if and only if it
   * is shorter than ten seconds, and a half-open one if and only if it is no longer than that.
   */
  lemma WindowsBoundedExactly(sender: string, from: real, to: real)
    ensures ClosedBounded(sender, from, to) <==> to - from < 10.0
    ensures HalfOpenBounded(sender, from, to) <==> to - from <= 10.0
  {
    forall history | Admitted(history)
      ensures to - from < WINDOW ==> CountWithin(history, sender, from, to) <= LIMIT
      ensures to - from <= WINDOW ==> CountIn(history, sender, from, to) <= LIMIT
    {
      WindowHoldsAtMostLimit(history, sender, from);
      ShorterCounts(history, sender, from, to);
    }
    if to - from >= WINDOW {
      OneTooManyAdmitted(sender, from, to);
    }
  }

  // ------------------------------------------------------------- the facade's limiter

  function Retained(rates: map<string, seq<real>>, sender: string): seq<real> {
    if sender in rates then rates[sender] else []
  }

  /** Retained and admitted stamps leave the same fresh ones. */
  predicate SameFresh(retained: seq<real>, stamps: seq<real>, now: real) {
    Fresh(retained, now) == Fresh(stamps, now)
  }

  /** At this time and any later one, the retained stamps decide like the full history. */
  ghost predicate Agrees(rates: map<string, seq<real>>, history: seq<Call>, clock: real) {
    forall s: string, now: real | clock <= now :: SameFresh(Retained(rates, s), StampsOf(history, s), now)
  }

  lemma PruneOne(retained: seq<real>, stamps: seq<real>, now: real, later: real)
    requires now <= later && Fresh(retained, later) == Fresh(stamps, later)
    ensures Fresh(Fresh(retained, now) + [now], later) == Fresh(stamps + [now], later)
  {
    FreshAgain(retained, now, later);
    FreshAppend(Fresh(retained, now), now, later);
    FreshAppend(stamps, now, later);
  }

  lemma PruneAgrees(rates: map<string, seq<real>>, history: seq<Call>, clock: real, sender: string, now: real)
    requires Agrees(rates, history, clock) && clock <= now
    ensures Agrees(rates[sender := Fresh(Retained(rates, sender), now) + [now]], history + [Call(sender, now)], now)
  {
    var kept := Fresh(Retained(rates, sender), now) + [now];
    var after, more := rates[sender := kept], history + [Call(sender, now)];
    assert more[..|history|] == history;
    forall s: string, later: real | now <= later
      ensures SameFresh(Retained(after, s), StampsOf(more, s), later)
    {
      assert SameFresh(Retained(rates, s), StampsOf(history, s), later);
      if s == sender {
        PruneOne(Retained(rates, s), StampsOf(history, s), now, later);
      }
    }
  }

  lemma AgreesLater(rates: map<string, seq<real>>, history: seq<Call>, clock: real, now: real)
    requires Agrees(rates, history, clock) && clock <= now
    ensures Agrees(rates, history, now)
  {
  }

  lemma EvictAgrees(rates: map<string, seq<real>>, fewer: map<string, seq<real>>, history: seq<Call>, now: real)
    requires Agrees(rates, history, now)
    requires forall s :: s in fewer ==> s in rates && fewer[s] == rates[s]
    requires forall s :: s in rates && s !in fewer ==> Fresh(rates[s], now) == []
    ensures Agrees(fewer, history, now)
  {
    forall s: string, later: real | now <= later
      ensures SameFresh(Retained(fewer, s), StampsOf(history, s), later)
    {
      assert SameFresh(Retained(rates, s), StampsOf(history, s), later);
      if s in rates && s !in fewer {
        NoneFresh(rates[s], now, later);
      }
    }
  }

  lemma {:induction false} NoneFreshMeansExpired(seen: seq<real>, now: real)
    ensures Fresh(seen, now) == [] <==> forall i :: 0 <= i < |seen| ==> !(now - seen[i] < WINDOW)
  {
    if seen != [] {
      var n := |seen| - 1;
      NoneFreshMeansExpired(seen[..n], now);
      assert forall i :: 0 <= i < n ==> seen[..n][i] == seen[i];
    }
  }

  /** Of more than 64 senders only those with a fresh call, and the caller, are remembered. */
  ghost predicate Trims(before: map<string, seq<real>>, after: map<string, seq<real>>, sender: string, now: real) {
    && (forall s :: s in after <==> s in before && (s == sender || |before| <= 64 || Fresh(before[s], now) != []))
    && forall s :: s in after ==> after[s] == before[s]
  }

  class MethodRate {
    var rates: map<string, seq<real>>
    /** Every call ever admitted. */
    ghost var history: seq<Call>
    ghost var clock: real

    ghost predicate Valid()
      reads this
    {
      Admitted(history) && Agrees(rates, history, clock) && (history != [] ==> history[|history| - 1].at <= clock)
    }

    constructor (ghost start: real)
      ensures Valid() && history == [] && rates == map[] && clock == start
    {
      rates, history, clock := map[], [], start;
    }

    /** The decision is the full-history one, whatever was pruned, evicted or rejected before. */
    method RateLimitSender(sender: string, now: real) returns (admitted: bool)
      requires Valid() && clock <= now
      modifies this
      ensures Valid() && clock == now
      ensures admitted <==> Admits(old(history), sender, now)
      ensures history == old(history) + if admitted then [Call(sender, now)] else []
      ensures !admitted ==> rates == old(rates)
      ensures admitted ==>
                Trims(old(rates)[sender := Fresh(Retained(old(rates), sender), now) + [now]], rates, sender, now)
    {
      var stamps := Fresh(Retained(rates, sender), now);
      assert SameFresh(Retained(rates, sender), StampsOf(history, sender), now);
      admitted := |stamps| < LIMIT;
      if admitted {
        PruneAgrees(rates, history, clock, sender, now);
        AdmittedNext(history, Call(sender, now));
        history := history + [Call(sender, now)];
        rates := rates[sender := stamps + [now]];
        Trim(sender, now);
      }
      AgreesLater(rates, history, if admitted then now else clock, now);
      clock := now;
    }

    /** Eviction, once more than the bound are remembered. */
    method Trim(sender: string, now: real)
      requires Agrees(rates, history, now)
      modifies this`rates
      ensures Agrees(rates, history, now) && Trims(old(rates), rates, sender, now)
    {
      if |rates| > MAX_SENDERS {
        Evict(sender, now);
      }
    }

    method Evict(sender: string, now: real)
      requires Agrees(rates, history, now)
      modifies this`rates
      ensures Agrees(rates, history, now)
      ensures forall s :: s in rates <==>
                s in old(rates) && (s == sender || Fresh(old(rates)[s], now) != [])
      ensures forall s :: s in rates ==> rates[s] == old(rates)[s]
    {
      var fewer := map s | s in rates
                          && (s == sender || exists i :: 0 <= i < |rates[s]| && now - rates[s][i] < WINDOW) :: rates[s];
      forall s | s in rates
        ensures s in fewer <==> s == sender || Fresh(rates[s], now) != []
      {
        NoneFreshMeansExpired(rates[s], now);
      }
      EvictAgrees(rates, fewer, history, now);
      rates := fewer;
    }
  }
}
