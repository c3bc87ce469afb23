/** The worker's stderr pump: lines out of chunks, with an oversized unfinished line dropped. */
module StderrFraming {
  import opened Bytes

  const NEWLINE: byte := 10
  const MAX_PENDING: nat := 65536

  // ------------------------------------------------------ lines of a whole stream

  /** Where the first newline is; the length without one. */
  function FirstNewline(s: bytes): (i: nat)
    ensures i <= |s| && (i < |s| ==> s[i] == NEWLINE) && forall j :: 0 <= j < i ==> s[j] != NEWLINE
  {
    if s == [] || s[0] == NEWLINE then 0 else 1 + FirstNewline(s[1..])
  }

  function Newlines(s: bytes): nat {
    if s == [] then 0 else (if s[0] == NEWLINE then 1 else 0) + Newlines(s[1..])
  }

  /** The newline-terminated lines, without their newlines. */
  function Whole(s: bytes): seq<bytes> {
    var i := FirstNewline(s);
    if i == |s| then [] else [s[..i]] + Whole(s[i + 1..])
  }

  /** What follows the last newline. */
  function Rest(s: bytes): bytes {
    var i := FirstNewline(s);
    if i == |s| then s else Rest(s[i + 1..])
  }

  /** Every line, an unterminated non-empty last one included. */
  function AllLines(s: bytes): seq<bytes> {
    Whole(s) + if Rest(s) == [] then [] else [Rest(s)]
  }

  function Total(lines: seq<bytes>): nat {
    if lines == [] then 0 else |lines[0]| + Total(lines[1..])
  }

  lemma FirstNewlineIs(s: bytes, i: nat)
    requires i < |s| && s[i] == NEWLINE && forall j :: 0 <= j < i ==> s[j] != NEWLINE
    ensures FirstNewline(s) == i
  {
  }

  lemma FirstLineStays(a: bytes, b: bytes)
    requires FirstNewline(a) < |a|
    ensures var i := FirstNewline(a);
            && FirstNewline(a + b) == i && (a + b)[..i] == a[..i] && (a + b)[i + 1..] == a[i + 1..] + b
  {
    FirstNewlineIs(a + b, FirstNewline(a));
  }

  lemma ConsAppend(line: bytes, lines: seq<bytes>, more: seq<bytes>)
    ensures [line] + (lines + more) == ([line] + lines) + more
  {
  }

  /** The first line of a longer stream, and what is left of it. */
  lemma FirstLineOut(a: bytes, b: bytes)
    requires FirstNewline(a) < |a|
    ensures var i := FirstNewline(a);
            && Whole(a) == [a[..i]] + Whole(a[i + 1..]) && Rest(a) == Rest(a[i + 1..])
            && Whole(a + b) == [a[..i]] + Whole(a[i + 1..] + b) && Rest(a + b) == Rest(a[i + 1..] + b)
  {
    FirstLineStays(a, b);
  }

  lemma {:induction false} LinesAppend(a: bytes, b: bytes)
    ensures Whole(a + b) == Whole(a) + Whole(Rest(a) + b)
    ensures Rest(a + b) == Rest(Rest(a) + b)
    decreases |a|
  {
    var i := FirstNewline(a);
    if i < |a| {
      var tail := a[i + 1..];
      FirstLineOut(a, b);
      LinesAppend(tail, b);
      ConsAppend(a[..i], Whole(tail), Whole(Rest(tail) + b));
    }
  }

  lemma {:induction false} NewlinesAppend(a: bytes, b: bytes)
    ensures Newlines(a + b) == Newlines(a) + Newlines(b)
  {
    if a == [] {
      assert a + b == b;
    } else {
      assert (a + b)[1..] == a[1..] + b;
      NewlinesAppend(a[1..], b);
    }
  }

  lemma {:induction false} TotalAppend(a: seq<bytes>, b: seq<bytes>)
    ensures Total(a + b) == Total(a) + Total(b)
  {
    if a == [] {
      assert a + b == b;
    } else {
      assert (a + b)[1..] == a[1..] + b;
      TotalAppend(a[1..], b);
    }
  }

  lemma {:induction false} NoNewline(s: bytes)
    requires forall j :: 0 <= j < |s| ==> s[j] != NEWLINE
    ensures Newlines(s) == 0
  {
    if s != [] {
      NoNewline(s[1..]);
    }
  }

  lemma {:induction false} RestIsUnbroken(s: bytes)
    ensures FirstNewline(Rest(s)) == |Rest(s)| && Newlines(Rest(s)) == 0
    decreases |s|
  {
    var i := FirstNewline(s);
    if i == |s| {
      NoNewline(s);
    } else {
      RestIsUnbroken(s[i + 1..]);
    }
  }

  /** Splitting loses only the newlines. */
  lemma {:induction false} LinesConserve(s: bytes)
    ensures Total(Whole(s)) + Newlines(s) + |Rest(s)| == |s|
    decreases |s|
  {
    var i := FirstNewline(s);
    if i == |s| {
      NoNewline(s);
    } else {
      var line, tail := s[..i], s[i + 1..];
      LinesConserve(tail);
      LineCounts(s);
      assert Whole(s) == [line] + Whole(tail);
      assert Whole(s)[1..] == Whole(tail);
    }
  }

  lemma LineCounts(s: bytes)
    requires FirstNewline(s) < |s|
    ensures Newlines(s) == 1 + Newlines(s[FirstNewline(s) + 1..])
  {
    var i := FirstNewline(s);
    var line, tail := s[..i], s[i..];
    assert s == line + tail;
    NewlinesAppend(line, tail);
    NoNewline(line);
    assert tail[1..] == s[i + 1..];
  }

  // ----------------------------------------------------------------- the pump

  datatype Pump = Pump(handled: seq<bytes>, buffered: bytes, discarded: nat)

  /** One non-empty read: hand over the finished lines, then drop an oversized remainder. */
  function Feed(p: Pump, chunk: bytes): Pump {
    var all := p.buffered + chunk;
    var rest := Rest(all);
    if |rest| > MAX_PENDING then Pump(p.handled + Whole(all), [], p.discarded + |rest|)
    else Pump(p.handled + Whole(all), rest, p.discarded)
  }

  function FeedAll(chunks: seq<bytes>): Pump {
    if chunks == [] then Pump([], [], 0)
    else Feed(FeedAll(chunks[..|chunks| - 1]), chunks[|chunks| - 1])
  }

  /** At end of stream the remainder is one more line. */
  function Finish(p: Pump): seq<bytes> {
    p.handled + if p.buffered == [] then [] else [p.buffered]
  }

  /** The line pending after k chunks fits. */
  predicate Fits(chunks: seq<bytes>, k: nat)
    requires k <= |chunks|
  {
    |Rest(Joined(chunks[..k]))| <= 65536
  }

  /** It fits at every chunk boundary. */
  predicate Bounded(chunks: seq<bytes>) {
    forall k :: 0 <= k <= |chunks| ==> Fits(chunks, k)
  }

  /** Nothing is lost or invented: handled bytes, newlines, buffer and discarded bytes are the stream. */
  lemma {:induction false} PumpConserves(chunks: seq<bytes>)
    ensures var p := FeedAll(chunks);
            && Total(p.handled) + Newlines(Joined(chunks)) + |p.buffered| + p.discarded == |Joined(chunks)|
            && Newlines(p.buffered) == 0
  {
    if chunks != [] {
      var n := |chunks| - 1;
      var p, chunk := FeedAll(chunks[..n]), chunks[n];
      PumpConserves(chunks[..n]);
      JoinedNext(chunks, n);
      assert chunks[..n + 1] == chunks;
      NewlinesAppend(Joined(chunks[..n]), chunk);
      NewlinesAppend(p.buffered, chunk);
      LinesConserve(p.buffered + chunk);
      RestIsUnbroken(p.buffered + chunk);
      TotalAppend(p.handled, Whole(p.buffered + chunk));
    }
  }

  /** Until something is discarded, the pump holds exactly the split of what has been read. */
  lemma {:induction false} PumpSplits(chunks: seq<bytes>)
    ensures FeedAll(chunks).discarded == 0 ==>
              FeedAll(chunks).handled == Whole(Joined(chunks)) && FeedAll(chunks).buffered == Rest(Joined(chunks))
    ensures FeedAll(chunks).discarded == 0 <==> Bounded(chunks)
  {
    if chunks == [] {
      assert chunks[..0] == [];
    } else {
      var n := |chunks| - 1;
      PumpSplits(chunks[..n]);
      JoinedNext(chunks, n);
      assert chunks[..n + 1] == chunks;
      LinesAppend(Joined(chunks[..n]), chunks[n]);
      BoundedNext(chunks);
    }
  }

  lemma BoundedNext(chunks: seq<bytes>)
    requires chunks != []
    ensures Bounded(chunks) <==> Bounded(chunks[..|chunks| - 1]) && Fits(chunks, |chunks|)
  {
    var n := |chunks| - 1;
    forall k | 0 <= k <= n ensures Fits(chunks[..n], k) <==> Fits(chunks, k) {
      assert chunks[..n][..k] == chunks[..k];
    }
    if Bounded(chunks[..n]) && Fits(chunks, |chunks|) {
      forall k | 0 <= k <= |chunks| ensures Fits(chunks, k) {
        if k <= n {
          assert Fits(chunks[..n], k);
        }
      }
    }
    if Bounded(chunks) {
      forall k | 0 <= k <= n ensures Fits(chunks[..n], k) {
        assert Fits(chunks, k);
      }
    }
  }

  /** For a given chunking the handled lines are the split of the stream exactly when the pending line always fits. */
  lemma HandledIsSplitExactly(chunks: seq<bytes>)
    ensures Finish(FeedAll(chunks)) == AllLines(Joined(chunks)) <==> Bounded(chunks)
  {
    var p, s := FeedAll(chunks), Joined(chunks);
    PumpSplits(chunks);
    PumpConserves(chunks);
    LinesConserve(s);
    FinishTotal(p);
    FinishTotal(Pump(Whole(s), Rest(s), 0));
  }

  lemma FinishTotal(p: Pump)
    ensures Total(Finish(p)) == Total(p.handled) + |p.buffered|
  {
    TotalAppend(p.handled, if p.buffered == [] then [] else [p.buffered]);
    if p.buffered != [] {
      assert [p.buffered][1..] == [];
    }
  }

  /** An unfinished line is the start of a line of any longer stream. */
  lemma RestBeginsLine(a: bytes, b: bytes)
    requires Rest(a) != []
    ensures exists line :: line in AllLines(a + b) && Rest(a) <= line
  {
    var r := Rest(a);
    RestIsUnbroken(a);
    LinesAppend(a, b);
    var i := FirstNewline(r + b);
    forall j | 0 <= j < |r| ensures (r + b)[j] != NEWLINE {
      assert (r + b)[j] == r[j];
    }
    var line := (r + b)[..i];
    if i < |r + b| {
      assert Whole(r + b)[0] == line && AllLines(r + b)[0] == Whole(r + b)[0];
    } else {
      assert line == r + b == Rest(r + b) && AllLines(r + b)[0] == line;
    }
    assert r <= line;
    assert line in AllLines(a + b);
  }

  /** When no line exceeds the limit, every chunking hands over the same lines. */
  lemma ShortLinesIgnoreChunks(chunks: seq<bytes>)
    requires forall line :: line in AllLines(Joined(chunks)) ==> |line| <= 65536
    ensures Finish(FeedAll(chunks)) == AllLines(Joined(chunks))
  {
    forall k | 0 <= k <= |chunks| ensures Fits(chunks, k) {
      JoinedSplits(chunks, k, |chunks|);
      assert chunks[..|chunks|] == chunks;
      if Rest(Joined(chunks[..k])) != [] {
        RestBeginsLine(Joined(chunks[..k]), Joined(chunks[k..|chunks|]));
      }
    }
    HandledIsSplitExactly(chunks);
  }

  /** The pump loop: reads until end of stream, cutting at each newline. */
  method PumpStream(chunks: seq<bytes>) returns (handled: seq<bytes>)
    ensures handled == Finish(FeedAll(chunks))
  {
    handled := [];
    var buffered: bytes := [];
    var i := 0;
    while i < |chunks|
      invariant i <= |chunks|
      invariant handled == FeedAll(chunks[..i]).handled && buffered == FeedAll(chunks[..i]).buffered
    {
      ghost var p := FeedAll(chunks[..i]);
      assert chunks[..i + 1][..i] == chunks[..i];
      buffered := buffered + chunks[i];
      handled, buffered := TakeLines(handled, buffered);
      if |buffered| > MAX_PENDING {
        buffered := [];
      }
      i := i + 1;
    }
    assert chunks[..i] == chunks;
    if buffered != [] {
      handled := handled + [buffered];
    }
  }

  lemma SnocAppend(lines: seq<bytes>, line: bytes, more: seq<bytes>)
    ensures lines + ([line] + more) == (lines + [line]) + more
  {
  }

  method TakeLines(handled: seq<bytes>, buffered: bytes) returns (lines: seq<bytes>, rest: bytes)
    ensures lines == handled + Whole(buffered) && rest == Rest(buffered)
  {
    lines, rest := handled, buffered;
    while FirstNewline(rest) < |rest|
      invariant lines + Whole(rest) == handled + Whole(buffered) && Rest(rest) == Rest(buffered)
      decreases |rest|
    {
      var i := FirstNewline(rest);
      SnocAppend(lines, rest[..i], Whole(rest[i + 1..]));
      lines, rest := lines + [rest[..i]], rest[i + 1..];
    }
  }
}
