/**
 * The validators of a finished run's public result, and their agreement with
 * the probe's stop policy.
 */
module ResultValidators {
  import opened Wrappers
  import opened Bytes
  import opened WireValues
  import opened MatchEvent
  import opened MatchSession

  /** --stop-on-match-result --retry-image-quality-no-match */
  const NEGATIVE := Options(true, false, true)
  /** --stop-on-match-success */
  const POSITIVE := Options(false, true, false)

  function By(sel: Selection): Summarizer {
    e => Summarize(e, sel)
  }

  /** The match_result summaries, in order. */
  function Results(s: seq<Summary>): seq<ResultFields> {
    if s == [] then []
    else
      var last := |s| - 1;
      Results(s[..last]) + (if s[last].IsResult() then [s[last].body.result] else [])
  }

  predicate QualityRetry(r: ResultFields) {
    && r.resultValid && r.hostAccepted && r.noMatch == Some(true)
    && r.imageQuality == Some(true) && r.matcher == Some(false) && r.matched == Some(false)
  }

  predicate MatcherNegative(r: ResultFields) {
    && r.resultValid && r.hostAccepted && r.noMatch == Some(true)
    && r.matcher == Some(true) && r.imageQuality != Some(true) && r.matched == Some(false)
  }

  /** _validate_negative_result accepts these match events. */
  predicate NegativeAccepted(s: seq<Summary>) {
    var results := Results(s);
    && results != []
    && (forall i :: 0 <= i < |results| - 1 ==> QualityRetry(results[i]))
    && MatcherNegative(results[|results| - 1])
  }

  predicate NoMatchRetry(r: ResultFields) {
    && r.structureValid && r.resultValid && r.hostAccepted && r.ignored == Some(false) && r.noMatch == Some(true)
    && r.imageQuality.Some? && r.matcher.Some? && (r.imageQuality.value || r.matcher.value)
    && r.matchesEnrolled == Some(false) && r.matched == Some(false)
  }

  predicate RequiredMatch(r: ResultFields) {
    && r.structureValid && r.hostAccepted && r.resultValid && r.ignored == Some(false) && r.noMatch == Some(false)
    && r.matchesEnrolled == Some(true) && r.matched == Some(true) && r.matchesRequired == Some(true)
  }

  /** _required_identity_public_result accepts these match events. */
  predicate RequiredIdentityAccepted(s: seq<Summary>) {
    var results := Results(s);
    && results != []
    && (forall i :: 0 <= i < |results| - 1 ==> NoMatchRetry(results[i]))
    && RequiredMatch(results[|results| - 1])
  }

  // -------------------------------------------------- the list by positions

  /** Position k holds the last result of the list. */
  predicate LastResultAt(s: seq<Summary>, k: nat) {
    k < |s| && s[k].IsResult() && forall i :: k < i < |s| ==> !s[i].IsResult()
  }

  lemma {:induction false} ResultsBefore(s: seq<Summary>, p: ResultFields -> bool)
    ensures (forall i :: 0 <= i < |Results(s)| ==> p(Results(s)[i])) <==>
              (forall i :: 0 <= i < |s| && s[i].IsResult() ==> p(s[i].body.result))
  {
    if s != [] {
      var last := |s| - 1;
      var before := Results(s[..last]);
      ResultsBefore(s[..last], p);
      assert forall i :: 0 <= i < last ==> s[..last][i] == s[i];
      assert forall i :: 0 <= i < |before| ==> before[i] == Results(s)[i];
      assert s[last].IsResult() ==> Results(s)[|before|] == s[last].body.result;
    }
  }

  /** Dropping what follows the last result drops no result. */
  lemma {:induction false} ResultsUpToLast(s: seq<Summary>, k: nat)
    requires LastResultAt(s, k)
    ensures Results(s) == Results(s[..k]) + [s[k].body.result]
  {
    if k + 1 < |s| {
      var shorter := s[..|s| - 1];
      ResultsUpToLast(shorter, k);
      assert shorter[..k] == s[..k];
    }
  }

  lemma {:induction false} SomeResultIsLast(s: seq<Summary>)
    requires Results(s) != []
    ensures exists k: nat :: LastResultAt(s, k)
  {
    var last := |s| - 1;
    if s[last].IsResult() {
      assert LastResultAt(s, last);
    } else {
      SomeResultIsLast(s[..last]);
      var k: nat :| LastResultAt(s[..last], k);
      assert LastResultAt(s, k);
    }
  }

  predicate RetriesThen(s: seq<Summary>, k: nat, p: ResultFields -> bool)
    requires k <= |s|
  {
    forall i :: 0 <= i < k && s[i].IsResult() ==> p(s[i].body.result)
  }

  /** "All but the last satisfy p, the last satisfies q", read off the positions. */
  lemma PrefixThenLast(s: seq<Summary>, k: nat, p: ResultFields -> bool, q: ResultFields -> bool)
    requires LastResultAt(s, k)
    ensures Results(s) != []
    ensures (&& (forall i :: 0 <= i < |Results(s)| - 1 ==> p(Results(s)[i]))
             && q(Results(s)[|Results(s)| - 1]))
            <==> RetriesThen(s, k, p) && q(s[k].body.result)
  {
    ResultsUpToLast(s, k);
    ResultsBefore(s[..k], p);
    assert forall i :: 0 <= i < k ==> s[..k][i] == s[i];
    assert forall i :: 0 <= i < |Results(s)| - 1 ==> Results(s[..k])[i] == Results(s)[i];
  }

  // ------------------------------------------------ agreement with the policy

  /** Every result in the list has flags that some event could have produced. */
  predicate Genuine(s: seq<Summary>) {
    forall i :: 0 <= i < |s| && s[i].IsResult() ==> ConsistentResult(s[i].body.result)
  }

  /** The policy neither fails nor stops before k, and stops at k. */
  predicate PolicyStopsAt(s: seq<Summary>, k: nat, o: Options) {
    && k < |s| && ShouldStop(s[k], o)
    && forall i :: 0 <= i < k ==> !s[i].IsInvalid() && !ShouldStop(s[i], o)
  }

  lemma SummariesAreGenuine(events: seq<Value>, sel: Selection)
    ensures Genuine(Summaries(events, By(sel)))
  {
    forall i | 0 <= i < |events| && Summaries(events, By(sel))[i].IsResult()
      ensures ConsistentResult(Summaries(events, By(sel))[i].body.result)
    {
      SummariesAreConsistent(events[i], sel);
    }
  }

  /** A session that stopped at k did so by this policy. */
  lemma SessionStopIsPolicyStop(events: seq<Value>, k: nat, sel: Selection, o: Options)
    requires StopsFirstAt(events, k, By(sel), o)
    ensures PolicyStopsAt(Summaries(events, By(sel)), k, o)
  {
    forall i | 0 <= i < k
      ensures !Summaries(events, By(sel))[i].IsInvalid() && !ShouldStop(Summaries(events, By(sel))[i], o)
    {
      assert events[..k + 1][i] == events[i] && events[..k][i] == events[i];
    }
  }

  /** The result record that a callback carries behind its header and prefix. */
  function RecordAt(e: Value): bytes {
    if e.List? && |e.items| == 5 && e.items[2].ByteString? && |e.items[2].data| >= 40 then e.items[2].data[40..] else []
  }

  /** The bytes of an exact matcher no-match: no user, and bits 0, 2 and 3 of the flags clear. */
  predicate IsMatcherNoMatch(record: bytes) {
    |record| >= BODY_V1 && U32(record, 0) == NO_USER && (Nibble(record) == 0 || Nibble(record) == 2)
  }

  /** The bytes of a no-match for quality or by the matcher. */
  predicate IsExplainedNoMatch(record: bytes) {
    |record| >= BODY_V1 && U32(record, 0) == NO_USER && Nibble(record) <= 2
  }

  /** The bytes name a user, and begin with the required identity. */
  predicate IsRecordOf(record: bytes, required: Option<bytes>) {
    |record| >= BODY_V1 && U32(record, 0) != NO_USER && required == Some(record[..20])
  }

  /** A valid result says of its record what the record's bytes say. */
  lemma ResultReadsRecord(e: Value, sel: Selection)
    requires Summarize(e, sel).IsResult() && Summarize(e, sel).body.result.structureValid
    ensures |RecordAt(e)| >= BODY_V1 && Describes(Summarize(e, sel).body.result, RecordAt(e), sel)
  {
    ResultImplications(e, sel);
  }

  /** The run the negative control demands: it ended on one exact matcher no-match. */
  predicate EndsOnMatcherNegative(s: seq<Summary>, k: nat) {
    && PolicyStopsAt(s, k, NEGATIVE) && LastResultAt(s, k)
    && s[k].body.result.noMatch == Some(true) && s[k].body.result.matcher == Some(true)
  }

  /** The same, told by the bytes of the event it stopped on. */
  predicate StopsOnNoMatchRecord(events: seq<Value>, k: nat, sel: Selection) {
    var s := Summaries(events, By(sel));
    PolicyStopsAt(s, k, NEGATIVE) && LastResultAt(s, k) && IsMatcherNoMatch(RecordAt(events[k]))
  }

  lemma NegativeByBytes(events: seq<Value>, k: nat, sel: Selection)
    ensures EndsOnMatcherNegative(Summaries(events, By(sel)), k) <==> StopsOnNoMatchRecord(events, k, sel)
  {
    var s := Summaries(events, By(sel));
    if PolicyStopsAt(s, k, NEGATIVE) {
      SummariesAreConsistent(events[k], sel);
      ResultReadsRecord(events[k], sel);
    }
  }

  lemma NegativeAt(s: seq<Summary>, k: nat)
    requires Genuine(s) && LastResultAt(s, k)
    ensures NegativeAccepted(s) <==> EndsOnMatcherNegative(s, k)
  {
    PrefixThenLast(s, k, QualityRetry, MatcherNegative);
  }

  /**
   * The negative validator accepts exactly the runs whose policy ran clean, had
   * its first stop on a matcher no-match, and saw no result after it.
   */
  lemma NegativeAgreesWithPolicy(events: seq<Value>, sel: Selection)
    ensures NegativeAccepted(Summaries(events, By(sel))) <==> exists k: nat :: StopsOnNoMatchRecord(events, k, sel)
  {
    var s := Summaries(events, By(sel));
    SummariesAreGenuine(events, sel);
    if NegativeAccepted(s) {
      SomeResultIsLast(s);
      var k: nat :| LastResultAt(s, k);
      NegativeAt(s, k);
      NegativeByBytes(events, k, sel);
    } else if exists k: nat :: StopsOnNoMatchRecord(events, k, sel) {
      var k: nat :| StopsOnNoMatchRecord(events, k, sel);
      NegativeByBytes(events, k, sel);
      NegativeAt(s, k);
    }
  }

  /** A session that stopped on a matcher no-match and saw no later result passes the negative control. */
  lemma StoppedNegativeSessionPasses(events: seq<Value>, k: nat, sel: Selection)
    requires StopsFirstAt(events, k, By(sel), NEGATIVE) && LastResultAt(Summaries(events, By(sel)), k)
    requires Summaries(events, By(sel))[k].body.result.noMatch == Some(true)
    requires Summaries(events, By(sel))[k].body.result.matcher == Some(true)
    ensures NegativeAccepted(Summaries(events, By(sel)))
  {
    SummariesAreGenuine(events, sel);
    SessionStopIsPolicyStop(events, k, sel, NEGATIVE);
    NegativeAt(Summaries(events, By(sel)), k);
  }

  /** Any result after the first stop, even another matcher no-match, and the validator refuses. */
  lemma LaterResultIsRefused(events: seq<Value>, i: nat, j: nat, sel: Selection)
    requires i < j < |events|
    requires ShouldStop(Summaries(events, By(sel))[i], NEGATIVE) && Summaries(events, By(sel))[j].IsResult()
    ensures !NegativeAccepted(Summaries(events, By(sel)))
  {
    NegativeAgreesWithPolicy(events, sel);
  }

  // ------------------------------------------------------- a run with two stops

  /** The bytes of one exact matcher no-match: no user, no flags. */
  function NoMatchRecord(): (record: bytes)
    ensures |record| == BODY_V1
  {
    [0xFF, 0xFF, 0xFF, 0xFF] + Zeros(BODY_V1 - 4)
  }

  /** The callback that delivers it. */
  function NoMatchEvent(): Value {
    List([Int(9), Int(BRIDGE_SERVICE_STATUS), ByteString(ResultFrame(1, 1, NoMatchRecord())), Nil, Nil])
  }

  lemma NoMatchFields(sel: Selection)
    ensures var r := ResultOf(NoMatchRecord(), true, sel);
            MatcherNegative(r) && r.imageQuality == Some(false)
  {
    var record := NoMatchRecord();
    assert U32(record, 0) == NO_USER && U32(record, 0x14) == 0;
  }

  lemma ServiceSummary(raw: bytes, sel: Selection)
    requires |raw| >= 24
    ensures var s := Summarize(List([Int(9), Int(BRIDGE_SERVICE_STATUS), ByteString(raw), Nil, Nil]), sel);
            s.ServiceEvent? && s.body == BodyOf(Int(BRIDGE_SERVICE_STATUS), raw, sel)
  {
  }

  lemma NoMatchBody(sel: Selection)
    ensures BodyOf(Int(BRIDGE_SERVICE_STATUS), ResultFrame(1, 1, NoMatchRecord()), sel)
            == MatchResult(ResultOf(NoMatchRecord(), true, sel))
  {
    LegalFramesAreAccepted(1, 1, NoMatchRecord());
    FrameIsResult(NoMatchRecord());
  }

  /** Whatever it is validated against, that event stops the negative control on a matcher no-match. */
  lemma NoMatchStops(sel: Selection)
    ensures var s := Summarize(NoMatchEvent(), sel);
            s.IsResult() && MatcherNegative(s.body.result) && !s.IsInvalid() && ShouldStop(s, NEGATIVE)
  {
    ServiceSummary(ResultFrame(1, 1, NoMatchRecord()), sel);
    NoMatchBody(sel);
    NoMatchFields(sel);
  }

  lemma FrameIsResult(record: bytes)
    requires |record| == BODY_V1
    ensures U32(ResultFrame(1, 1, record), 8) == SERVICE_MATCH_RESULT
  {
    var rest := StatusPrefix(|record|) + record;
    assert ResultFrame(1, 1, record) == ServiceHeader(SERVICE_MATCH_RESULT, 1, 1) + rest;
    HeaderFields(SERVICE_MATCH_RESULT, 1, 1, rest);
  }

  /** One such event is accepted, and two are refused. */
  lemma SecondStopIsRefused(sel: Selection)
    ensures NegativeAccepted(Summaries([NoMatchEvent()], By(sel)))
    ensures !NegativeAccepted(Summaries([NoMatchEvent(), NoMatchEvent()], By(sel)))
  {
    var e := NoMatchEvent();
    NoMatchStops(sel);
    assert StopsFirstAt([e], 0, By(sel), NEGATIVE) by {
      assert [e][..0] == [] && [e][..1] == [e];
    }
    StoppedNegativeSessionPasses([e], 0, sel);
    LaterResultIsRefused([e, e], 0, 1, sel);
  }

  /**
   * A session whose start reply carried the event twice, whatever the channel does afterwards: it
   * ends, and its summaries are refused. With the event once they are accepted if nothing else came.
   */
  method NegativeControl(sel: Selection, twice: bool, turns: seq<Turn>, terminated: bool) returns (out: Outcome)
    ensures out.Finished?
    ensures twice ==> !NegativeAccepted(out.summaries)
    ensures !twice && |out.summaries| == 1 ==> NegativeAccepted(out.summaries)
  {
    var e := NoMatchEvent();
    var started := if twice then [e, e] else [e];
    var session := new Session(By(sel), NEGATIVE, false, false, turns, started);
    out := session.Run(0, false, terminated);
    assert started <= session.events && session.events[0] == e;
    NoMatchStops(sel);
    if twice {
      assert session.events[1] == e;
      LaterResultIsRefused(session.events, 0, 1, sel);
    } else if |out.summaries| == 1 {
      assert session.events == [e];
      SecondStopIsRefused(sel);
    }
  }

  /** The required-identity validator against the stop-on-success policy. */
  predicate EndsOnRequiredMatch(s: seq<Summary>, k: nat) {
    && PolicyStopsAt(s, k, POSITIVE) && LastResultAt(s, k)
    && s[k].body.result.matchesRequired == Some(true)
    && forall i :: 0 <= i < k && s[i].IsResult() ==>
         s[i].body.result.imageQuality == Some(true) || s[i].body.result.matcher == Some(true)
  }

  /** The same, told by the bytes of the events. */
  predicate StopsOnRequiredRecord(events: seq<Value>, k: nat, sel: Selection) {
    var s := Summaries(events, By(sel));
    && PolicyStopsAt(s, k, POSITIVE) && LastResultAt(s, k) && IsRecordOf(RecordAt(events[k]), sel.required)
    && forall i :: 0 <= i < k && s[i].IsResult() ==> IsExplainedNoMatch(RecordAt(events[i]))
  }

  /** Before the first stop on success, a valid result is a no-match. */
  lemma RetryByBytes(events: seq<Value>, i: nat, sel: Selection)
    requires i < |events| && Summarize(events[i], sel).IsResult()
    requires !Summarize(events[i], sel).IsInvalid() && !ShouldStop(Summarize(events[i], sel), POSITIVE)
    ensures var r := Summarize(events[i], sel).body.result;
            r.imageQuality == Some(true) || r.matcher == Some(true) <==> IsExplainedNoMatch(RecordAt(events[i]))
  {
    SummariesAreConsistent(events[i], sel);
    ResultReadsRecord(events[i], sel);
  }

  lemma RequiredByBytes(events: seq<Value>, k: nat, sel: Selection)
    ensures EndsOnRequiredMatch(Summaries(events, By(sel)), k) <==> StopsOnRequiredRecord(events, k, sel)
  {
    var s := Summaries(events, By(sel));
    if PolicyStopsAt(s, k, POSITIVE) {
      SummariesAreConsistent(events[k], sel);
      ResultReadsRecord(events[k], sel);
      forall i: nat | i < k && s[i].IsResult()
        ensures s[i].body.result.imageQuality == Some(true) || s[i].body.result.matcher == Some(true)
                <==> IsExplainedNoMatch(RecordAt(events[i]))
      {
        RetryByBytes(events, i, sel);
      }
    }
  }

  lemma RequiredAt(s: seq<Summary>, k: nat)
    requires Genuine(s) && LastResultAt(s, k)
    ensures RequiredIdentityAccepted(s) <==> EndsOnRequiredMatch(s, k)
  {
    PrefixThenLast(s, k, NoMatchRetry, RequiredMatch);
  }

  /**
   * The required-identity validator accepts exactly the runs that first stopped
   * on a match of the required record, after nothing but quality or matcher
   * no-matches, with no result after it.
   */
  lemma RequiredAgreesWithPolicy(events: seq<Value>, sel: Selection)
    ensures RequiredIdentityAccepted(Summaries(events, By(sel))) <==>
              exists k: nat :: StopsOnRequiredRecord(events, k, sel)
  {
    var s := Summaries(events, By(sel));
    SummariesAreGenuine(events, sel);
    if RequiredIdentityAccepted(s) {
      SomeResultIsLast(s);
      var k: nat :| LastResultAt(s, k);
      RequiredAt(s, k);
      RequiredByBytes(events, k, sel);
    } else if exists k: nat :: StopsOnRequiredRecord(events, k, sel) {
      var k: nat :| StopsOnRequiredRecord(events, k, sel);
      RequiredByBytes(events, k, sel);
      RequiredAt(s, k);
    }
  }
}
