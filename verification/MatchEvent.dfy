/**
 * The byte-level summary of one service callback, and the stop policy over
 * summaries.
 */
module MatchEvent {
  import opened Wrappers
  import opened Bytes
  import opened WireValues

  const BRIDGE_SERVICE_STATUS := 0xE3FF8000
  const SERVICE_STATUS := 0xE3FF8001
  const SERVICE_MATCH_RESULT := 0xE3FF8002
  const SERVICE_STATISTICS := 0xE3FF8004
  const SERVICE_SENSOR_RECOVERY := 0xE3FF8009
  const SERVICE_SKS_LOCK_STATE := 0xE3FF800A
  const MAX_EVENT_PAYLOAD := 1024 * 1024
  const BODY_V1 := 0xC84
  const BODY_V2 := 0xC88
  const NO_USER := 0xFFFF_FFFF

  /** The fields of a match_result summary; an absent dictionary key is None. */
  datatype ResultFields = ResultFields(
    structureValid: bool,
    hostAccepted: bool,
    resultValid: bool,
    ignored: Option<bool>,
    noMatch: Option<bool>,
    noMatchReason: Option<nat>,
    imageQuality: Option<bool>,
    matcher: Option<bool>,
    matched: Option<bool>,
    matchesEnrolled: Option<bool>,
    matchesSelected: Option<bool>,
    matchesRequired: Option<bool>)

  datatype Header = Header(commonValid: bool, reservedZero: bool, embeddedType: nat, version: nat, timestamped: bool)

  datatype Body =
    | Status(untrusted: Option<nat>, code: Option<nat>, detailLength: Option<nat>)
    | MatchResult(result: ResultFields)
    | Statistics(recordValid: bool, statistic: Option<nat>)
    | LockState(length: nat, userMatches: Option<bool>)
    | Other

  datatype Summary =
    | UnknownEvent
    | ShortEvent(bridgeStatus: Value, dataLength: Option<nat>)
    | ServiceEvent(bridgeStatus: Value, length: nat, header: Header, body: Body)
  {
    predicate IsResult() {
      ServiceEvent? && body.MatchResult?
    }

    /** event_kind == "match_result" and host_accepted_result is True */
    predicate IsAccepted() {
      IsResult() && body.result.hostAccepted
    }

    /** A result the observation loop treats as a failed validation. */
    predicate IsInvalid() {
      IsResult() && !body.result.resultValid
    }

    /** status_code in MATCH_TERMINAL_STATUS_REASONS */
    predicate IsTerminalStatus() {
      ServiceEvent? && body.Status? && body.code.Some? && 66 <= body.code.value <= 68
    }
  }

  /** What one match request was validated against. */
  datatype Selection = Selection(
    enrolled: seq<bytes>,
    expectedUser: Option<int>,
    selected: Option<bytes>,
    required: Option<bytes>)

  /** parse_service_event succeeds. */
  predicate ParsesCommon(data: bytes) {
    && 24 <= |data| <= 24 + MAX_EVENT_PAYLOAD
    && U64(data, 0) == 0 && U64(data, 16) != 0
    && (U32(data, 8) == SERVICE_STATUS || U32(data, 8) == SERVICE_SENSOR_RECOVERY ==> |data| >= 40)
  }

  predicate Deliverable(status: Value, data: bytes)
    requires |data| >= 24
  {
    ParsesCommon(data) && EqualsNumber(status, BRIDGE_SERVICE_STATUS) && (U32(data, 12) == 1 || U32(data, 12) == 2)
  }

  /** The result record behind the generic 16-byte prefix, or nothing. */
  function ResultData(status: Value, data: bytes): bytes
    requires |data| >= 24
  {
    if Deliverable(status, data) && |data| >= 40
       && U32(data, 24) == 0 && data[28..32] == [0, 0, 0, 0] && U64(data, 32) == |data| - 40
    then data[40..] else []
  }

  /** A legal result record: the fixed body, or the body with its counted LOTL vector. */
  predicate StructureValid(version: nat, record: bytes) {
    if version == 1 then |record| == BODY_V1
    else version == 2 && |record| >= BODY_V2 && |record| == BODY_V2 + 4 * U32(record, BODY_V1)
  }

  function ResultOf(record: bytes, structure: bool, sel: Selection): ResultFields
    requires structure ==> |record| >= BODY_V1
  {
    var blank := ResultFields(structure, false, false, None, None, None, None, None, None, None, None, None);
    if !structure then blank
    else
      var flags := U32(record, 0x14);
      var ignored := HasBit(flags, 0x200);
      if U32(record, 0) == NO_USER then
        var nibble := flags % 16;
        blank.(hostAccepted := true, resultValid := !ignored, ignored := Some(ignored), noMatch := Some(true),
               noMatchReason := Some(if nibble == 1 then 1 else if nibble == 2 || nibble == 3 then 2 else 0),
               imageQuality := Some(nibble == 1),
               matcher := Some(!HasBit(flags, 1) && !HasBit(flags, 4) && !HasBit(flags, 8)),
               matched := Some(false), matchesEnrolled := Some(false))
      else
        var identity := record[..20];
        var expected := sel.expectedUser == Some(Signed32(U32(record, 0))) && identity in sel.enrolled;
        blank.(hostAccepted := expected, resultValid := expected && !ignored, ignored := Some(ignored),
               noMatch := Some(false), matched := Some(expected && !ignored), matchesEnrolled := Some(expected),
               matchesSelected := (if sel.selected.Some? && |sel.selected.value| == 20
                                   then Some(identity == sel.selected.value) else None),
               matchesRequired := (if sel.required.Some? then Some(identity == sel.required.value) else None))
  }

  function BodyOf(status: Value, data: bytes, sel: Selection): Body
    requires |data| >= 24
  {
    var detail := data[24..];
    var kind := U32(data, 8);
    if kind == SERVICE_STATUS then
      var valid := Deliverable(status, data) && |detail| >= 16 && U64(detail, 8) == |detail| - 16;
      Status(if |detail| >= 4 then Some(U32(detail, 0)) else None,
             if valid then Some(U32(detail, 0)) else None,
             if |detail| >= 16 then Some(U64(detail, 8)) else None)
    else if kind == SERVICE_MATCH_RESULT then
      var record := ResultData(status, data);
      MatchResult(ResultOf(record, StructureValid(U32(data, 12), record), sel))
    else if kind == SERVICE_STATISTICS then
      if |detail| >= 28 && U64(detail, 8) == |detail| - 16 then Statistics(true, Some(U32(detail, 16)))
      else Statistics(false, None)
    else if kind == SERVICE_SKS_LOCK_STATE then
      LockState(|detail|, if sel.expectedUser.Some? && |detail| >= 4
                          then Some(U32(detail, 0) == sel.expectedUser.value) else None)
    else Other
  }

  /** summarize_event */
  function Summarize(payload: Value, sel: Selection): Summary {
    if payload.List? && |payload.items| == 5 && EqualsNumber(payload.items[0], 9) then
      var status, data := payload.items[1], payload.items[2];
      if data.ByteString? && |data.data| >= 24 then
        var raw := data.data;
        ServiceEvent(status, |raw|,
                     Header(ParsesCommon(raw), U64(raw, 0) == 0, U32(raw, 8), U32(raw, 12), U64(raw, 16) > 0),
                     BodyOf(status, raw, sel))
      else ShortEvent(status, if data.ByteString? then Some(|data.data|) else None)
    else UnknownEvent
  }

  // ------------------------------------------------ exact structure, both ways

  function ServiceHeader(kind: nat, version: nat, timestamp: nat): (h: bytes)
    requires kind < 0x1_0000_0000 && version < 0x1_0000_0000 && timestamp < 0x1_0000_0000_0000_0000
    ensures |h| == 24
  {
    LE64(0) + LE32(kind) + LE32(version) + LE64(timestamp)
  }

  function StatusPrefix(length: nat): (p: bytes)
    requires length < 0x1_0000_0000
    ensures |p| == 16
  {
    LE32(0) + [0, 0, 0, 0] + LE64(length)
  }

  /** How the sensor lays out a match-result event. */
  function ResultFrame(version: nat, timestamp: nat, record: bytes): (f: bytes)
    requires version < 0x1_0000_0000 && timestamp < 0x1_0000_0000_0000_0000 && |record| < 0x1_0000_0000
    ensures |f| == 40 + |record|
  {
    ServiceHeader(SERVICE_MATCH_RESULT, version, timestamp) + StatusPrefix(|record|) + record
  }

  lemma HeaderFields(kind: nat, version: nat, timestamp: nat, rest: bytes)
    requires kind < 0x1_0000_0000 && version < 0x1_0000_0000 && timestamp < 0x1_0000_0000_0000_0000
    ensures var f := ServiceHeader(kind, version, timestamp) + rest;
            && U64(f, 0) == 0 && U32(f, 8) == kind && U32(f, 12) == version && U64(f, 16) == timestamp
  {
    var a, b, c, d := LE64(0), LE32(kind), LE32(version), LE64(timestamp);
    var f := ServiceHeader(kind, version, timestamp) + rest;
    assert f == [] + a + (b + c + d + rest);
    ReadLE64([], 0, b + c + d + rest);
    assert f == a + b + (c + d + rest);
    ReadLE32(a, kind, c + d + rest);
    assert f == (a + b) + c + (d + rest);
    ReadLE32(a + b, version, d + rest);
    assert f == (a + b + c) + d + rest;
    ReadLE64(a + b + c, timestamp, rest);
  }

  lemma PrefixFields(head: bytes, record: bytes)
    requires |head| == 24 && |record| < 0x1_0000_0000
    ensures var f := head + StatusPrefix(|record|) + record;
            && U32(f, 24) == 0 && f[28..32] == [0, 0, 0, 0] && U64(f, 32) == |record| && f[40..] == record
  {
    var f := head + StatusPrefix(|record|) + record;
    var zero: bytes := [0, 0, 0, 0];
    assert f == head + LE32(0) + (zero + LE64(|record|) + record);
    ReadLE32(head, 0, zero + LE64(|record|) + record);
    assert f == (head + LE32(0) + zero) + LE64(|record|) + record;
    ReadLE64(head + LE32(0) + zero, |record|, record);
  }

  /** The legal records: a fixed body, alone or followed by a counted vector of words, which may be empty. */
  lemma LegalRecordsAre(body: bytes, count: nat, vector: bytes)
    requires |body| == 0xC84 && count < 0x1_0000_0000
    ensures StructureValid(1, body)
    ensures StructureValid(2, body + LE32(count) + vector) <==> |vector| == 4 * count
  {
    ReadLE32(body, count, vector);
  }

  /** The common parser takes every framed payload that fits, if status and recovery events hold a whole prefix. */
  lemma CommonFramesParse(kind: nat, version: nat, timestamp: nat, payload: bytes)
    requires kind < 0x1_0000_0000 && version < 0x1_0000_0000 && timestamp < 0x1_0000_0000_0000_0000
    ensures ParsesCommon(ServiceHeader(kind, version, timestamp) + payload) <==>
              && timestamp != 0 && |payload| <= 1048576
              && (kind == 0xE3FF8001 || kind == 0xE3FF8009 ==> |payload| >= 16)
  {
    HeaderFields(kind, version, timestamp, payload);
  }

  /** The parser accepts every legal frame and finds its record. */
  lemma LegalFramesAreAccepted(version: nat, timestamp: nat, record: bytes)
    requires timestamp < 0x1_0000_0000_0000_0000 && timestamp != 0
    requires StructureValid(version, record) && |record| + 16 <= MAX_EVENT_PAYLOAD
    ensures var f := ResultFrame(version, timestamp, record);
            ResultData(Int(BRIDGE_SERVICE_STATUS), f) == record && StructureValid(U32(f, 12), record)
  {
    var head := ServiceHeader(SERVICE_MATCH_RESULT, version, timestamp);
    var f := ResultFrame(version, timestamp, record);
    assert f == head + (StatusPrefix(|record|) + record);
    HeaderFields(SERVICE_MATCH_RESULT, version, timestamp, StatusPrefix(|record|) + record);
    PrefixFields(head, record);
  }

  /** data is the frame of this legal record under its own version and timestamp. */
  predicate IsFrameOf(data: bytes, record: bytes) {
    && |data| == 40 + |record| && |record| < 0x1_0000_0000
    && StructureValid(U32(data, 12), record)
    && U64(data, 16) != 0
    && data == ResultFrame(U32(data, 12), U64(data, 16), record)
  }

  lemma HeaderRebuilt(data: bytes)
    requires |data| >= 24 && U64(data, 0) == 0
    ensures data[..24] == ServiceHeader(U32(data, 8), U32(data, 12), U64(data, 16))
  {
    WriteU64(data, 0);
    WriteU32(data, 8);
    WriteU32(data, 12);
    WriteU64(data, 16);
    assert data[..24] == data[0..8] + data[8..12] + data[12..16] + data[16..24];
  }

  lemma PrefixRebuilt(data: bytes)
    requires 40 <= |data| < 0x1_0000_0000
    requires U32(data, 24) == 0 && data[28..32] == [0, 0, 0, 0] && U64(data, 32) == |data| - 40
    ensures data[24..40] == StatusPrefix(|data| - 40)
  {
    WriteU32(data, 24);
    WriteU64(data, 32);
    assert data[24..40] == data[24..28] + data[28..32] + data[32..40];
  }

  /** ... and it accepts nothing else: an accepted event is the frame of a legal record. */
  lemma AcceptedEventsAreFrames(status: Value, data: bytes)
    requires |data| >= 24 && U32(data, 8) == SERVICE_MATCH_RESULT
    requires StructureValid(U32(data, 12), ResultData(status, data))
    ensures IsFrameOf(data, ResultData(status, data)) && EqualsNumber(status, BRIDGE_SERVICE_STATUS)
  {
    HeaderRebuilt(data);
    PrefixRebuilt(data);
    assert data == data[..24] + data[24..40] + data[40..];
  }

  /** The implications among the flags of one result. */
  predicate ConsistentResult(r: ResultFields) {
    && (r.matched == Some(true) ==> r.resultValid)
    && (r.resultValid ==> r.hostAccepted)
    && (r.hostAccepted ==> r.structureValid)
    && (r.resultValid ==> (r.matched == Some(true) <==> r.noMatch != Some(true)))
    && !(r.matched == Some(true) && r.noMatch == Some(true))
    && (r.noMatch == Some(true) ==> r.matched == Some(false))
    && (r.noMatch == Some(true) && r.imageQuality == Some(true) ==> r.matcher == Some(false))
    && (r.noMatch == Some(true) ==> r.imageQuality.Some? && r.matcher.Some? && r.matchesEnrolled == Some(false))
    && (r.matched == Some(true) ==> r.noMatch == Some(false) && r.matchesEnrolled == Some(true))
    && (r.resultValid ==> r.ignored == Some(false))
  }

  /** 1 in the low nibble sets the lowest bit of the 0x0D mask. */
  lemma QualityExcludesMatcher(flags: nat)
    requires flags % 16 == 1
    ensures HasBit(flags, 1)
  {
    var half := 8 * (flags / 16);
    assert flags / 1 == flags && flags == 2 * half + 1;
  }

  lemma ResultsAreConsistent(record: bytes, structure: bool, sel: Selection)
    requires structure ==> |record| >= BODY_V1
    ensures ConsistentResult(ResultOf(record, structure, sel))
  {
    if structure && U32(record, 0x14) % 16 == 1 { QualityExcludesMatcher(U32(record, 0x14)); }
  }

  lemma SummariesAreConsistent(payload: Value, sel: Selection)
    requires Summarize(payload, sel).IsResult()
    ensures ConsistentResult(Summarize(payload, sel).body.result)
  {
    var data := payload.items[2].data;
    var record := ResultData(payload.items[1], data);
    ResultsAreConsistent(record, StructureValid(U32(data, 12), record), sel);
  }

  /** When a result in this record counts as a match. */
  predicate NamesEnrolledUser(record: bytes, sel: Selection)
    requires |record| >= BODY_V1
  {
    && U32(record, 0) != NO_USER
    && sel.expectedUser == Some(Signed32(U32(record, 0)))
    && record[..20] in sel.enrolled
    && !HasBit(U32(record, 0x14), 0x200)
  }

  // ------------------------------------------------- the fields, from the record's bytes

  /** The low nibble of the flag byte, and the ignored bit one byte further. */
  function Nibble(record: bytes): nat
    requires |record| >= BODY_V1
  {
    record[0x14] % 16
  }

  predicate MarkedIgnored(record: bytes)
    requires |record| >= BODY_V1
  {
    record[0x15] / 2 % 2 == 1
  }

  lemma Rest16(q: nat, r: nat)
    requires r < 16
    ensures (16 * q + r) % 16 == r
  {
  }

  lemma Rest2(q: nat, r: nat)
    requires r < 2
    ensures (2 * q + r) % 2 == r
  {
  }

  lemma Quotient512(q: nat, r: nat)
    requires r < 0x200
    ensures (0x200 * q + r) / 0x200 == q
  {
  }

  lemma LowNibble(low: nat, high: nat)
    ensures (low + 16 * high) % 16 == low % 16 && (low + 16 * high) % 2 == low % 2
  {
    Rest16(low / 16 + high, low % 16);
    assert low + 16 * high == 16 * (low / 16 + high) + low % 16;
    Rest2(low / 2 + 8 * high, low % 2);
    assert low + 16 * high == 2 * (low / 2 + 8 * high) + low % 2;
  }

  lemma Quotient4(q: nat, r: nat)
    requires r < 4
    ensures (4 * q + r) / 4 == q
  {
  }

  lemma Quotient8(q: nat, r: nat)
    requires r < 8
    ensures (8 * q + r) / 8 == q
  {
  }

  lemma LowBit4(low: nat, high: nat)
    ensures (low + 16 * high) / 4 % 2 == low / 4 % 2
  {
    Quotient4(low / 4 + 4 * high, low % 4);
    assert low + 16 * high == 4 * (low / 4 + 4 * high) + low % 4;
    Rest2(low / 8 + 2 * high, low / 4 % 2);
    assert low / 4 + 4 * high == 2 * (low / 8 + 2 * high) + low / 4 % 2;
  }

  lemma LowBit8(low: nat, high: nat)
    ensures (low + 16 * high) / 8 % 2 == low / 8 % 2
  {
    Quotient8(low / 8 + 2 * high, low % 8);
    assert low + 16 * high == 8 * (low / 8 + 2 * high) + low % 8;
    Rest2(low / 16 + high, low / 8 % 2);
    assert low / 8 + 2 * high == 2 * (low / 16 + high) + low / 8 % 2;
  }

  lemma IgnoredBit(w: byte, x: byte, high: nat)
    ensures (w + 0x100 * x + 0x1_0000 * high) / 0x200 % 2 == x / 2 % 2
  {
    var q, r := x / 2 + 0x80 * high, 0x100 * (x % 2) + w;
    assert w + 0x100 * x + 0x1_0000 * high == 0x200 * q + r;
    Quotient512(q, r);
    Rest2(x / 4 + 0x40 * high, x / 2 % 2);
    assert q == 2 * (x / 4 + 0x40 * high) + x / 2 % 2;
  }

  lemma FlagBits(w: byte, x: byte, y: byte, z: byte)
    ensures var flags := w + 0x100 * x + 0x1_0000 * y + 0x100_0000 * z;
            && flags % 16 == w % 16 && HasBit(flags, 1) == (w % 2 == 1)
            && HasBit(flags, 4) == (w / 4 % 2 == 1) && HasBit(flags, 8) == (w / 8 % 2 == 1)
            && HasBit(flags, 0x200) == (x / 2 % 2 == 1)
  {
    var high := 0x10 * x + 0x1000 * y + 0x10_0000 * z;
    LowNibble(w, high);
    LowBit4(w, high);
    LowBit8(w, high);
    IgnoredBit(w, x, y + 0x100 * z);
  }

  /** Bits 0, 2 and 3 of a nibble are all clear in 0 and 2 only. */
  lemma NibbleMask(n: nat)
    requires n < 16
    ensures n % 2 != 1 && n / 4 % 2 != 1 && n / 8 % 2 != 1 <==> n == 0 || n == 2
  {
    if n < 4 {
      assert n / 4 == 0;
    } else if n < 8 {
      assert n / 4 == 1;
    } else {
      assert n / 8 == 1;
    }
  }

  lemma MatcherMask(w: byte)
    ensures w % 2 != 1 && w / 4 % 2 != 1 && w / 8 % 2 != 1 <==> w % 16 == 0 || w % 16 == 2
  {
    var n, q := w % 16, w / 16;
    assert w == n + 16 * q;
    LowNibble(n, q);
    LowBit4(n, q);
    LowBit8(n, q);
    NibbleMask(n);
  }

  /** A record without a user: what kind of no-match it is. */
  predicate DescribesNoMatch(r: ResultFields, record: bytes)
    requires |record| >= BODY_V1
  {
    && r.noMatch == Some(true) && r.matched == Some(false) && r.matchesEnrolled == Some(false)
    && r.hostAccepted && r.resultValid == !MarkedIgnored(record)
    && r.imageQuality == Some(Nibble(record) == 1)
    && r.matcher == Some(Nibble(record) == 0 || Nibble(record) == 2)
    && r.noMatchReason == Some(match Nibble(record) case 1 => 1 case 2 => 2 case 3 => 2 case _ => 0)
    && r.matchesSelected.None? && r.matchesRequired.None?
  }

  /** A record with a user: whose it is, and whether it is the selected and the required one. */
  predicate DescribesIdentity(r: ResultFields, record: bytes, sel: Selection)
    requires |record| >= BODY_V1
  {
    var expected := sel.expectedUser == Some(Signed32(U32(record, 0))) && record[..20] in sel.enrolled;
    && r.noMatch == Some(false) && r.matchesEnrolled == Some(expected) && r.hostAccepted == expected
    && r.resultValid == (expected && !MarkedIgnored(record)) && r.matched == Some(expected && !MarkedIgnored(record))
    && r.imageQuality.None? && r.matcher.None? && r.noMatchReason.None?
    && (sel.required.Some? ==> r.matchesRequired == Some(record[..20] == sel.required.value))
    && (sel.required.None? ==> r.matchesRequired.None?)
    && (sel.selected.Some? && |sel.selected.value| == 20 ==>
          r.matchesSelected == Some(record[..20] == sel.selected.value))
    && (!(sel.selected.Some? && |sel.selected.value| == 20) ==> r.matchesSelected.None?)
  }

  predicate Describes(r: ResultFields, record: bytes, sel: Selection)
    requires |record| >= BODY_V1
  {
    && r.ignored == Some(MarkedIgnored(record))
    && if U32(record, 0) == NO_USER then DescribesNoMatch(r, record) else DescribesIdentity(r, record, sel)
  }

  lemma FieldsFromBytes(record: bytes, sel: Selection)
    requires |record| >= BODY_V1
    ensures Describes(ResultOf(record, true, sel), record, sel)
  {
    FlagBits(record[0x14], record[0x15], record[0x16], record[0x17]);
    MatcherMask(record[0x14]);
  }

  /**
   * For every payload: matched implies valid implies accepted implies exact
   * structure; a match and a no-match exclude each other; a result is a match
   * exactly when its record names the expected user, is enrolled, and is not
   * marked ignored; and every field says what the record's bytes say.
   */
  lemma ResultImplications(payload: Value, sel: Selection)
    requires Summarize(payload, sel).IsResult()
    ensures ConsistentResult(Summarize(payload, sel).body.result)
    ensures payload.List? && |payload.items| == 5 && payload.items[2].ByteString? && |payload.items[2].data| >= 24
    ensures EqualsNumber(payload.items[0], 9) && U32(payload.items[2].data, 8) == 0xE3FF8002
    ensures var r, data := Summarize(payload, sel).body.result, payload.items[2].data;
            r.structureValid ==>
              && EqualsNumber(payload.items[1], 0xE3FF8000) && U64(data, 0) == 0 && U64(data, 16) != 0
              && if U32(data, 12) == 1 then |data| == 40 + 0xC84
                 else U32(data, 12) == 2 && |data| >= 40 + 0xC88 && |data| == 40 + 0xC88 + 4 * U32(data[40..], 0xC84)
    ensures var r, data := Summarize(payload, sel).body.result, payload.items[2].data;
            if r.structureValid then
              && |data| >= 40 && IsFrameOf(data, data[40..])
              && (r.matched == Some(true) <==> NamesEnrolledUser(data[40..], sel))
              && Describes(r, data[40..], sel)
            else r.matched.None? && r.noMatch.None? && !r.hostAccepted && !r.resultValid
  {
    SummariesAreConsistent(payload, sel);
    var status, data := payload.items[1], payload.items[2].data;
    if StructureValid(U32(data, 12), ResultData(status, data)) {
      AcceptedEventsAreFrames(status, data);
      assert ResultData(status, data) == data[40..];
      FieldsFromBytes(data[40..], sel);
    }
  }

  // ---------------------------------------------------------------- status events

  /** How the sensor lays out a status event: its code, four bytes of padding, and its counted detail. */
  function StatusFrame(version: nat, timestamp: nat, code: nat, padding: bytes, detail: bytes): (f: bytes)
    requires version < 0x1_0000_0000 && timestamp < 0x1_0000_0000_0000_0000 && code < 0x1_0000_0000
    requires |padding| == 4 && |detail| < 0x1_0000_0000
    ensures |f| == 40 + |detail|
  {
    ServiceHeader(SERVICE_STATUS, version, timestamp) + LE32(code) + padding + LE64(|detail|) + detail
  }

  /** What follows the header of a status event. */
  function StatusDetail(code: nat, padding: bytes, detail: bytes): (d: bytes)
    requires code < 0x1_0000_0000 && |padding| == 4 && |detail| < 0x1_0000_0000
    ensures |d| == 16 + |detail|
  {
    LE32(code) + padding + LE64(|detail|) + detail
  }

  lemma DetailFields(code: nat, padding: bytes, detail: bytes)
    requires code < 0x1_0000_0000 && |padding| == 4 && |detail| < 0x1_0000_0000
    ensures var d := StatusDetail(code, padding, detail); U32(d, 0) == code && U64(d, 8) == |detail|
  {
    var d := StatusDetail(code, padding, detail);
    assert d == [] + LE32(code) + (padding + LE64(|detail|) + detail);
    ReadLE32([], code, padding + LE64(|detail|) + detail);
    assert d == (LE32(code) + padding) + LE64(|detail|) + detail;
    ReadLE64(LE32(code) + padding, |detail|, detail);
  }

  /** A delivered status frame tells its code; the code 66, 67 or 68 ends the operation. */
  lemma StatusIsRead(version: nat, timestamp: nat, code: nat, padding: bytes, detail: bytes, sel: Selection)
    requires (version == 1 || version == 2) && 0 < timestamp < 0x1_0000_0000_0000_0000 && code < 0x1_0000_0000
    requires |padding| == 4 && |detail| + 16 <= MAX_EVENT_PAYLOAD
    ensures BodyOf(Int(BRIDGE_SERVICE_STATUS), StatusFrame(version, timestamp, code, padding, detail), sel)
            == Status(Some(code), Some(code), Some(|detail|))
  {
    var head, d := ServiceHeader(SERVICE_STATUS, version, timestamp), StatusDetail(code, padding, detail);
    var f := StatusFrame(version, timestamp, code, padding, detail);
    assert f == head + d;
    HeaderFields(SERVICE_STATUS, version, timestamp, d);
    assert f[24..] == d;
    DetailFields(code, padding, detail);
    StatusBody(f, d, sel);
  }

  /** An event is told with its header whatever follows, and an unchecked code as soon as there is one. */
  lemma HeadersAreTold(status: Value, kind: nat, version: nat, timestamp: nat, payload: bytes, fourth: Value,
                       fifth: Value, sel: Selection)
    requires kind < 0x1_0000_0000 && version < 0x1_0000_0000 && timestamp < 0x1_0000_0000_0000_0000
    ensures var f := ServiceHeader(kind, version, timestamp) + payload;
            && Summarize(List([Int(9), status, ByteString(f), fourth, fifth]), sel)
               == ServiceEvent(status, 24 + |payload|,
                               Header(ParsesCommon(f), true, kind, version, timestamp > 0), BodyOf(status, f, sel))
            && (kind == 0xE3FF8001 ==>
                  && BodyOf(status, f, sel).Status?
                  && BodyOf(status, f, sel).untrusted
                     == if |payload| >= 4 then Some(U32(payload, 0)) else None)
  {
    var f := ServiceHeader(kind, version, timestamp) + payload;
    HeaderFields(kind, version, timestamp, payload);
    assert f[24..] == payload;
  }

  /** The codes that end an operation. */
  lemma TerminalCodesAre(status: Value, length: nat, header: Header, body: Body)
    ensures ServiceEvent(status, length, header, body).IsTerminalStatus() <==>
              body.Status? && body.code in {Some(66), Some(67), Some(68)}
  {
  }

  /** A statistics event tells the first word behind its counted prefix, if a word and a value are there. */
  lemma StatisticsAreRead(version: nat, timestamp: nat, prefix: bytes, statistic: nat, rest: bytes, status: Value,
                          sel: Selection)
    requires version < 0x1_0000_0000 && timestamp < 0x1_0000_0000_0000_0000 && statistic < 0x1_0000_0000
    requires |prefix| == 16
    ensures BodyOf(status, ServiceHeader(0xE3FF8004, version, timestamp) + (prefix + LE32(statistic) + rest), sel)
            == if |rest| >= 8 && U64(prefix, 8) == |rest| + 4 then Statistics(true, Some(statistic))
               else Statistics(false, None)
  {
    var detail := prefix + LE32(statistic) + rest;
    var f := ServiceHeader(0xE3FF8004, version, timestamp) + detail;
    HeaderFields(0xE3FF8004, version, timestamp, detail);
    assert f[24..] == detail;
    ReadLE32(prefix, statistic, rest);
    assert U64(detail, 8) == U64(prefix, 8);
  }

  /** A lock-state event tells whether its first word is the expected user. */
  lemma LockStateIsRead(version: nat, timestamp: nat, user: nat, rest: bytes, status: Value, sel: Selection)
    requires version < 0x1_0000_0000 && timestamp < 0x1_0000_0000_0000_0000 && user < 0x1_0000_0000
    ensures BodyOf(status, ServiceHeader(0xE3FF800A, version, timestamp) + (LE32(user) + rest), sel)
            == LockState(4 + |rest|, if sel.expectedUser.Some? then Some(sel.expectedUser.value == user) else None)
  {
    var detail := LE32(user) + rest;
    var f := ServiceHeader(0xE3FF800A, version, timestamp) + detail;
    HeaderFields(0xE3FF800A, version, timestamp, detail);
    assert f[24..] == detail;
    assert detail == [] + LE32(user) + rest;
    ReadLE32([], user, rest);
  }

  lemma StatusBody(f: bytes, d: bytes, sel: Selection)
    requires 40 <= |f| <= 24 + MAX_EVENT_PAYLOAD && d == f[24..]
    requires U64(f, 0) == 0 && U32(f, 8) == SERVICE_STATUS && U64(f, 16) != 0 && (U32(f, 12) == 1 || U32(f, 12) == 2)
    requires U64(d, 8) == |d| - 16
    ensures BodyOf(Int(BRIDGE_SERVICE_STATUS), f, sel) == Status(Some(U32(d, 0)), Some(U32(d, 0)), Some(|d| - 16))
  {
  }

  /** A code is told only by an event that is such a frame. */
  lemma StatusCodesAreGenuine(status: Value, data: bytes, sel: Selection)
    requires |data| >= 24 && BodyOf(status, data, sel).Status? && BodyOf(status, data, sel).code.Some?
    ensures var code := BodyOf(status, data, sel).code.value;
            && |data| >= 40 && (U32(data, 12) == 1 || U32(data, 12) == 2) && U64(data, 16) != 0
            && |data| - 40 < 0x1_0000_0000 && EqualsNumber(status, BRIDGE_SERVICE_STATUS)
            && data == StatusFrame(U32(data, 12), U64(data, 16), code, data[28..32], data[40..])
  {
    var code := BodyOf(status, data, sel).code.value;
    HeaderRebuilt(data);
    assert U32(data[24..], 0) == U32(data, 24) && U64(data[24..], 8) == U64(data, 32);
    WriteU32(data, 24);
    WriteU64(data, 32);
    assert data == data[..24] + data[24..28] + data[28..32] + data[32..40] + data[40..];
  }

  // ------------------------------------------------------------ stop policy

  datatype Options = Options(stopOnResult: bool, stopOnSuccess: bool, retryQuality: bool)

  /** match_observation_should_stop */
  predicate ShouldStop(s: Summary, o: Options) {
    && (o.stopOnResult || o.stopOnSuccess)
    && s.IsResult() && s.body.result.resultValid
    && (|| s.body.result.matched == Some(true)
        || (o.stopOnResult && s.body.result.noMatch == Some(true)
            && !(o.retryQuality && s.body.result.imageQuality == Some(true))))
  }

  /** The policy by option: success stops under either, a no-match under the first alone unless it is to be retried. */
  lemma PolicyByOption(s: Summary, retry: bool)
    ensures !ShouldStop(s, Options(false, false, retry))
    ensures ShouldStop(s, Options(false, true, retry)) <==>
              s.IsResult() && s.body.result.resultValid && s.body.result.matched == Some(true)
    ensures forall both: bool ::
              ShouldStop(s, Options(true, both, false)) <==>
                s.IsResult() && s.body.result.resultValid
                && (s.body.result.matched == Some(true) || s.body.result.noMatch == Some(true))
    ensures s.IsResult() && s.body.result.matched != Some(true) && s.body.result.imageQuality == Some(true) ==>
              forall both: bool :: !ShouldStop(s, Options(true, both, true))
    ensures s.IsResult() && s.body.result.imageQuality != Some(true) ==>
              forall both: bool :: ShouldStop(s, Options(true, both, true)) == ShouldStop(s, Options(true, both, false))
  {
  }
}
