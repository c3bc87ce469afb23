/**
 * Private match events: the probe's JSON encoding, the replay's decoding, and
 * the re-derivation of a retained public result from the saved events.
 */
module SavedEvidence {
  import opened Wrappers
  import opened Bytes
  import opened WireValues
  import opened MatchEvent
  import opened MatchSession
  import opened ResultValidators

  /** A parsed JSON document.  Dictionaries keep insertion order, which Python's equality ignores. */
  datatype Json =
    | JNull
    | JBool(flag: bool)
    | JInt(number: int)
    | JReal(quantity: real)
    | JStr(text: string)
    | JList(items: seq<Json>)
    | JDict(entries: seq<JEntry>)

  datatype JEntry = JEntry(name: string, value: Json)

  datatype ReplayError =
    | UnsupportedValue
    | MalformedBytes
    | MalformedEvidence
    | CountsDiffer
    | SummaryChanged
    | NotRequiredMatch

  // ------------------------------------------------------------------ hex

  function HexDigit(n: nat): char
    requires n < 16
  {
    "0123456789abcdef"[n]
  }

  function Hex(b: bytes): (s: string)
    ensures |s| == 2 * |b|
  {
    if b == [] then "" else [HexDigit(b[0] / 16), HexDigit(b[0] % 16)] + Hex(b[1..])
  }

  function Nibble(c: char): Option<nat> {
    if '0' <= c <= '9' then Some(c as nat - '0' as nat)
    else if 'a' <= c <= 'f' then Some(c as nat - 'a' as nat + 10)
    else if 'A' <= c <= 'F' then Some(c as nat - 'A' as nat + 10)
    else None
  }

  predicate IsSpace(c: char) {
    c == ' ' || '\t' <= c <= '\r'
  }

  /** bytes.fromhex: digit pairs, with white space allowed between pairs. */
  function FromHex(s: string): Option<bytes>
    decreases |s|
  {
    if s == "" then Some([])
    else if IsSpace(s[0]) then FromHex(s[1..])
    else if |s| < 2 then None
    else
      var hi, lo, rest := Nibble(s[0]), Nibble(s[1]), FromHex(s[2..]);
      if hi.Some? && lo.Some? && rest.Some? && hi.value < 16 && lo.value < 16
      then Some([hi.value * 16 + lo.value] + rest.value) else None
  }

  /** Digits of either case have their value, and the ASCII white space is skipped. */
  lemma NibblesAre(c: char, n: nat)
    requires n < 16
    ensures Nibble(c) == Some(n) <==> c == "0123456789abcdef"[n] || c == "0123456789ABCDEF"[n]
    ensures IsSpace(c) <==> c as int in {9, 10, 11, 12, 13, 32}
  {
    var digits := "0123456789ABCDEF";
    if n < 10 {
      assert digits[n] as int == '0' as int + n;
    } else {
      assert digits[n] as int == 'A' as int + n - 10;
    }
  }

  lemma DigitReadsBack(n: nat)
    requires n < 16
    ensures Nibble(HexDigit(n)) == Some(n) && !IsSpace(HexDigit(n))
  {
  }

  lemma {:induction false} HexReadsBack(b: bytes)
    ensures FromHex(Hex(b)) == Some(b)
  {
    if b != [] {
      DigitReadsBack(b[0] / 16);
      DigitReadsBack(b[0] % 16);
      HexReadsBack(b[1..]);
      assert Hex(b)[2..] == Hex(b[1..]);
      assert b == [b[0]] + b[1..];
    }
  }

  // --------------------------------------------------------------- encode

  /** Assigning into a dictionary: the last value wins, at the first position. */
  function Put(es: seq<JEntry>, name: string, x: Json): seq<JEntry> {
    if es == [] then [JEntry(name, x)]
    else if es[0].name == name then [JEntry(name, x)] + es[1..]
    else [es[0]] + Put(es[1..], name, x)
  }

  function BytesEntries(b: bytes): seq<JEntry> {
    [JEntry("bytes_hex", JStr(Hex(b))), JEntry("length", JInt(|b|))]
  }

  /** private_json_value */
  function Encode(v: Value): Result<Json, ReplayError>
    decreases v, 1
  {
    match v
    case Nil => Ok(JNull)
    case Bool(b) => Ok(JBool(b))
    case Int(i) => Ok(JInt(i))
    case Real(r) => Ok(JReal(r))
    case Str(s) => Ok(JStr(s))
    case ByteString(b) => Ok(JDict(BytesEntries(b)))
    case List(items) => var js :- EncodeAll(items); Ok(JList(js))
    case Tuple(items) => var js :- EncodeAll(items); Ok(JList(js))
    case Dict(entries) => var es :- EncodeEntries(entries); Ok(JDict(es))
    case Unsupported => Err(UnsupportedValue)
  }

  function EncodeAll(vs: seq<Value>): Result<seq<Json>, ReplayError>
    decreases vs, 0
  {
    if vs == [] then Ok([])
    else
      var first :- Encode(vs[0]);
      var rest :- EncodeAll(vs[1..]);
      Ok([first] + rest)
  }

  function EncodeEntries(es: seq<Entry>): Result<seq<JEntry>, ReplayError>
    decreases es, 0
  {
    if es == [] then Ok([])
    else
      var before :- EncodeEntries(es[..|es| - 1]);
      var last :- Encode(es[|es| - 1].value);
      Ok(Put(before, es[|es| - 1].name, last))
  }

  // --------------------------------------------------------------- decode

  /** set(value) == {"bytes_hex", "length"} */
  predicate AreBytesKeys(names: seq<string>) {
    "bytes_hex" in names && "length" in names && forall n :: n in names ==> n == "bytes_hex" || n == "length"
  }

  function JNames(es: seq<JEntry>): (ns: seq<string>)
    ensures |ns| == |es|
  {
    if es == [] then [] else [es[0].name] + JNames(es[1..])
  }

  function Lookup(es: seq<JEntry>, name: string): Json {
    if es == [] then JNull else if es[0].name == name then es[0].value else Lookup(es[1..], name)
  }

  function DecodeBytes(es: seq<JEntry>): Result<Value, ReplayError> {
    var encoded, length := Lookup(es, "bytes_hex"), Lookup(es, "length");
    if !encoded.JStr? || !length.JInt? || length.number < 0 || |encoded.text| != length.number * 2 then
      Err(MalformedBytes)
    else
      var b := FromHex(encoded.text);
      if b.None? || |b.value| != length.number then Err(MalformedBytes) else Ok(ByteString(b.value))
  }

  /** _decode_private_wire_value */
  function Decode(j: Json): Result<Value, ReplayError>
    decreases j, 1
  {
    match j
    case JNull => Ok(Nil)
    case JBool(b) => Ok(Bool(b))
    case JInt(i) => Ok(Int(i))
    case JReal(r) => Ok(Real(r))
    case JStr(s) => Ok(Str(s))
    case JList(items) => var vs :- DecodeAll(items); Ok(List(vs))
    case JDict(entries) =>
      if AreBytesKeys(JNames(entries)) then DecodeBytes(entries)
      else var es :- DecodeEntries(entries); Ok(Dict(es))
  }

  function DecodeAll(js: seq<Json>): Result<seq<Value>, ReplayError>
    decreases js, 0
  {
    if js == [] then Ok([])
    else
      var first :- Decode(js[0]);
      var rest :- DecodeAll(js[1..]);
      Ok([first] + rest)
  }

  function DecodeEntries(es: seq<JEntry>): Result<seq<Entry>, ReplayError>
    decreases es, 0
  {
    if es == [] then Ok([])
    else
      var first :- Decode(es[0].value);
      var rest :- DecodeEntries(es[1..]);
      Ok([Entry(es[0].name, true, first)] + rest)
  }

  // ------------------------------------- what survives, by its own definition

  /** The value up to tuples-as-lists and printed keys. */
  function Normal(v: Value): Value
    decreases v, 1
  {
    match v
    case List(items) => List(NormalAll(items))
    case Tuple(items) => List(NormalAll(items))
    case Dict(entries) => Dict(NormalEntries(entries))
    case _ => v
  }

  function NormalAll(vs: seq<Value>): seq<Value>
    decreases vs, 0
  {
    if vs == [] then [] else [Normal(vs[0])] + NormalAll(vs[1..])
  }

  function NormalEntries(es: seq<Entry>): seq<Entry>
    decreases es, 0
  {
    if es == [] then []
    else Assign(NormalEntries(es[..|es| - 1]), es[|es| - 1].name, Normal(es[|es| - 1].value))
  }

  /** The same dictionary assignment, on wire values. */
  function Assign(es: seq<Entry>, name: string, x: Value): seq<Entry> {
    if es == [] then [Entry(name, true, x)]
    else if es[0].name == name then [Entry(name, true, x)] + es[1..]
    else [es[0]] + Assign(es[1..], name, x)
  }

  /** No dictionary at any depth is keyed exactly bytes_hex and length. */
  predicate Plain(v: Value)
    decreases v, 1
  {
    match v
    case List(items) => PlainAll(items)
    case Tuple(items) => PlainAll(items)
    case Dict(entries) => !AreBytesKeys(Names(entries)) && PlainEntries(entries)
    case _ => true
  }

  predicate PlainAll(vs: seq<Value>)
    decreases vs, 0
  {
    vs == [] || (Plain(vs[0]) && PlainAll(vs[1..]))
  }

  predicate PlainEntries(es: seq<Entry>)
    decreases es, 0
  {
    es == [] || (Plain(es[0].value) && PlainEntries(es[1..]))
  }

  function Names(es: seq<Entry>): seq<string> {
    if es == [] then [] else [es[0].name] + Names(es[1..])
  }

  // ----------------------------------------------------------- round trip

  /** The encoding of a value that is already in normal form. */
  function Raw(v: Value): Json
    decreases v, 1
  {
    match v
    case Nil => JNull
    case Bool(b) => JBool(b)
    case Int(i) => JInt(i)
    case Real(r) => JReal(r)
    case Str(s) => JStr(s)
    case ByteString(b) => JDict(BytesEntries(b))
    case List(items) => JList(RawAll(items))
    case Tuple(items) => JList(RawAll(items))
    case Dict(entries) => JDict(RawEntries(entries))
    case Unsupported => JNull
  }

  function RawAll(vs: seq<Value>): seq<Json>
    decreases vs, 0
  {
    if vs == [] then [] else [Raw(vs[0])] + RawAll(vs[1..])
  }

  function RawEntries(es: seq<Entry>): seq<JEntry>
    decreases es, 0
  {
    if es == [] then [] else [JEntry(es[0].name, Raw(es[0].value))] + RawEntries(es[1..])
  }

  lemma {:induction false} PutMatchesAssign(es: seq<Entry>, name: string, x: Value)
    ensures Put(RawEntries(es), name, Raw(x)) == RawEntries(Assign(es, name, x))
  {
    if es != [] && es[0].name != name {
      PutMatchesAssign(es[1..], name, x);
      assert RawEntries(es)[1..] == RawEntries(es[1..]);
      assert Assign(es, name, x)[1..] == Assign(es[1..], name, x);
    } else if es != [] {
      assert RawEntries(es)[1..] == RawEntries(es[1..]);
      assert Assign(es, name, x)[1..] == es[1..];
    }
  }

  /** Encoding is normalizing, then laying the normal form out. */
  lemma {:induction false} EncodeIsRaw(v: Value)
    requires Encode(v).Ok?
    ensures Encode(v) == Ok(Raw(Normal(v)))
    decreases v, 1
  {
    match v
    case List(items) => EncodeAllIsRaw(items);
    case Tuple(items) => EncodeAllIsRaw(items);
    case Dict(entries) => EncodeEntriesIsRaw(entries);
    case _ =>
  }

  lemma {:induction false} EncodeAllIsRaw(vs: seq<Value>)
    requires EncodeAll(vs).Ok?
    ensures EncodeAll(vs) == Ok(RawAll(NormalAll(vs)))
    decreases vs, 0
  {
    if vs != [] {
      EncodeIsRaw(vs[0]);
      EncodeAllIsRaw(vs[1..]);
      assert NormalAll(vs)[1..] == NormalAll(vs[1..]);
    }
  }

  lemma {:induction false} EncodeEntriesIsRaw(es: seq<Entry>)
    requires EncodeEntries(es).Ok?
    ensures EncodeEntries(es) == Ok(RawEntries(NormalEntries(es)))
    decreases es, 0
  {
    if es != [] {
      var last := |es| - 1;
      EncodeEntriesIsRaw(es[..last]);
      EncodeIsRaw(es[last].value);
      PutMatchesAssign(NormalEntries(es[..last]), es[last].name, Normal(es[last].value));
    }
  }

  /** Already normal: lists only, string keys only, nothing unsupported. */
  predicate IsNormal(v: Value)
    decreases v, 1
  {
    match v
    case List(items) => AllNormal(items)
    case Tuple(_) => false
    case Dict(entries) => EntriesNormal(entries)
    case Unsupported => false
    case _ => true
  }

  predicate AllNormal(vs: seq<Value>)
    decreases vs, 0
  {
    vs == [] || (IsNormal(vs[0]) && AllNormal(vs[1..]))
  }

  predicate EntriesNormal(es: seq<Entry>)
    decreases es, 0
  {
    es == [] || (es[0].textual && IsNormal(es[0].value) && EntriesNormal(es[1..]))
  }

  lemma {:induction false} AssignKeepsNormal(es: seq<Entry>, name: string, x: Value)
    requires EntriesNormal(es) && IsNormal(x)
    ensures EntriesNormal(Assign(es, name, x))
  {
    if es != [] && es[0].name != name {
      AssignKeepsNormal(es[1..], name, x);
      assert Assign(es, name, x)[1..] == Assign(es[1..], name, x);
    } else if es != [] {
      assert Assign(es, name, x)[1..] == es[1..];
    }
  }

  lemma {:induction false} NormalIsNormal(v: Value)
    requires Encode(v).Ok?
    ensures IsNormal(Normal(v))
    decreases v, 1
  {
    match v
    case List(items) => NormalAllIsNormal(items);
    case Tuple(items) => NormalAllIsNormal(items);
    case Dict(entries) => NormalEntriesAreNormal(entries);
    case _ =>
  }

  lemma {:induction false} NormalAllIsNormal(vs: seq<Value>)
    requires EncodeAll(vs).Ok?
    ensures AllNormal(NormalAll(vs)) && |NormalAll(vs)| == |vs|
    decreases vs, 0
  {
    if vs != [] {
      NormalIsNormal(vs[0]);
      NormalAllIsNormal(vs[1..]);
      assert NormalAll(vs)[1..] == NormalAll(vs[1..]);
    }
  }

  lemma {:induction false} NormalEntriesAreNormal(es: seq<Entry>)
    requires EncodeEntries(es).Ok?
    ensures EntriesNormal(NormalEntries(es))
    decreases es, 0
  {
    if es != [] {
      var last := |es| - 1;
      NormalEntriesAreNormal(es[..last]);
      NormalIsNormal(es[last].value);
      AssignKeepsNormal(NormalEntries(es[..last]), es[last].name, Normal(es[last].value));
    }
  }

  lemma {:induction false} RawKeepsNames(es: seq<Entry>)
    ensures JNames(RawEntries(es)) == Names(es)
  {
    if es != [] {
      RawKeepsNames(es[1..]);
      assert RawEntries(es)[1..] == RawEntries(es[1..]);
    }
  }

  lemma BytesReadBack(b: bytes)
    ensures Decode(Raw(ByteString(b))) == Ok(ByteString(b))
  {
    var es := BytesEntries(b);
    HexReadsBack(b);
    assert JNames(es) == ["bytes_hex", "length"] by {
      assert es[1..] == [JEntry("length", JInt(|b|))];
      assert es[1..][1..] == [];
    }
    assert "bytes_hex" in JNames(es) && "length" in JNames(es);
    assert Lookup(es, "length") == JInt(|b|) by {
      assert es[1..][0] == JEntry("length", JInt(|b|));
    }
  }

  /** A laid-out normal form reads back as itself exactly when it is plain. */
  lemma {:induction false} RawReadsBack(v: Value)
    requires IsNormal(v)
    ensures Decode(Raw(v)) == Ok(v) <==> Plain(v)
    decreases v, 1
  {
    match v
    case ByteString(b) => BytesReadBack(b);
    case List(items) => RawAllReadsBack(items);
    case Dict(entries) =>
      RawKeepsNames(entries);
      RawEntriesReadBack(entries);
    case _ =>
  }

  lemma {:induction false} RawAllReadsBack(vs: seq<Value>)
    requires AllNormal(vs)
    ensures DecodeAll(RawAll(vs)) == Ok(vs) <==> PlainAll(vs)
    decreases vs, 0
  {
    if vs != [] {
      RawReadsBack(vs[0]);
      RawAllReadsBack(vs[1..]);
      assert RawAll(vs)[1..] == RawAll(vs[1..]);
      var d := DecodeAll(RawAll(vs));
      if d.Ok? {
        assert d.value[0] == Decode(Raw(vs[0])).value && d.value[1..] == DecodeAll(RawAll(vs[1..])).value;
        assert d.value == vs <==> d.value[0] == vs[0] && d.value[1..] == vs[1..] by {
          assert vs == [vs[0]] + vs[1..] && d.value == [d.value[0]] + d.value[1..];
        }
      }
    }
  }

  lemma {:induction false} RawEntriesReadBack(es: seq<Entry>)
    requires EntriesNormal(es)
    ensures DecodeEntries(RawEntries(es)) == Ok(es) <==> PlainEntries(es)
    decreases es, 0
  {
    if es != [] {
      RawReadsBack(es[0].value);
      RawEntriesReadBack(es[1..]);
      assert RawEntries(es)[1..] == RawEntries(es[1..]);
      var d := DecodeEntries(RawEntries(es));
      if d.Ok? {
        assert d.value[0] == Entry(es[0].name, true, Decode(Raw(es[0].value)).value);
        assert d.value[1..] == DecodeEntries(RawEntries(es[1..])).value;
        assert d.value == es <==> d.value[0] == es[0] && d.value[1..] == es[1..] by {
          assert es == [es[0]] + es[1..] && d.value == [d.value[0]] + d.value[1..];
        }
      }
    }
  }

  /**
   * Decode after encode is the identity, up to tuples-as-lists and printed
   * keys, exactly when the value holds no dictionary keyed bytes_hex and length.
   */
  lemma PrivateEventsRoundTrip(v: Value)
    requires Encode(v).Ok?
    ensures Decode(Encode(v).value) == Ok(Normal(v)) <==> Plain(Normal(v))
  {
    EncodeIsRaw(v);
    NormalIsNormal(v);
    RawReadsBack(Normal(v));
  }

  // ------------------------------------------------------------ re-summary

  /** One entry of the retained public match_events; Foreign is anything that is no summary. */
  datatype Retained = Kept(summary: Summary) | Foreign

  datatype PrivateDocument = PrivateDocument(exactKeys: bool, schema: Json, flags: Json, events: Json)

  predicate HasRequiredField(s: Summary) {
    s.IsResult() && s.body.result.matchesRequired.Some?
  }

  function WithoutRequired(s: Summary): Summary {
    if s.IsResult() then s.(body := MatchResult(s.body.result.(matchesRequired := None))) else s
  }

  /** The comparison of one retained summary with the recomputed one. */
  predicate SameEvidence(retained: Retained, current: Summary) {
    && retained.Kept?
    && retained.summary == if HasRequiredField(retained.summary) then current else WithoutRequired(current)
  }

  /** Only the absence of the required-identity field is forgiven. */
  lemma OnlyRequiredFieldMayDiffer(retained: Retained, current: Summary)
    ensures SameEvidence(retained, current) <==>
              retained == Kept(current) || retained == Kept(WithoutRequired(current))
  {
  }

  function ReplaySelection(user: int, enrolled: seq<bytes>, required: bytes): Selection {
    Selection(enrolled, Some(user), Some(required), Some(required))
  }

  predicate EvidenceWellFormed(doc: PrivateDocument, user: int, enrolled: seq<bytes>, required: bytes) {
    && doc.exactKeys && (doc.schema == JInt(1) || doc.schema == JReal(1.0) || doc.schema == JBool(true))
    && doc.flags.JInt? && doc.events.JList?
    && user >= 0 && enrolled != [] && (forall i :: 0 <= i < |enrolled| ==> |enrolled[i]| == 20)
    && required in enrolled
  }

  /** The evidence demanded: schema 1, whole flags, a list of events, and the required record among exact ones. */
  lemma WellFormedEvidenceIs(keys: bool, schema: Json, flags: Json, events: Json, user: int, enrolled: seq<bytes>,
                             required: bytes)
    ensures EvidenceWellFormed(PrivateDocument(keys, schema, flags, events), user, enrolled, required) <==>
              && keys && schema in {JInt(1), JReal(1.0), JBool(true)}
              && (exists n :: flags == JInt(n)) && events.JList?
              && 0 <= user && required in enrolled && AllRecords(enrolled)
  {
    if flags.JInt? {
      assert flags == JInt(flags.number);
    }
  }

  /** The replay yields these summaries: same count, same evidence, and a required match. */
  predicate Replays(retained: seq<Retained>, events: seq<Value>, f: Summarizer, s: seq<Summary>) {
    && |retained| == |events| && s == Summaries(events, f)
    && (forall i :: 0 <= i < |s| ==> SameEvidence(retained[i], s[i]))
    && RequiredIdentityAccepted(s)
  }

  /** _resummarize_saved_addition_result */
  method Resummarize(retained: seq<Retained>, doc: PrivateDocument, user: int, enrolled: seq<bytes>, required: bytes)
    returns (r: Result<seq<Summary>, ReplayError>)
    ensures r.Ok? <==>
              && EvidenceWellFormed(doc, user, enrolled, required) && Decode(doc.events).Ok?
              && Decode(doc.events).value.List?
              && var events := Decode(doc.events).value.items;
                 var f := By(ReplaySelection(user, enrolled, required));
                 Replays(retained, events, f, Summaries(events, f))
    ensures r.Ok? ==>
              r.value == Summaries(Decode(doc.events).value.items, By(ReplaySelection(user, enrolled, required)))
  {
    if !EvidenceWellFormed(doc, user, enrolled, required) { return Err(MalformedEvidence); }
    var decoded :- Decode(doc.events);
    if !decoded.List? || |decoded.items| != |retained| { return Err(CountsDiffer); }
    var events := decoded.items;
    ghost var f := By(ReplaySelection(user, enrolled, required));
    var recomputed := [];
    var i := 0;
    while i < |events|
      invariant i <= |events| && recomputed == Summaries(events, f)[..i]
    {
      recomputed := recomputed + [Summarize(events[i], ReplaySelection(user, enrolled, required))];
      i := i + 1;
    }
    assert recomputed == Summaries(events, f);
    i := 0;
    while i < |events|
      invariant i <= |events| && forall k :: 0 <= k < i ==> SameEvidence(retained[k], recomputed[k])
    {
      if !SameEvidence(retained[i], recomputed[i]) { return Err(SummaryChanged); }
      i := i + 1;
    }
    if !RequiredIdentityAccepted(recomputed) { return Err(NotRequiredMatch); }
    r := Ok(recomputed);
  }

  lemma {:induction false} NormalAllItems(vs: seq<Value>)
    ensures |NormalAll(vs)| == |vs| && forall i :: 0 <= i < |vs| ==> NormalAll(vs)[i] == Normal(vs[i])
  {
    if vs != [] {
      NormalAllItems(vs[1..]);
    }
  }

  /** The items of a service callback. */
  predicate IsService(items: seq<Value>) {
    |items| == 5 && EqualsNumber(items[0], 9)
  }

  /** No service callback is a tuple, and the status of one survives its encoding. */
  predicate Steady(e: Value) {
    match e
    case List(items) => IsService(items) ==> Normal(items[1]) == items[1]
    case Tuple(items) => !IsService(items)
    case _ => true
  }

  /** What normalizing an event changes, its summary does not see, if and only if the event is steady. */
  lemma SummaryIgnoresNormalizing(e: Value, sel: Selection)
    ensures Summarize(Normal(e), sel) == Summarize(e, sel) <==> Steady(e)
  {
    if e.List? || e.Tuple? {
      var items := if e.List? then e.items else e.elements;
      NormalAllItems(items);
      assert Normal(e) == List(NormalAll(items));
      if IsService(items) {
        NormalKeepsBytes(items[2]);
        ServiceSummaries(items, NormalAll(items), sel);
      }
    }
  }

  lemma NormalKeepsBytes(v: Value)
    ensures Normal(v).ByteString? <==> v.ByteString?
    ensures v.ByteString? ==> Normal(v) == v
  {
  }

  /** Two service callbacks with the same data differ in their summaries exactly by their status. */
  lemma ServiceSummaries(a: seq<Value>, b: seq<Value>, sel: Selection)
    requires IsService(a) && IsService(b)
    requires (a[2].ByteString? || b[2].ByteString?) ==> a[2] == b[2]
    ensures Summarize(List(a), sel) == Summarize(List(b), sel) <==> a[1] == b[1]
  {
  }

  lemma SummariesIgnoreNormalizing(events: seq<Value>, sel: Selection)
    requires forall i :: 0 <= i < |events| ==> Steady(events[i])
    ensures Summaries(NormalAll(events), By(sel)) == Summaries(events, By(sel))
  {
    NormalAllItems(events);
    forall i | 0 <= i < |events| ensures Summarize(NormalAll(events)[i], sel) == Summarize(events[i], sel) {
      SummaryIgnoresNormalizing(events[i], sel);
    }
  }

  /**
   * A genuine run replays: its saved events reproduce its summaries, whether or
   * not the retained copies carried the required-identity field.
   */
  lemma GenuineRunReplays(events: seq<Value>, doc: PrivateDocument, retained: seq<Retained>,
                          user: int, enrolled: seq<bytes>, required: bytes)
    requires Encode(List(events)).Ok? && doc.events == Encode(List(events)).value
    requires Plain(Normal(List(events))) && forall i :: 0 <= i < |events| ==> Steady(events[i])
    requires |retained| == |events|
    requires var s := Summaries(events, By(ReplaySelection(user, enrolled, required)));
             && RequiredIdentityAccepted(s)
             && forall i :: 0 <= i < |s| ==> retained[i] == Kept(s[i]) || retained[i] == Kept(WithoutRequired(s[i]))
    ensures Decode(doc.events) == Ok(List(NormalAll(events))) && doc.events.JList?
    ensures var f := By(ReplaySelection(user, enrolled, required));
            Replays(retained, NormalAll(events), f, Summaries(events, f))
  {
    var sel := ReplaySelection(user, enrolled, required);
    PrivateEventsRoundTrip(List(events));
    NormalAllItems(events);
    SummariesIgnoreNormalizing(events, sel);
    var s := Summaries(events, By(sel));
    forall i | 0 <= i < |s|
      ensures SameEvidence(retained[i], s[i])
    {
      OnlyRequiredFieldMayDiffer(retained[i], s[i]);
    }
  }

  /** Any other difference in a retained summary is rejected. */
  lemma AlteredSummaryIsRejected(events: seq<Value>, retained: seq<Retained>, f: Summarizer, i: nat)
    requires i < |events| && |retained| == |events|
    requires retained[i] != Kept(Summaries(events, f)[i])
    requires retained[i] != Kept(WithoutRequired(Summaries(events, f)[i]))
    ensures !Replays(retained, events, f, Summaries(events, f))
  {
    OnlyRequiredFieldMayDiffer(retained[i], Summaries(events, f)[i]);
  }
}
