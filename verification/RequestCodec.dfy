/** The two request builders: fixed buffers written at computed offsets, and their inverses. */
module RequestCodec {
  import opened Wrappers
  import opened Bytes

  // -------------------------------------------------------- buffer writes

  function Splice(s: bytes, at: nat, b: bytes): (r: bytes)
    requires at + |b| <= |s|
    ensures |r| == |s|
  {
    s[..at] + b + s[at + |b|..]
  }

  /** memcpy into the buffer; every write is in bounds and nothing else moves. */
  method WriteBytes(a: array<byte>, at: nat, b: bytes)
    requires at + |b| <= a.Length
    modifies a
    ensures a[..] == Splice(old(a[..]), at, b)
  {
    var i := 0;
    while i < |b|
      invariant i <= |b|
      invariant a[at..at + i] == b[..i]
      invariant a[..at] == old(a[..at]) && a[at + i..] == old(a[at + i..])
    {
      a[at + i] := b[i];
      i := i + 1;
    }
    assert a[..] == a[..at] + a[at..at + |b|] + a[at + |b|..];
  }

  /** put_le32: four byte stores. */
  method PutLE32(a: array<byte>, at: nat, v: nat)
    requires at + 4 <= a.Length && v < 0x1_0000_0000
    modifies a
    ensures a[..] == Splice(old(a[..]), at, LE32(v))
  {
    a[at] := v % 0x100;
    a[at + 1] := v / 0x100 % 0x100;
    a[at + 2] := v / 0x1_0000 % 0x100;
    a[at + 3] := v / 0x100_0000;
    assert a[..] == a[..at] + a[at..at + 4] + a[at + 4..];
  }

  /** put_le64: two put_le32. */
  method PutLE64(a: array<byte>, at: nat, v: nat)
    requires at + 8 <= a.Length && v < 0x1_0000_0000_0000_0000
    modifies a
    ensures a[..] == Splice(old(a[..]), at, LE64(v))
  {
    PutLE32(a, at, v % 0x1_0000_0000);
    PutLE32(a, at + 4, v / 0x1_0000_0000);
    assert a[..] == Splice(old(a[..]), at, LE64(v));
  }

  /** The buffer holds what has been written so far, then zeros. */
  ghost predicate Filled(s: bytes, written: bytes) {
    |written| <= |s| && s == written + Zeros(|s| - |written|)
  }

  /** Writing at the edge of the zero-filled remainder extends the written prefix. */
  lemma FillNext(s: bytes, p: bytes, b: bytes, t: bytes)
    requires Filled(s, p) && |p| + |b| <= |s| && t == Splice(s, |p|, b)
    ensures Filled(t, p + b)
  {
    assert s[..|p|] == p;
    assert s[|p| + |b|..] == Zeros(|s| - |p| - |b|);
  }

  /** The next bytes are meant to be zero: they already are. */
  lemma FillZeros(s: bytes, p: bytes, n: nat)
    requires Filled(s, p) && |p| + n <= |s|
    ensures Filled(s, p + Zeros(n))
  {
  }

  // ---------------------------------------- password verification (selector 42)

  datatype PasswordRequest = PasswordRequest(session: nat, handle: nat, secret: bytes, context: Option<bytes>)

  /** The argument types of the C function: a 64-bit session, a 32-bit handle, a 16-byte context. */
  predicate PasswordTyped(q: PasswordRequest) {
    && q.session < 0x1_0000_0000_0000_0000 && q.handle < 0x1_0000_0000
    && (q.context.Some? ==> |q.context.value| == 16)
  }

  predicate PasswordAccepted(q: PasswordRequest) {
    1 <= |q.secret| <= 128 && q.handle != 0
  }

  /** (n + 3) & ~3 */
  function Padded(n: nat): (p: nat)
    ensures n <= p < n + 4 && p % 4 == 0
  {
    (n + 3) / 4 * 4
  }

  function ContextBytes(q: PasswordRequest): bytes {
    if q.context.Some? then q.context.value else []
  }

  function PasswordLength(q: PasswordRequest): nat {
    32 + Padded(|q.secret|) + |ContextBytes(q)|
  }

  function PasswordHead(q: PasswordRequest): (h: bytes)
    requires PasswordTyped(q) && PasswordAccepted(q)
    ensures |h| == 20
  {
    LE32(1) + LE64(q.session) + LE32(q.handle) + LE32(|q.secret|)
  }

  function PasswordTail(q: PasswordRequest): (t: bytes)
    requires PasswordTyped(q)
    ensures |t| == 12 + |ContextBytes(q)|
  {
    LE32(|ContextBytes(q)|) + ContextBytes(q) + LE64(0x200)
  }

  function PasswordLayout(q: PasswordRequest): (b: bytes)
    requires PasswordTyped(q) && PasswordAccepted(q)
    ensures |b| == PasswordLength(q)
  {
    PasswordHead(q) + q.secret + Zeros(Padded(|q.secret|) - |q.secret|) + PasswordTail(q)
  }

  /** Version, session, handle and secret length. */
  method PutPasswordHead(request: array<byte>, q: PasswordRequest)
    requires PasswordTyped(q) && PasswordAccepted(q) && request.Length >= 20
    requires Filled(request[..], [])
    modifies request
    ensures Filled(request[..], PasswordHead(q))
  {
    ghost var s0 := request[..];
    PutLE32(request, 0, 1);
    ghost var s1 := request[..];
    FillNext(s0, [], LE32(1), s1);
    PutLE64(request, 4, q.session);
    ghost var s2 := request[..];
    ghost var p1 := [] + LE32(1);
    FillNext(s1, p1, LE64(q.session), s2);
    PutLE32(request, 12, q.handle);
    ghost var s3 := request[..];
    ghost var p2 := p1 + LE64(q.session);
    FillNext(s2, p2, LE32(q.handle), s3);
    PutLE32(request, 16, |q.secret|);
    ghost var p3 := p2 + LE32(q.handle);
    FillNext(s3, p3, LE32(|q.secret|), request[..]);
    assert p1 == LE32(1);
  }

  /** Context length, context and the plaintext-secret option. */
  method PutPasswordTail(request: array<byte>, at: nat, q: PasswordRequest, ghost p: bytes)
    requires PasswordTyped(q) && request.Length == at + 12 + |ContextBytes(q)|
    requires |p| == at && Filled(request[..], p)
    modifies request
    ensures request[..] == p + PasswordTail(q)
  {
    var context := ContextBytes(q);
    ghost var s0 := request[..];
    PutLE32(request, at, |context|);
    ghost var s1 := request[..];
    FillNext(s0, p, LE32(|context|), s1);
    WriteBytes(request, at + 4, context);
    ghost var s2 := request[..];
    ghost var p1 := p + LE32(|context|);
    FillNext(s1, p1, context, s2);
    PutLE64(request, at + 4 + |context|, 0x200);
    ghost var p2 := p1 + context;
    FillNext(s2, p2, LE64(0x200), request[..]);
    assert request[..] == p2 + LE64(0x200);
  }

  method BuildVerifyPassword(q: PasswordRequest) returns (r: Option<array<byte>>)
    requires PasswordTyped(q)
    ensures r.Some? <==> PasswordAccepted(q)
    ensures r.Some? ==> fresh(r.value) && r.value[..] == PasswordLayout(q)
  {
    if |q.secret| == 0 || |q.secret| > 128 || q.handle == 0 { return None; }
    var padded := Padded(|q.secret|);
    var request := new byte[PasswordLength(q)](_ => 0);
    PutPasswordHead(request, q);
    ghost var s := request[..];
    WriteBytes(request, 20, q.secret);
    FillNext(s, PasswordHead(q), q.secret, request[..]);
    ghost var p := PasswordHead(q) + q.secret;
    FillZeros(request[..], p, padded - |q.secret|);
    PutPasswordTail(request, 20 + padded, q, p + Zeros(padded - |q.secret|));
    r := Some(request);
  }

  /** Reads a request back field by field, checking every length against the buffer. */
  function ReadPassword(b: bytes): Option<PasswordRequest> {
    if |b| < 36 || U32(b, 0) != 1 then None
    else
      var n := U32(b, 16);
      if n == 0 || n > 128 || |b| < 32 + Padded(n) then None
      else
        var c := U32(b, 20 + Padded(n));
        if |b| != 32 + Padded(n) + c || (c != 0 && c != 16) || U64(b, 24 + Padded(n) + c) != 0x200 then None
        else
          Some(PasswordRequest(U64(b, 4), U32(b, 12), b[20..20 + n],
                               if c == 0 then None else Some(b[24 + Padded(n)..24 + Padded(n) + c])))
  }

  lemma ReadsPast32(pre: bytes, b: bytes, at: nat)
    requires at + 4 <= |b|
    ensures U32(pre + b, |pre| + at) == U32(b, at)
  {
  }

  lemma ReadsPast64(pre: bytes, b: bytes, at: nat)
    requires at + 8 <= |b|
    ensures U64(pre + b, |pre| + at) == U64(b, at)
  {
    ReadsPast32(pre, b, at);
    ReadsPast32(pre, b, at + 4);
  }

  lemma PasswordTailReads(q: PasswordRequest)
    requires PasswordTyped(q)
    ensures U32(PasswordTail(q), 0) == |ContextBytes(q)|
    ensures PasswordTail(q)[4..4 + |ContextBytes(q)|] == ContextBytes(q)
    ensures U64(PasswordTail(q), 4 + |ContextBytes(q)|) == 0x200
  {
    var c := ContextBytes(q);
    assert PasswordTail(q) == [] + LE32(|c|) + (c + LE64(0x200));
    ReadLE32([], |c|, c + LE64(0x200));
    assert PasswordTail(q) == LE32(|c|) + c + LE64(0x200) + [];
    ReadLE64(LE32(|c|) + c, 0x200, []);
  }

  lemma PasswordBodyReads(q: PasswordRequest)
    requires PasswordTyped(q) && PasswordAccepted(q)
    ensures var b, p, c := PasswordLayout(q), Padded(|q.secret|), |ContextBytes(q)|;
            && b[20..20 + |q.secret|] == q.secret
            && U32(b, 20 + p) == c
            && b[24 + p..24 + p + c] == ContextBytes(q)
            && U64(b, 24 + p + c) == 0x200
  {
    var b, p, c := PasswordLayout(q), Padded(|q.secret|), |ContextBytes(q)|;
    var pre := PasswordHead(q) + q.secret + Zeros(p - |q.secret|);
    PasswordTailReads(q);
    var tail := PasswordTail(q);
    assert b == pre + tail && |pre| == 20 + p;
    ReadsPast32(pre, tail, 0);
    ReadsPast64(pre, tail, 4 + c);
    assert b[24 + p..24 + p + c] == tail[4..4 + c];
  }

  lemma PasswordHeadReads(q: PasswordRequest)
    requires PasswordTyped(q) && PasswordAccepted(q)
    ensures var b := PasswordLayout(q);
            U32(b, 0) == 1 && U64(b, 4) == q.session && U32(b, 12) == q.handle && U32(b, 16) == |q.secret|
  {
    var v, s, h, n := LE32(1), LE64(q.session), LE32(q.handle), LE32(|q.secret|);
    var tail := q.secret + Zeros(Padded(|q.secret|) - |q.secret|) + PasswordTail(q);
    var b := v + s + h + n + tail;
    assert PasswordLayout(q) == b;
    assert b == [] + v + (s + h + n + tail);
    ReadLE32([], 1, s + h + n + tail);
    assert b == v + s + (h + n + tail);
    ReadLE64(v, q.session, h + n + tail);
    assert b == (v + s) + h + (n + tail);
    ReadLE32(v + s, q.handle, n + tail);
    ReadLE32(v + s + h, |q.secret|, tail);
  }

  /** Every accepted request decodes back to its session, handle, secret and context. */
  lemma PasswordReadsBack(q: PasswordRequest)
    requires PasswordTyped(q) && PasswordAccepted(q)
    ensures ReadPassword(PasswordLayout(q)) == Some(q)
  {
    PasswordHeadReads(q);
    PasswordBodyReads(q);
    ReadsFields(PasswordLayout(q), q);
  }

  lemma ReadsFields(b: bytes, q: PasswordRequest)
    requires PasswordTyped(q) && PasswordAccepted(q) && |b| == PasswordLength(q)
    requires U32(b, 0) == 1 && U64(b, 4) == q.session && U32(b, 12) == q.handle && U32(b, 16) == |q.secret|
    requires b[20..20 + |q.secret|] == q.secret
    requires var p, c := Padded(|q.secret|), |ContextBytes(q)|;
             && U32(b, 20 + p) == c
             && b[24 + p..24 + p + c] == ContextBytes(q)
             && U64(b, 24 + p + c) == 0x200
    ensures ReadPassword(b) == Some(q)
  {
  }

  // ------------------------------------------------------- match request

  const FOR_CREDENTIAL_SET: nat := 0x8
  const SELECTED_IDENTITIES: nat := 0x4000

  datatype MatchRequest = MatchRequest(flags: int, user: int, credential: Option<bytes>, records: Option<seq<bytes>>)

  datatype BuildError = ScalarInvalid | CredentialLengthInvalid | RecordsInvalid | CountOverflows

  datatype Built = Built(payload: bytes, flags: nat, count: nat)

  predicate Word(x: int) {
    0 <= x < 0x1_0000_0000
  }

  predicate CredentialFits(q: MatchRequest) {
    q.credential.Some? ==> 1 <= |q.credential.value| <= 56
  }

  predicate RecordsFit(q: MatchRequest) {
    q.records.Some? ==> |q.records.value| > 0 && AllRecords(q.records.value)
  }

  predicate CountFits(q: MatchRequest) {
    q.records.Some? ==> |q.records.value| < 0x1_0000_0000
  }

  /** The first check that fails, in the order the builder makes them. */
  function BuildFailure(q: MatchRequest): Option<BuildError> {
    if !Word(q.user) || !Word(q.flags) then Some(ScalarInvalid)
    else if !CredentialFits(q) then Some(CredentialLengthInvalid)
    else if !RecordsFit(q) then Some(RecordsInvalid)
    else if !CountFits(q) then Some(CountOverflows)
    else None
  }

  predicate Buildable(q: MatchRequest) {
    BuildFailure(q).None?
  }

  function SentFlags(base: nat, credential: bool, records: bool): (f: nat)
    requires Word(base)
    ensures Word(f)
  {
    SetBitKeepsWord(base, FOR_CREDENTIAL_SET);
    var withCredential := if credential then WithBit(base, FOR_CREDENTIAL_SET) else base;
    SetBitKeepsWord(withCredential, SELECTED_IDENTITIES);
    if records then WithBit(withCredential, SELECTED_IDENTITIES) else withCredential
  }

  function Credential(q: MatchRequest): bytes {
    if q.credential.Some? then q.credential.value else []
  }

  function MatchHeader(flags: nat, user: nat, credential: bytes): (h: bytes)
    requires Word(flags) && Word(user) && |credential| <= 56
    ensures |h| == 68
  {
    LE32(flags) + LE32(user) + LE32(|credential|) + credential + Zeros(56 - |credential|)
  }

  function MatchLayout(q: MatchRequest): (b: bytes)
    requires Buildable(q)
    ensures |b| == if q.records.None? then 68 else 72 + 20 * |q.records.value|
  {
    var header := MatchHeader(SentFlags(q.flags, q.credential.Some?, q.records.Some?), q.user, Credential(q));
    if q.records.None? then header
    else
      JoinedLength(q.records.value);
      header + LE32(|q.records.value|) + Joined(q.records.value)
  }

  lemma SetBitKeepsWord(x: nat, bit: nat)
    requires Word(x) && (bit == FOR_CREDENTIAL_SET || bit == SELECTED_IDENTITIES)
    ensures Word(WithBit(x, bit)) && HasBit(WithBit(x, bit), bit)
  {
  }

  /** Overwriting the flags word of a header replaces that word only. */
  lemma HeaderRewrite(flags: nat, other: nat, user: nat, credential: bytes, t: bytes)
    requires Word(flags) && Word(other) && Word(user) && |credential| <= 56
    requires t == Splice(MatchHeader(flags, user, credential), 0, LE32(other))
    ensures t == MatchHeader(other, user, credential)
  {
  }

  method PutCredential(header: array<byte>, ghost was: nat, flags: nat, user: nat, credential: bytes)
    requires Word(was) && Word(flags) && Word(user) && |credential| <= 56
    requires header[..] == MatchHeader(was, user, [])
    modifies header
    ensures header[..] == MatchHeader(flags, user, credential)
  {
    PutLE32(header, 0, flags);
    HeaderRewrite(was, flags, user, [], header[..]);
    PutLE32(header, 4, user);
    HeaderKeepsUser(flags, user, header[..]);
    PutLE32(header, 8, |credential|);
    WriteBytes(header, 12, credential);
    HeaderFill(flags, user, credential);
  }

  /** The fixed header is filled in place: flags and user, then the credential, then the flags again. */
  method BuildMatchRequest(q: MatchRequest) returns (r: Result<Built, BuildError>)
    ensures r.Ok? <==> Buildable(q)
    ensures r.Ok? ==> r.value.payload == MatchLayout(q)
    ensures r.Ok? ==> r.value.flags == SentFlags(q.flags, q.credential.Some?, q.records.Some?)
    ensures r.Ok? ==> r.value.count == if q.records.Some? then |q.records.value| else 0
    ensures r.Err? ==> BuildFailure(q) == Some(r.error)
    ensures r == Err(ScalarInvalid) <==> !(0 <= q.user <= 0xFFFF_FFFF && 0 <= q.flags <= 0xFFFF_FFFF)
  {
    if !Word(q.user) || !Word(q.flags) { return Err(ScalarInvalid); }
    var header := new byte[68](_ => 0);
    ghost var blank := header[..];
    var flags: nat := q.flags;
    PutLE32(header, 0, flags);
    PutLE32(header, 4, q.user);
    HeaderStart(blank, flags, q.user);
    if q.credential.Some? {
      var credential := q.credential.value;
      if !(1 <= |credential| <= 56) { return Err(CredentialLengthInvalid); }
      SetBitKeepsWord(flags, FOR_CREDENTIAL_SET);
      ghost var was := flags;
      flags := WithBit(flags, FOR_CREDENTIAL_SET);
      PutCredential(header, was, flags, q.user, credential);
    }
    var count := 0;
    var payload := header[..];
    if q.records.Some? {
      var records := q.records.value;
      if records == [] || exists i :: 0 <= i < |records| && |records[i]| != 20 { return Err(RecordsInvalid); }
      count := |records|;
      SetBitKeepsWord(flags, SELECTED_IDENTITIES);
      ghost var was := flags;
      flags := WithBit(flags, SELECTED_IDENTITIES);
      PutLE32(header, 0, flags);
      HeaderRewrite(was, flags, q.user, Credential(q), header[..]);
      if count >= 0x1_0000_0000 { return Err(CountOverflows); }
      payload := header[..] + LE32(count) + Joined(records);
    }
    r := Ok(Built(payload, flags, count));
  }

  lemma HeaderStart(s: bytes, flags: nat, user: nat)
    requires Word(flags) && Word(user) && s == Zeros(68)
    ensures Splice(Splice(s, 0, LE32(flags)), 4, LE32(user)) == MatchHeader(flags, user, [])
  {
    var t := Splice(s, 0, LE32(flags));
    assert s == [] + Zeros(68);
    FillNext(s, [], LE32(flags), t);
    assert [] + LE32(flags) == LE32(flags);
    FillNext(t, LE32(flags), LE32(user), Splice(t, 4, LE32(user)));
    BareHeader(flags, user);
  }

  lemma BareHeader(flags: nat, user: nat)
    requires Word(flags) && Word(user)
    ensures MatchHeader(flags, user, []) == LE32(flags) + LE32(user) + Zeros(60)
  {
    assert LE32(0) == Zeros(4);
    assert Zeros(4) + [] + Zeros(56) == Zeros(60);
  }

  lemma HeaderKeepsUser(flags: nat, user: nat, t: bytes)
    requires Word(flags) && Word(user)
    requires t == Splice(MatchHeader(flags, user, []), 4, LE32(user))
    ensures t == MatchHeader(flags, user, [])
  {
    assert MatchHeader(flags, user, [])[4..8] == LE32(user);
  }

  lemma HeaderFill(flags: nat, user: nat, credential: bytes)
    requires Word(flags) && Word(user) && |credential| <= 56
    ensures Splice(Splice(MatchHeader(flags, user, []), 8, LE32(|credential|)), 12, credential)
            == MatchHeader(flags, user, credential)
  {
    var s, p := MatchHeader(flags, user, []), LE32(flags) + LE32(user);
    BareHeader(flags, user);
    var t := Splice(s, 8, LE32(|credential|));
    FillNext(s, p, LE32(|credential|), t);
    FillNext(t, p + LE32(|credential|), credential, Splice(t, 12, credential));
  }

  lemma HeaderReads(flags: nat, user: nat, credential: bytes, rest: bytes)
    requires Word(flags) && Word(user) && |credential| <= 56
    ensures var b := MatchHeader(flags, user, credential) + rest;
            && U32(b, 0) == flags && U32(b, 4) == user && U32(b, 8) == |credential|
            && b[12..12 + |credential|] == credential
  {
    var f, u, n := LE32(flags), LE32(user), LE32(|credential|);
    var tail := credential + Zeros(56 - |credential|) + rest;
    var b := f + u + n + tail;
    assert MatchHeader(flags, user, credential) + rest == b;
    assert b == [] + f + (u + n + tail);
    ReadLE32([], flags, u + n + tail);
    assert b == f + u + (n + tail);
    ReadLE32(f, user, n + tail);
    ReadLE32(f + u, |credential|, tail);
    assert b[12..] == tail;
  }

  // ------------------------------------------- reading a match request back

  function WithoutBit(x: nat, bit: nat): nat
    requires bit > 0
  {
    if HasBit(x, bit) then x - bit else x
  }

  /** The mode bits say which optional parts follow; what remains of the flags is the base. */
  function ReadMatch(b: bytes): Option<MatchRequest> {
    if |b| < 68 then None
    else
      var sent, n := U32(b, 0), U32(b, 8);
      var cred, selected := HasBit(sent, FOR_CREDENTIAL_SET), HasBit(sent, SELECTED_IDENTITIES);
      if n > 56 || (cred <==> n == 0) then None
      else if selected && (|b| < 72 || |b| != 72 + 20 * U32(b, 68)) then None
      else if !selected && |b| != 68 then None
      else
        Some(MatchRequest(WithoutBit(WithoutBit(sent, SELECTED_IDENTITIES), FOR_CREDENTIAL_SET), U32(b, 4),
                          if cred then Some(b[12..12 + n]) else None,
                          if selected then Some(Split(b[72..], 20)) else None))
  }

  lemma MatchReadsBack(q: MatchRequest)
    requires Buildable(q)
    ensures ReadMatch(MatchLayout(q)) == Some(q)
            <==> !HasBit(q.flags, 0x8) && !HasBit(q.flags, 0x4000)
  {
    if HasBit(q.flags, FOR_CREDENTIAL_SET) || HasBit(q.flags, SELECTED_IDENTITIES) {
      if ReadMatch(MatchLayout(q)).Some? {
        ReadFlagsAreBare(MatchLayout(q));
      }
    } else {
      MatchFieldsRead(q);
      FlagsSeparate(q.flags, q.credential.Some?, q.records.Some?);
    }
  }

  lemma BitsApart(x: nat)
    ensures HasBit(WithBit(x, FOR_CREDENTIAL_SET), SELECTED_IDENTITIES) == HasBit(x, SELECTED_IDENTITIES)
    ensures HasBit(WithBit(x, SELECTED_IDENTITIES), FOR_CREDENTIAL_SET) == HasBit(x, FOR_CREDENTIAL_SET)
  {
  }

  lemma SetThenClear(x: nat, bit: nat)
    requires bit == FOR_CREDENTIAL_SET || bit == SELECTED_IDENTITIES
    requires !HasBit(x, bit)
    ensures HasBit(WithBit(x, bit), bit) && WithoutBit(WithBit(x, bit), bit) == x
  {
    assert (x + bit) / bit == x / bit + 1;
  }

  /** Setting the two mode bits on flags that lack them loses nothing. */
  lemma FlagsSeparate(base: nat, credential: bool, records: bool)
    requires Word(base) && !HasBit(base, FOR_CREDENTIAL_SET) && !HasBit(base, SELECTED_IDENTITIES)
    ensures var f := SentFlags(base, credential, records);
            && HasBit(f, FOR_CREDENTIAL_SET) == credential && HasBit(f, SELECTED_IDENTITIES) == records
            && WithoutBit(WithoutBit(f, SELECTED_IDENTITIES), FOR_CREDENTIAL_SET) == base
  {
    SetThenClear(base, FOR_CREDENTIAL_SET);
    BitsApart(base);
    var m := if credential then WithBit(base, FOR_CREDENTIAL_SET) else base;
    SetThenClear(m, SELECTED_IDENTITIES);
    BitsApart(m);
  }

  lemma ReadFlagsAreBare(b: bytes)
    requires ReadMatch(b).Some?
    ensures var f := ReadMatch(b).value.flags;
            f >= 0 && !HasBit(f, FOR_CREDENTIAL_SET) && !HasBit(f, SELECTED_IDENTITIES)
  {
    BareFlags(U32(b, 0));
  }

  lemma BareFlags(sent: nat)
    ensures var f := WithoutBit(WithoutBit(sent, SELECTED_IDENTITIES), FOR_CREDENTIAL_SET);
            !HasBit(f, FOR_CREDENTIAL_SET) && !HasBit(f, SELECTED_IDENTITIES)
  {
  }

  lemma MatchFieldsRead(q: MatchRequest)
    requires Buildable(q)
    ensures var b := MatchLayout(q);
            && U32(b, 0) == SentFlags(q.flags, q.credential.Some?, q.records.Some?) && U32(b, 4) == q.user
            && U32(b, 8) == |Credential(q)| && b[12..12 + |Credential(q)|] == Credential(q)
            && (q.records.Some? ==> U32(b, 68) == |q.records.value| && Split(b[72..], 20) == q.records.value)
  {
    var b := MatchLayout(q);
    var sent := SentFlags(q.flags, q.credential.Some?, q.records.Some?);
    var header := MatchHeader(sent, q.user, Credential(q));
    assert b == header + b[68..];
    HeaderReads(sent, q.user, Credential(q), b[68..]);
    if q.records.Some? {
      var records := q.records.value;
      ReadLE32(header, |records|, Joined(records));
      assert b[72..] == Joined(records);
      SplitOfJoined(records);
    }
  }
}
