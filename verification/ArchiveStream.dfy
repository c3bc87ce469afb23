/** Receiving the announced archive from file chunks, with or without the 24-byte stream wrapper. */
module ArchiveStream {
  import opened Wrappers
  import opened Bytes

  /** The fixed gzip member header start, section 2.3.1 of RFC 1952: two magic bytes, deflate. */
  const GZIP_START: bytes := [0x1F, 0x8B, 0x08]
  const WRAPPER_SIZE: nat := 24

  datatype ReceiveError = LengthInvalid | PrefixInvalid | TooLong | TooShort | StreamFailed | Unreadable

  /** Which 24-byte strings parse as a file-transfer announcement without a payload. */
  type Announces = bytes -> bool

  /** What a stream read so far carries, once its start can be told apart. */
  function Payload(s: bytes, announces: Announces): Option<bytes> {
    if |s| < 3 then None
    else if GZIP_START <= s then Some(s)
    else if |s| >= WRAPPER_SIZE && announces(s[..WRAPPER_SIZE]) then Some(s[WRAPPER_SIZE..])
    else None
  }

  /** The first k chunks carry exactly the announced number of bytes. */
  ghost predicate Complete(chunks: seq<bytes>, k: nat, size: int, announces: Announces)
    requires k <= |chunks|
  {
    var p := Payload(Joined(chunks[..k]), announces);
    p.Some? && |p.value| == size
  }

  ghost predicate CompleteSomewhere(chunks: seq<bytes>, size: int, announces: Announces) {
    exists k :: 0 <= k <= |chunks| && Complete(chunks, k, size, announces)
  }

  lemma PayloadGrows(s: bytes, more: bytes, announces: Announces)
    ensures Payload(s, announces).Some? ==> Payload(s + more, announces) == Some(Payload(s, announces).value + more)
    ensures |s| >= WRAPPER_SIZE && Payload(s, announces).None? ==> Payload(s + more, announces).None?
  {
    if |s| >= 3 {
      assert GZIP_START <= s <==> GZIP_START <= s + more by {
        assert (s + more)[..3] == s[..3];
      }
      if |s| >= WRAPPER_SIZE {
        assert (s + more)[..WRAPPER_SIZE] == s[..WRAPPER_SIZE];
        assert (s + more)[WRAPPER_SIZE..] == s[WRAPPER_SIZE..] + more;
      }
    }
  }

  /** A stream whose start was refused, or that carries too much, is never complete later. */
  ghost predicate Hopeless(s: bytes, size: int, announces: Announces) {
    var p := Payload(s, announces);
    if p.Some? then |p.value| > size else |s| >= WRAPPER_SIZE
  }

  lemma HopelessStays(chunks: seq<bytes>, i: nat, k: nat, size: int, announces: Announces)
    requires i <= k <= |chunks| && Hopeless(Joined(chunks[..i]), size, announces)
    ensures !Complete(chunks, k, size, announces)
  {
    JoinedSplits(chunks, i, k);
    PayloadGrows(Joined(chunks[..i]), Joined(chunks[i..k]), announces);
  }

  lemma NeverComplete(chunks: seq<bytes>, i: nat, size: int, announces: Announces)
    requires i <= |chunks| && Hopeless(Joined(chunks[..i]), size, announces)
    requires forall k :: 0 <= k < i ==> !Complete(chunks, k, size, announces)
    ensures !CompleteSomewhere(chunks, size, announces)
  {
    forall k | i <= k <= |chunks| ensures !Complete(chunks, k, size, announces) {
      HopelessStays(chunks, i, k, size, announces);
    }
  }

  /** Some whole number of chunks is an optional wrapper followed by this archive of the announced length. */
  ghost predicate Delivered(chunks: seq<bytes>, size: int, announces: Announces, archive: bytes) {
    exists k :: 0 <= k <= |chunks| && Complete(chunks, k, size, announces)
      && Payload(Joined(chunks[..k]), announces) == Some(archive)
  }

  /** Further complete prefixes add nothing: what was delivered is one archive. */
  lemma DeliveredAt(chunks: seq<bytes>, i: nat, size: int, announces: Announces, file: bytes)
    requires i <= |chunks| && Payload(Joined(chunks[..i]), announces) == Some(file) && |file| == size
    requires forall k :: 0 <= k < i ==> !Complete(chunks, k, size, announces)
    ensures forall archive :: Delivered(chunks, size, announces, archive) <==> archive == file
  {
    assert Complete(chunks, i, size, announces);
    forall k | i <= k <= |chunks| && Complete(chunks, k, size, announces)
      ensures Payload(Joined(chunks[..k]), announces) == Some(file)
    {
      JoinedSplits(chunks, i, k);
      SameLengthPayload(Joined(chunks[..i]), Joined(chunks[i..k]), announces);
    }
  }

  /**
   * Success is exactly that an archive of the announced length was delivered and that gzip reads
   * it to its end; the file then holds that archive.
   */
  method ReceiveArchive(chunks: seq<bytes>, fails: bool, size: int, announces: Announces, readable: bytes -> bool)
    returns (r: Result<bytes, ReceiveError>)
    ensures r.Ok? ==> size > 0 && |r.value| == size && Delivered(chunks, size, announces, r.value) && readable(r.value)
    ensures forall archive :: size > 0 && Delivered(chunks, size, announces, archive) && readable(archive) ==>
              r == Ok(archive)
    ensures r == Err(LengthInvalid) <==> size <= 0
    ensures r == Err(StreamFailed) ==> fails
    ensures r == Err(TooShort) ==> !fails
    ensures r == Err(Unreadable) <==>
              size > 0 && exists archive :: Delivered(chunks, size, announces, archive) && !readable(archive)
  {
    if size <= 0 { return Err(LengthInvalid); }
    var prefix: bytes, consumed, file: bytes := [], false, [];
    var i := 0;
    while i < |chunks|
      invariant i <= |chunks|
      invariant forall k :: 0 <= k <= i ==> !Complete(chunks, k, size, announces)
      invariant !consumed ==> prefix == Joined(chunks[..i]) && Payload(prefix, announces).None? && file == []
      invariant !consumed ==> |prefix| < WRAPPER_SIZE
      invariant consumed ==> Payload(Joined(chunks[..i]), announces) == Some(file)
    {
      ghost var read := Joined(chunks[..i]);
      JoinedNext(chunks, i);
      PayloadGrows(read, chunks[i], announces);
      var chunk := chunks[i];
      i := i + 1;
      if !consumed {
        prefix := prefix + chunk;
        if |prefix| < 3 { continue; }
        assert prefix[..3] == GZIP_START <==> GZIP_START <= prefix;
        if prefix[..3] == GZIP_START {
          chunk := prefix;
        } else {
          if |prefix| < WRAPPER_SIZE { continue; }
          if !announces(prefix[..WRAPPER_SIZE]) {
            NeverComplete(chunks, i, size, announces);
            return Err(PrefixInvalid);
          }
          chunk := prefix[WRAPPER_SIZE..];
        }
        assert file + chunk == chunk;
        prefix := [];
        consumed := true;
      }
      assert Payload(Joined(chunks[..i]), announces) == Some(file + chunk);
      if |file| + |chunk| > size {
        NeverComplete(chunks, i, size, announces);
        return Err(TooLong);
      }
      file := file + chunk;
      if |file| == size {
        DeliveredAt(chunks, i, size, announces, file);
        return if readable(file) then Ok(file) else Err(Unreadable);
      }
    }
    r := if fails then Err(StreamFailed) else Err(TooShort);
  }

  /** A stream of exactly the wrapper (or nothing) and the archive delivers it, and only it, under every chunking. */
  lemma EveryChunkingCompletes(chunks: seq<bytes>, wrapper: bytes, archive: bytes, announces: Announces)
    requires Joined(chunks) == wrapper + archive
    requires |wrapper| == 0 || |wrapper| == 24
    requires |wrapper| == 0 ==> [0x1F, 0x8B, 0x08] <= archive
    requires |wrapper| == 24 ==> announces(wrapper) && !([0x1F, 0x8B, 0x08] <= wrapper)
    ensures forall other :: Delivered(chunks, |archive|, announces, other) <==> other == archive
  {
    var n := |chunks|;
    assert chunks[..n] == chunks;
    WrappedPayload(Joined(chunks), wrapper, archive, announces);
    assert Complete(chunks, n, |archive|, announces);
    assert Delivered(chunks, |archive|, announces, archive);
    forall k | 0 <= k <= n && Complete(chunks, k, |archive|, announces)
      ensures Payload(Joined(chunks[..k]), announces) == Some(archive)
    {
      JoinedSplits(chunks, k, n);
      SameLengthPayload(Joined(chunks[..k]), Joined(chunks[k..n]), announces);
    }
  }

  lemma SameLengthPayload(s: bytes, more: bytes, announces: Announces)
    requires Payload(s, announces).Some? && Payload(s + more, announces).Some?
    requires |Payload(s, announces).value| == |Payload(s + more, announces).value|
    ensures Payload(s, announces) == Payload(s + more, announces)
  {
    PayloadGrows(s, more, announces);
    var p := Payload(s, announces).value;
    assert more == [] && p + more == p;
  }

  lemma WrappedPayload(s: bytes, wrapper: bytes, archive: bytes, announces: Announces)
    requires s == wrapper + archive
    requires |wrapper| == 0 || |wrapper| == WRAPPER_SIZE
    requires |wrapper| == 0 ==> GZIP_START <= archive
    requires |wrapper| == WRAPPER_SIZE ==> announces(wrapper) && !(GZIP_START <= wrapper)
    ensures Payload(s, announces) == Some(archive)
  {
    if |wrapper| == 0 {
      assert s == archive;
    } else {
      assert s[..WRAPPER_SIZE] == wrapper && s[WRAPPER_SIZE..] == archive;
      assert wrapper[..3] == s[..3];
    }
  }
}
