/** The 12-byte header of a Git index file: the signature "DIRC", the
    format version and the number of entries, the two numbers as 32-bit
    words in network byte order.  Only version 2 is accepted. */
module IndexHeaders {
  import opened Results
  import opened Binary
  import opened IndexErrors

  /** "DIRC" as bytes. */
  const HeaderSignature: Bytes := [0x44, 0x49, 0x52, 0x43]

  /** The versions `readVersion` accepts. */
  const SupportedVersions: set<u32> := {2}

  /** Bytes of the header. */
  const HeaderSize: nat := 12

  datatype Header = Header(signature: Bytes, version: u32, numOfEntries: u32)

  // ------------------------------------------------ reads, as functions

  /** `readSignature`: four bytes, which must spell "DIRC". */
  function SignatureAt(data: Bytes, pos: nat): (r: Step<Bytes, Error>)
    requires pos <= |data|
    ensures r.pos <= |data|
    ensures r.result.Ok? ==> r.result.value == HeaderSignature
  {
    var b := ReadFullAt(data, pos, 4);
    match b.result
    case Err(e) => Step(Err(Io(e)), b.pos)
    case Ok(s) => if s != HeaderSignature then Step(Err(InvalidSignature), b.pos) else Step(Ok(s), b.pos)
  }

  /** `readVersion`: a 32-bit word, which must be a supported version. */
  function VersionAt(data: Bytes, pos: nat): (r: Step<u32, Error>)
    requires pos <= |data|
    ensures r.pos <= |data|
    ensures r.result.Ok? ==> r.result.value in SupportedVersions
  {
    var w := Uint32At(data, pos);
    match w.result
    case Err(e) => Step(Err(Io(e)), w.pos)
    case Ok(v) => if v !in SupportedVersions then Step(Err(NotSupportedVersion), w.pos) else Step(Ok(v), w.pos)
  }

  /** `readNumOfEntries`: a 32-bit word, unchecked. */
  function NumOfEntriesAt(data: Bytes, pos: nat): (r: Step<u32, Error>)
    requires pos <= |data|
    ensures r.pos <= |data|
  {
    var w := Uint32At(data, pos);
    Step(FromIo(w.result), w.pos)
  }

  /** `ReadHeader` on a non-nil reader: rewind to offset 0, then the
      signature, the version and the entry count, stopping at the first
      failure. */
  function ParseHeader(data: Bytes, pos: nat): (r: Step<Header, Error>)
    requires pos <= |data|
    ensures r.pos <= |data|
  {
    var start := SeekTo(data, pos, 0, SeekStart);
    match start.result
    case Err(e) => Step(Err(Io(e)), start.pos)
    case Ok(_) =>
      var signature := SignatureAt(data, start.pos);
      match signature.result
      case Err(e) => Step(Err(e), signature.pos)
      case Ok(s) =>
        var version := VersionAt(data, signature.pos);
        match version.result
        case Err(e) => Step(Err(e), version.pos)
        case Ok(v) =>
          var count := NumOfEntriesAt(data, version.pos);
          match count.result
          case Err(e) => Step(Err(e), count.pos)
          case Ok(n) => Step(Ok(Header(s, v, n)), count.pos)
  }

  // ------------------------------------------------------ the layout

  /** The header as the file format lays it out, checked field by field in
      file order: a file too short for a field fails with EOF when it ends
      exactly before the field and UnexpectedEOF inside it; a wrong
      signature is reported before the version is looked at. */
  function HeaderLayout(data: Bytes): (r: Step<Header, Error>)
    ensures r.pos <= |data|
  {
    if |data| < 4 then Step(Err(Io(if |data| == 0 then EOF else UnexpectedEOF)), |data|)
    else if data[..4] != HeaderSignature then Step(Err(InvalidSignature), 4)
    else if |data| < 8 then Step(Err(Io(if |data| == 4 then EOF else UnexpectedEOF)), |data|)
    else if BigEndian32(data[4..8]) != 2 then Step(Err(NotSupportedVersion), 8)
    else if |data| < HeaderSize then Step(Err(Io(if |data| == 8 then EOF else UnexpectedEOF)), |data|)
    else Step(Ok(Header(HeaderSignature, 2, BigEndian32(data[8..12]))), HeaderSize)
  }

  /** The reads of `ReadHeader` decode exactly the layout, wherever the
      reader stood before. */
  lemma ReadsFollowHeaderLayout(data: Bytes, pos: nat)
    requires pos <= |data|
    ensures ParseHeader(data, pos) == HeaderLayout(data)
  {
    if 8 <= |data| {
      assert data[4..8] == data[4..][..4];
    }
  }

  /** A header is accepted exactly when the file holds 12 bytes, starts
      with "DIRC" and names version 2; the reader then stands right after
      the header, at the first entry. */
  lemma HeaderAcceptedIff(data: Bytes, pos: nat)
    requires pos <= |data|
    ensures ParseHeader(data, pos).result.Ok? <==>
              HeaderSize <= |data| && data[..4] == HeaderSignature && BigEndian32(data[4..8]) == 2
    ensures ParseHeader(data, pos).result.Ok? ==>
              ParseHeader(data, pos) == Step(Ok(Header(data[..4], 2, BigEndian32(data[8..12]))), HeaderSize)
  {
    ReadsFollowHeaderLayout(data, pos);
  }

  /** The bytes of a header, as git writes them. */
  function EncodeHeader(h: Header): (s: Bytes)
    requires |h.signature| == 4
    ensures |s| == HeaderSize
  {
    h.signature + PutUint32(h.version) + PutUint32(h.numOfEntries)
  }

  /** Every header `ReadHeader` can return is read back from its own
      encoding, whatever follows it. */
  lemma HeaderRoundTrip(h: Header, rest: Bytes, pos: nat)
    requires h.signature == HeaderSignature && h.version in SupportedVersions
    requires pos <= HeaderSize + |rest|
    ensures ParseHeader(EncodeHeader(h) + rest, pos) == Step(Ok(h), HeaderSize)
  {
    var data := EncodeHeader(h) + rest;
    ReadsFollowHeaderLayout(data, pos);
    assert data[..4] == HeaderSignature;
    assert data[4..8] == PutUint32(h.version);
    assert data[8..12] == PutUint32(h.numOfEntries);
  }

  // ------------------------------------------------- the reader-driven code

  method ReadSignature(r: Reader) returns (res: Result<Bytes, Error>)
    requires r.Valid()
    modifies r
    ensures r.Valid() && Step(res, r.pos) == SignatureAt(r.data, old(r.pos))
  {
    var b := r.Bytes(4);
    if b.Err? {
      return Err(Io(b.error));
    }
    if b.value != HeaderSignature {
      return Err(InvalidSignature);
    }
    res := Ok(b.value);
  }

  method ReadVersion(r: Reader) returns (res: Result<u32, Error>)
    requires r.Valid()
    modifies r
    ensures r.Valid() && Step(res, r.pos) == VersionAt(r.data, old(r.pos))
  {
    var version := r.UInt32();
    if version.Err? {
      return Err(Io(version.error));
    }
    if version.value !in SupportedVersions {
      return Err(NotSupportedVersion);
    }
    res := Ok(version.value);
  }

  method ReadNumOfEntries(r: Reader) returns (res: Result<u32, Error>)
    requires r.Valid()
    modifies r
    ensures r.Valid() && Step(res, r.pos) == NumOfEntriesAt(r.data, old(r.pos))
  {
    var count := r.UInt32();
    res := FromIo(count);
  }

  /** `ReadHeader`: a nil reader is refused; otherwise the header as laid
      out at the start of the stream. */
  method ReadHeader(r: Reader?) returns (res: Result<Header, Error>)
    requires r != null ==> r.Valid()
    modifies r
    ensures r == null ==> res == Err(NilReader)
    ensures r != null ==> r.Valid() && Step(res, r.pos) == HeaderLayout(r.data)
  {
    if r == null {
      return Err(NilReader);
    }
    ghost var pos := r.pos;
    ReadsFollowHeaderLayout(r.data, pos);
    var start := r.Seek(0, SeekStart);
    if start.Err? {
      return Err(Io(start.error));
    }
    var signature := ReadSignature(r);
    if signature.Err? {
      return Err(signature.error);
    }
    var version := ReadVersion(r);
    if version.Err? {
      return Err(version.error);
    }
    var count := ReadNumOfEntries(r);
    if count.Err? {
      return Err(count.error);
    }
    res := Ok(Header(signature.value, version.value, count.value));
  }
}
