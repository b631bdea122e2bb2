/** Blob objects: the bytes of a file wrapped as a Git object.

    A blob's object form is the header "blob <size>" and a NUL byte
    followed by the first `size` bytes of its source.  A blob computes that
    form, its SHA-1 digest and its zlib compression at most once each and
    keeps them; the three caches only ever go from empty to filled.

    SHA-1 and zlib are not defined here: a blob is built with a hash
    function and a compressor, and what is proved holds for any of them
    (for zlib, any that obeys `ZlibLaws`). */
module Blobs {
  import opened Results
  import opened Binary
  import opened ObjectErrors
  import opened Objects

  // ---------------------------------------------------- the decimal size

  predicate IsDigit(b: u8) {
    0x30 <= b <= 0x39
  }

  /** `%d` of a non-negative number: its ASCII digits, most significant
      first, with no sign and no leading zero. */
  function Decimal(n: nat): (s: Bytes)
    ensures 1 <= |s| && (s[0] == 0x30 ==> n == 0)
    ensures forall i :: 0 <= i < |s| ==> IsDigit(s[i])
    decreases n
  {
    if n < 10 then [0x30 + n] else Decimal(n / 10) + [0x30 + n % 10]
  }

  /** The number a run of ASCII digits spells. */
  function ParseDecimal(s: Bytes): nat
    requires forall i :: 0 <= i < |s| ==> IsDigit(s[i])
    decreases |s|
  {
    if |s| == 0 then 0 else
    assert IsDigit(s[|s| - 1]);
    ParseDecimal(s[..|s| - 1]) * 10 + (s[|s| - 1] as int - 0x30)
  }

  /** The digits written for a size spell that size. */
  lemma {:induction false} DecimalRoundTrip(n: nat)
    ensures ParseDecimal(Decimal(n)) == n
    decreases n
  {
    if n >= 10 {
      DecimalRoundTrip(n / 10);
      var s := Decimal(n);
      assert s[..|s| - 1] == Decimal(n / 10);
    }
  }

  // ---------------------------------------------------- the object form

  /** "blob " as bytes. */
  const BlobPrefix: Bytes := [0x62, 0x6C, 0x6F, 0x62, 0x20]

  /** `"blob " + decimal(size) + NUL`: the prefix, then digits that spell
      the size, then the one NUL that ends the header. */
  function BlobHeader(size: nat): (h: Bytes)
    ensures |BlobPrefix| < |h| - 1 && h[..|BlobPrefix|] == BlobPrefix && h[|h| - 1] == 0
    ensures forall i :: |BlobPrefix| <= i < |h| - 1 ==> IsDigit(h[i])
    ensures ParseDecimal(h[|BlobPrefix|..|h| - 1]) == size
  {
    DecimalRoundTrip(size);
    var h := BlobPrefix + Decimal(size) + [0];
    assert h[|BlobPrefix|..|h| - 1] == Decimal(size);
    h
  }

  /** The object form of a blob of `size` bytes read from `content`. */
  function Decoded(size: nat, content: Bytes): Bytes
    requires size <= |content|
  {
    BlobHeader(size) + content[..size]
  }

  /** The first NUL byte at or after `from`. */
  function NulIndex(s: Bytes, from: nat): (r: Option<nat>)
    requires from <= |s|
    ensures r.Some? ==> from <= r.value < |s| && s[r.value] == 0
    ensures r.Some? ==> forall i :: from <= i < r.value ==> s[i] != 0
    ensures r.None? ==> forall i :: from <= i < |s| ==> s[i] != 0
    decreases |s| - from
  {
    if from == |s| then None else if s[from] == 0 then Some(from) else NulIndex(s, from + 1)
  }

  /** Reads an object form back: the "blob " prefix, decimal digits up to
      the first NUL, and exactly as many content bytes as they spell. */
  function ParseBlob(form: Bytes): Option<Bytes> {
    if |form| < |BlobPrefix| || form[..|BlobPrefix|] != BlobPrefix then None
    else
      match NulIndex(form, |BlobPrefix|)
      case None => None
      case Some(k) =>
        var digits := form[|BlobPrefix|..k];
        if |digits| == 0 || exists i :: 0 <= i < |digits| && !IsDigit(digits[i]) then None
        else if ParseDecimal(digits) != |form| - (k + 1) then None
        else Some(form[k + 1..])
  }

  /** The object form loses nothing: the header gives back the size and
      the rest is exactly the content read. */
  lemma BlobRoundTrip(size: nat, content: Bytes)
    requires size <= |content|
    ensures ParseBlob(Decoded(size, content)) == Some(content[..size])
  {
    var form := Decoded(size, content);
    var digits := Decimal(size);
    var k := |BlobPrefix| + |digits|;
    assert form[..|BlobPrefix|] == BlobPrefix;
    assert form[k] == 0;
    assert forall i :: |BlobPrefix| <= i < k ==> form[i] == digits[i - |BlobPrefix|];
    assert NulIndex(form, |BlobPrefix|) == Some(k);
    assert form[|BlobPrefix|..k] == digits;
    assert form[k + 1..] == content[..size];
    DecimalRoundTrip(size);
  }

  // ------------------------------------------------- the two algorithms

  /** A zlib compressor (RFC 1950) seen from outside: the bytes a writer
      has put into its buffer after one `Write` of the data, the bytes
      `Close` adds (the final block and the Adler-32 trailer), and the
      inflater, which accepts exactly the complete streams. */
  datatype Zlib = Zlib(written: Bytes -> Bytes, closing: Bytes -> Bytes, inflate: Bytes -> Option<Bytes>)

  /** What every zlib implementation does: a closed stream inflates to
      the data written; closing always adds bytes; and a complete stream is
      self-delimiting, so nothing that extends one is itself complete. */
  ghost predicate ZlibLaws(z: Zlib) {
    (forall d :: z.inflate(z.written(d) + z.closing(d)) == Some(d)) &&
    (forall d :: |z.closing(d)| > 0) &&
    (forall s, t :: z.inflate(s).Some? && |t| > 0 ==> z.inflate(s + t).None?)
  }

  /** Byte stuffing: every data byte behind a 1, and a 0 at the end. */
  function Stuff(d: Bytes): Bytes
    decreases |d|
  {
    if |d| == 0 then [0] else [1, d[0]] + Stuff(d[1..])
  }

  /** Undoes `Stuff`, accepting nothing after the closing 0. */
  function Unstuff(s: Bytes): Option<Bytes>
    decreases |s|
  {
    if |s| == 0 then None
    else if s[0] == 0 then (if |s| == 1 then Some([]) else None)
    else if |s| < 2 then None
    else
      match Unstuff(s[2..])
      case None => None
      case Some(rest) => Some([s[1]] + rest)
  }

  lemma {:induction false} UnstuffStuff(d: Bytes)
    ensures Unstuff(Stuff(d)) == Some(d)
    decreases |d|
  {
    if |d| > 0 {
      UnstuffStuff(d[1..]);
      assert Stuff(d)[2..] == Stuff(d[1..]);
      assert [d[0]] + d[1..] == d;
    }
  }

  lemma {:induction false} UnstuffSelfDelimiting(s: Bytes, t: Bytes)
    requires Unstuff(s).Some? && |t| > 0
    ensures Unstuff(s + t).None?
    decreases |s|
  {
    if s[0] != 0 {
      UnstuffSelfDelimiting(s[2..], t);
      assert (s + t)[2..] == s[2..] + t;
    }
  }

  /** A compressor that stores the data stuffed behind the two zlib header
      bytes; it shows that the laws can all hold at once. */
  const StoredZlib: Zlib :=
    Zlib(d => [0x78, 0x01], d => Stuff(d),
         s => if |s| >= 2 && s[..2] == [0x78, 0x01] then Unstuff(s[2..]) else None)

  lemma StoredZlibObeysLaws()
    ensures ZlibLaws(StoredZlib)
  {
    var z := StoredZlib;
    forall d: Bytes
      ensures z.inflate(z.written(d) + z.closing(d)) == Some(d)
    {
      UnstuffStuff(d);
      assert (z.written(d) + z.closing(d))[2..] == Stuff(d);
    }
    forall s: Bytes, t: Bytes | z.inflate(s).Some? && |t| > 0
      ensures z.inflate(s + t).None?
    {
      UnstuffSelfDelimiting(s[2..], t);
      assert (s + t)[..2] == s[..2] && (s + t)[2..] == s[2..] + t;
    }
  }

  /** The complete stream: what the buffer holds once the writer is closed. */
  function Compress(z: Zlib, data: Bytes): Bytes {
    z.written(data) + z.closing(data)
  }

  /** `Encode` as the source has it: the buffer is taken while the writer
      is still open (the close is deferred and the flush is commented
      out). */
  function EncodeAsWritten(z: Zlib, data: Bytes): (r: Bytes)
    ensures r + z.closing(data) == Compress(z, data)
  {
    z.written(data)
  }

  /** What that returns is never a complete stream: it inflates to
      nothing. */
  lemma EncodeAsWrittenDoesNotInflate(z: Zlib, data: Bytes)
    requires ZlibLaws(z)
    ensures z.inflate(EncodeAsWritten(z, data)) == None
  {
    var w, c := z.written(data), z.closing(data);
    assert z.inflate(w + c) == Some(data) && |c| > 0;
  }

  // ------------------------------------------------------------ sources

  /** The blob's `ReadSeekCloser`: a positioned reader that can be closed,
      after which every seek and read fails. */
  class Source {
    const reader: Reader
    var closed: bool

    ghost predicate Valid()
      reads this, reader
    {
      reader.Valid()
    }

    constructor (data: Bytes)
      ensures Valid() && fresh(reader) && reader.data == data && reader.pos == 0 && !closed
    {
      reader := new Reader(data);
      closed := false;
    }

    method Seek(offset: int, whence: Whence) returns (r: Result<nat, IoError>)
      requires Valid()
      modifies reader
      ensures Valid()
      ensures closed ==> r == Err(Closed) && reader.pos == old(reader.pos)
      ensures !closed ==> Step(r, reader.pos) == SeekTo(reader.data, old(reader.pos), offset, whence)
    {
      if closed {
        return Err(Closed);
      }
      r := reader.Seek(offset, whence);
    }

    method Bytes(n: nat) returns (r: Result<Bytes, IoError>)
      requires Valid()
      modifies reader
      ensures Valid()
      ensures closed ==> r == Err(Closed) && reader.pos == old(reader.pos)
      ensures !closed ==> Step(r, reader.pos) == ReadFullAt(reader.data, old(reader.pos), n)
    {
      if closed {
        return Err(Closed);
      }
      r := reader.Bytes(n);
    }

    method Close() returns (err: Option<IoError>)
      modifies this
      ensures closed && err == (if old(closed) then Some(Closed) else None)
    {
      err := if closed then Some(Closed) else None;
      closed := true;
    }
  }

  /** What `Decode` does when nothing is cached: rewind the source, read
      `size` bytes and put the header in front. */
  function DecodeAt(size: nat, data: Bytes, pos: nat, closed: bool): (r: Step<Bytes, Error>)
    requires pos <= |data|
    ensures r.pos <= |data|
  {
    if closed then Step(Err(Io(Closed)), pos) else
    var start := SeekTo(data, pos, 0, SeekStart);
    match start.result
    case Err(e) => Step(Err(Io(e)), start.pos)
    case Ok(_) =>
      var body := ReadFullAt(data, start.pos, size);
      match body.result
      case Err(e) => Step(Err(Io(e)), body.pos)
      case Ok(bytes) => Step(Ok(BlobHeader(size) + bytes), body.pos)
  }

  /** Decoding succeeds exactly when the source is open and holds `size`
      bytes, whatever its position; it then yields the object form, and a
      short source fails with EOF when it is empty and UnexpectedEOF
      otherwise. */
  lemma DecodeAtIff(size: nat, data: Bytes, pos: nat, closed: bool)
    requires pos <= |data|
    ensures DecodeAt(size, data, pos, closed).result.Ok? <==> !closed && size <= |data|
    ensures !closed && size <= |data| ==> DecodeAt(size, data, pos, closed) == Step(Ok(Decoded(size, data)), size)
    ensures !closed && |data| < size ==>
              DecodeAt(size, data, pos, closed) == Step(Err(Io(if |data| == 0 then EOF else UnexpectedEOF)), |data|)
  {
  }

  // --------------------------------------------------------------- blobs

  class Blob {
    const rsc: Source
    const size: nat
    const hash: Bytes -> Bytes
    const zlib: Zlib
    var sha1: Option<Bytes>
    var encode: Option<Bytes>
    var decode: Option<Bytes>

    /** The bytes the source holds. */
    ghost function Content(): Bytes
      reads rsc, rsc.reader
    {
      rsc.reader.data
    }

    /** Every filled cache holds what its computation gives, and the
        digest and the compression are only filled after the object form. */
    ghost predicate Valid()
      reads this, rsc, rsc.reader
    {
      rsc.Valid() &&
      (decode.Some? ==> size <= |Content()| && decode.value == Decoded(size, Content())) &&
      (sha1.Some? ==> decode.Some? && sha1.value == hash(decode.value)) &&
      (encode.Some? ==> decode.Some? && encode.value == Compress(zlib, decode.value))
    }

    /** The object form is cached, or reading it will succeed. */
    ghost predicate CanDecode()
      reads this, rsc, rsc.reader
    {
      decode.Some? || (!rsc.closed && size <= |Content()|)
    }

    constructor (rsc: Source, size: nat, hash: Bytes -> Bytes, zlib: Zlib)
      requires rsc.Valid()
      ensures Valid() && this.rsc == rsc && this.size == size && this.hash == hash && this.zlib == zlib
      ensures sha1.None? && encode.None? && decode.None?
    {
      this.rsc := rsc;
      this.size := size;
      this.hash := hash;
      this.zlib := zlib;
      sha1 := None;
      encode := None;
      decode := None;
    }

    /** `Type`: always the blob kind. */
    function Type(): (t: ObjectType)
      ensures t == BlobObject && String(t) == "blob"
    {
      BlobObject
    }

    /** `Decode`: the cached object form if there is one; otherwise it is
        read from the start of the source and cached, or the read failure
        is returned and nothing is cached. */
    method Decode() returns (res: Result<Bytes, Error>)
      requires Valid()
      modifies this, rsc.reader
      ensures Valid()
      ensures sha1 == old(sha1) && encode == old(encode)
      ensures res.Ok? <==> old(CanDecode())
      ensures res.Ok? ==> res.value == Decoded(size, Content()) && decode == Some(res.value)
      ensures res.Err? ==> decode.None?
      ensures old(decode).Some? ==> decode == old(decode) && rsc.reader.pos == old(rsc.reader.pos)
      ensures old(decode).None? ==>
                Step(res, rsc.reader.pos) == DecodeAt(size, Content(), old(rsc.reader.pos), rsc.closed)
    {
      if decode.Some? {
        return Ok(decode.value);
      }
      DecodeAtIff(size, rsc.reader.data, rsc.reader.pos, rsc.closed);
      var header := BlobHeader(size);
      var start := rsc.Seek(0, SeekStart);
      if start.Err? {
        return Err(Io(start.error));
      }
      var data := rsc.Bytes(size);
      if data.Err? {
        return Err(Io(data.error));
      }
      res := Ok(header + data.value);
      decode := Some(header + data.value);
    }

    /** `SHA1`: the cached digest if there is one; otherwise the hash of
        the object form (header included), which is then cached.  A failed
        decode fails the digest and caches nothing. */
    method SHA1() returns (res: Result<Bytes, Error>)
      requires Valid()
      modifies this, rsc.reader
      ensures Valid()
      ensures encode == old(encode)
      ensures res.Ok? <==> old(CanDecode())
      ensures res.Ok? ==> res.value == hash(Decoded(size, Content())) && sha1 == Some(res.value)
      ensures res.Err? ==> sha1.None? && decode.None?
      ensures old(sha1).Some? ==> sha1 == old(sha1) && decode == old(decode) && rsc.reader.pos == old(rsc.reader.pos)
      ensures old(decode).Some? ==> rsc.reader.pos == old(rsc.reader.pos)
      ensures old(sha1).None? && old(decode).None? ==>
                var d := DecodeAt(size, Content(), old(rsc.reader.pos), rsc.closed);
                rsc.reader.pos == d.pos && (res.Err? <==> d.result.Err?) && (res.Err? ==> res.error == d.result.error)
    {
      if sha1.Some? {
        return Ok(sha1.value);
      }
      var data := Decode();
      if data.Err? {
        return Err(data.error);
      }
      var digest := hash(data.value);
      sha1 := Some(digest);
      res := Ok(digest);
    }

    /** `Encode`, with the writer closed before its buffer is taken: the
        cached compression if there is one; otherwise the complete zlib
        stream of the object form, which is then cached.  A failed decode
        fails the encoding and caches nothing. */
    method Encode() returns (res: Result<Bytes, Error>)
      requires Valid()
      modifies this, rsc.reader
      ensures Valid()
      ensures sha1 == old(sha1)
      ensures res.Ok? <==> old(CanDecode())
      ensures res.Ok? ==> res.value == Compress(zlib, Decoded(size, Content())) && encode == Some(res.value)
      ensures res.Err? ==> encode.None? && decode.None?
      ensures old(encode).Some? ==> encode == old(encode) && decode == old(decode) && rsc.reader.pos == old(rsc.reader.pos)
      ensures old(decode).Some? ==> rsc.reader.pos == old(rsc.reader.pos)
      ensures old(encode).None? && old(decode).None? ==>
                var d := DecodeAt(size, Content(), old(rsc.reader.pos), rsc.closed);
                rsc.reader.pos == d.pos && (res.Err? <==> d.result.Err?) && (res.Err? ==> res.error == d.result.error)
    {
      if encode.Some? {
        return Ok(encode.value);
      }
      var data := Decode();
      if data.Err? {
        return Err(data.error);
      }
      var stream := zlib.written(data.value) + zlib.closing(data.value);
      encode := Some(stream);
      res := Ok(stream);
    }

    /** `Close`: closes the source; a second close fails. */
    method Close() returns (err: Option<Error>)
      requires Valid()
      modifies rsc
      ensures Valid() && rsc.closed
      ensures err == (if old(rsc.closed) then Some(Io(Closed)) else None)
    {
      var e := rsc.Close();
      err := match e case None => None case Some(cause) => Some(Io(cause));
    }
  }

  /** `NewBlob`: a nil source is refused first, then a negative size;
      otherwise a blob with all three caches empty. */
  method NewBlob(rsc: Source?, size: int, hash: Bytes -> Bytes, zlib: Zlib) returns (res: Result<Blob, Error>)
    requires rsc != null ==> rsc.Valid()
    ensures res.Ok? <==> rsc != null && size >= 0
    ensures rsc == null ==> res == Err(NilReadCloser)
    ensures rsc != null && size < 0 ==> res == Err(NegativeSize)
    ensures res.Ok? ==>
              var b := res.value;
              fresh(b) && b.Valid() && b.rsc == rsc && b.size == size && b.hash == hash && b.zlib == zlib &&
              b.sha1.None? && b.encode.None? && b.decode.None?
  {
    if rsc == null {
      return Err(NilReadCloser);
    }
    if size < 0 {
      return Err(NegativeSize);
    }
    var b := new Blob(rsc, size, hash, zlib);
    res := Ok(b);
  }

  /** The compression a blob hands out inflates back to its object form,
      which in turn gives back the content read. */
  lemma EncodedBlobInflates(z: Zlib, size: nat, content: Bytes)
    requires ZlibLaws(z) && size <= |content|
    ensures z.inflate(Compress(z, Decoded(size, content))) == Some(Decoded(size, content))
    ensures ParseBlob(Decoded(size, content)) == Some(content[..size])
  {
    BlobRoundTrip(size, content);
  }
}
