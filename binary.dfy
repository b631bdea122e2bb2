/** Fixed-width unsigned integers, big-endian words and the positioned byte
    reader (`binutil.Reader` over an `io.ReadSeeker`) that the index decoder
    reads from.

    The reader follows Go's `io.ReadFull` rules: a read that finds no byte
    left fails with EOF, a read that finds some but not all of its bytes
    fails with UnexpectedEOF, and either failure leaves the position at the
    end of the data.  A seek whose target lies beyond the end fails with
    UnexpectedEOF and also leaves the position at the end. */
module Binary {
  import opened Results

  type u8 = x: int | 0 <= x < 0x100
  type u16 = x: int | 0 <= x < 0x1_0000
  type u32 = x: int | 0 <= x < 0x1_0000_0000
  type u64 = x: int | 0 <= x < 0x1_0000_0000_0000_0000
  type Bytes = seq<u8>

  /** The I/O failures a stream can report. */
  datatype IoError =
    | EOF            // nothing left to read
    | UnexpectedEOF  // fewer bytes left than asked for
    | InvalidOffset  // a seek to a negative position
    | Closed         // the stream was closed

  /** `io.SeekStart` and `io.SeekCurrent`. */
  datatype Whence = SeekStart | SeekCurrent

  /** What one or more reads give back, together with the reader position
      they leave behind, on success and on failure alike. */
  datatype Step<+T, +E> = Step(result: Result<T, E>, pos: nat)

  /** The failure of `s`, carried over to a step of another value type. */
  function Fail<T, U, E>(s: Step<T, E>): (r: Step<U, E>)
    requires s.result.Err?
    ensures r.result.Err? && r.result.error == s.result.error && r.pos == s.pos
  {
    Step(Err(s.result.error), s.pos)
  }

  // ---------------------------------------------------------------- words

  /** A 16-bit word in network byte order. */
  function BigEndian16(s: Bytes): u16
    requires |s| == 2
  {
    s[0] as int * 0x100 + s[1]
  }

  /** A 32-bit word in network byte order. */
  function BigEndian32(s: Bytes): u32
    requires |s| == 4
  {
    ((s[0] as int * 0x100 + s[1]) * 0x100 + s[2]) * 0x100 + s[3]
  }

  /** The two bytes that encode `x` in network byte order
      (`binary.BigEndian.PutUint16`). */
  function PutUint16(x: u16): (s: Bytes)
    ensures |s| == 2 && BigEndian16(s) == x
  {
    [x / 0x100, x % 0x100]
  }

  /** The four bytes that encode `x` in network byte order
      (`binary.BigEndian.PutUint32`). */
  function PutUint32(x: u32): (s: Bytes)
    ensures |s| == 4 && BigEndian32(s) == x
  {
    [x / 0x100_0000, x / 0x1_0000 % 0x100, x / 0x100 % 0x100, x % 0x100]
  }

  /** The big-endian 16-bit word stored at `data[off..off + 2]`. */
  function Word16At(data: Bytes, off: nat): u16
    requires off + 2 <= |data|
  {
    data[off] as int * 0x100 + data[off + 1]
  }

  /** The big-endian 32-bit word stored at `data[off..off + 4]`. */
  function Word32At(data: Bytes, off: nat): u32
    requires off + 4 <= |data|
  {
    ((data[off] as int * 0x100 + data[off + 1]) * 0x100 + data[off + 2]) * 0x100 + data[off + 3]
  }

  /** Decoding a word loses nothing: the bytes are recovered from the value. */
  lemma BigEndian16Inverse(s: Bytes)
    requires |s| == 2
    ensures PutUint16(BigEndian16(s)) == s
  {
  }

  lemma BigEndian32Inverse(s: Bytes)
    requires |s| == 4
    ensures PutUint32(BigEndian32(s)) == s
  {
    var x := BigEndian32(s);
    var top2 := s[0] as int * 0x100 + s[1];
    var top3 := top2 * 0x100 + s[2];
    assert x / 0x100_0000 == s[0] by {
      assert x == 0x100_0000 * s[0] + ((s[1] as int * 0x100 + s[2]) * 0x100 + s[3]);
    }
    assert x / 0x1_0000 == top2 by {
      assert x == 0x1_0000 * top2 + (s[2] as int * 0x100 + s[3]);
    }
    assert x / 0x100 == top3 by {
      assert x == 0x100 * top3 + s[3];
    }
  }

  // -------------------------------------------------- reads, as functions

  /** `Bytes(n)` at position `pos`: exactly `n` bytes or a short-read error. */
  function ReadFullAt(data: Bytes, pos: nat, n: nat): (r: Step<Bytes, IoError>)
    requires pos <= |data|
    ensures r.pos <= |data|
    ensures r.result.Ok? <==> pos + n <= |data|
    ensures r.result.Ok? ==> r.pos == pos + n && r.result.value == data[pos..r.pos]
    ensures r.result.Err? ==> r.pos == |data|
    ensures r.result.Err? ==> r.result.error == (if pos == |data| then EOF else UnexpectedEOF)
  {
    if pos + n <= |data| then Step(Ok(data[pos..pos + n]), pos + n)
    else if pos == |data| then Step(Err(EOF), pos)
    else Step(Err(UnexpectedEOF), |data|)
  }

  /** `UInt16()` at position `pos`. */
  function Uint16At(data: Bytes, pos: nat): (r: Step<u16, IoError>)
    requires pos <= |data|
    ensures r.pos <= |data|
    ensures r.result.Ok? <==> pos + 2 <= |data|
    ensures r.result.Ok? ==> r.pos == pos + 2 && r.result.value == Word16At(data, pos)
    ensures r.result.Err? ==> r == Step(Err(if pos == |data| then EOF else UnexpectedEOF), |data|)
  {
    var b := ReadFullAt(data, pos, 2);
    if b.result.Err? then Fail(b) else Step(Ok(BigEndian16(b.result.value)), b.pos)
  }

  /** `UInt32()` at position `pos`. */
  function Uint32At(data: Bytes, pos: nat): (r: Step<u32, IoError>)
    requires pos <= |data|
    ensures r.pos <= |data|
    ensures r.result.Ok? <==> pos + 4 <= |data|
    ensures r.result.Ok? ==> r.pos == pos + 4 && r.result.value == Word32At(data, pos)
    ensures r.result.Err? ==> r == Step(Err(if pos == |data| then EOF else UnexpectedEOF), |data|)
  {
    var b := ReadFullAt(data, pos, 4);
    if b.result.Err? then Fail(b) else Step(Ok(BigEndian32(b.result.value)), b.pos)
  }

  /** `Seek(offset, whence)` from position `pos`; the result is the new
      absolute position. */
  function SeekTo(data: Bytes, pos: nat, offset: int, whence: Whence): (r: Step<nat, IoError>)
    requires pos <= |data|
    ensures r.pos <= |data|
    ensures r.result.Ok? ==> r.result.value == r.pos
  {
    var target := if whence == SeekStart then offset else pos + offset;
    if target < 0 then Step(Err(InvalidOffset), pos)
    else if target > |data| then Step(Err(UnexpectedEOF), |data|)
    else Step(Ok(target), target)
  }

  // ------------------------------------------------------------ the reader

  /** A reader over a fixed byte stream; only its position changes. */
  class Reader {
    const data: Bytes
    var pos: nat

    ghost predicate Valid()
      reads this
    {
      pos <= |data|
    }

    constructor (data: Bytes)
      ensures Valid() && this.data == data && pos == 0
    {
      this.data := data;
      pos := 0;
    }

    method Bytes(n: nat) returns (r: Result<Bytes, IoError>)
      requires Valid()
      modifies this
      ensures Valid() && Step(r, pos) == ReadFullAt(data, old(pos), n)
    {
      if pos + n <= |data| {
        r := Ok(data[pos..pos + n]);
        pos := pos + n;
      } else if pos == |data| {
        r := Err(EOF);
      } else {
        r := Err(UnexpectedEOF);
        pos := |data|;
      }
    }

    method UInt16() returns (r: Result<u16, IoError>)
      requires Valid()
      modifies this
      ensures Valid() && Step(r, pos) == Uint16At(data, old(pos))
    {
      var b := Bytes(2);
      if b.Err? {
        return Err(b.error);
      }
      r := Ok(BigEndian16(b.value));
    }

    method UInt32() returns (r: Result<u32, IoError>)
      requires Valid()
      modifies this
      ensures Valid() && Step(r, pos) == Uint32At(data, old(pos))
    {
      var b := Bytes(4);
      if b.Err? {
        return Err(b.error);
      }
      r := Ok(BigEndian32(b.value));
    }

    method Seek(offset: int, whence: Whence) returns (r: Result<nat, IoError>)
      requires Valid()
      modifies this
      ensures Valid() && Step(r, pos) == SeekTo(data, old(pos), offset, whence)
    {
      var target := if whence == SeekStart then offset else pos + offset;
      if target < 0 {
        r := Err(InvalidOffset);
      } else if target > |data| {
        r := Err(UnexpectedEOF);
        pos := |data|;
      } else {
        r := Ok(target);
        pos := target;
      }
    }
  }
}
