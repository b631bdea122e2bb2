/** Decoding of the entries of a version-2 Git index file.

    An entry is 62 bytes of fixed fields in network byte order followed by
    the path name and 1 to 8 padding bytes:

      offset  0  ctime seconds, ctime nanoseconds
      offset  8  mtime seconds, mtime nanoseconds
      offset 16  device, inode, mode, user id, group id, file size
      offset 40  20-byte SHA-1 digest
      offset 60  16-bit flags word
      offset 62  name (length taken from the flags word)

    Every function `XAt(data, pos)` below is what the matching reader call
    `readX(r)` does when the reader holds `data` and stands at `pos`. */
module IndexEntries {
  import opened Results
  import opened Binary
  import opened ConflictFlags
  import opened IndexObjectTypes
  import opened IndexErrors

  /** A point in time as seconds and nanoseconds since the Unix epoch. */
  datatype Timestamp = Timestamp(sec: int, nsec: int)

  const NanosPerSecond: nat := 1_000_000_000

  /** `time.Unix(sec, nsec)`: nanoseconds outside [0, 1e9) carry into the
      seconds, so the instant is the same and the nanoseconds are in range. */
  function Unix(sec: int, nsec: int): (t: Timestamp)
    ensures 0 <= t.nsec < NanosPerSecond
    ensures t.sec * NanosPerSecond + t.nsec == sec * NanosPerSecond + nsec
  {
    Timestamp(sec + nsec / NanosPerSecond, nsec % NanosPerSecond)
  }

  datatype Entry = Entry(
    ctime: Timestamp,
    mtime: Timestamp,
    dev: int,               // int32
    ino: u64,
    objectType: ObjectType,
    permission: u16,
    userId: u32,
    groupId: u32,
    size: u32,
    digest: Bytes,
    isAssumeValid: bool,
    conflictFlag: ConflictFlag,
    name: Bytes)

  /** Entries start right after the 12-byte header. */
  const EntriesOffset: nat := 12
  /** Bytes of an entry before its name. */
  const FixedSize: nat := 62
  /** Bytes of a SHA-1 digest. */
  const DigestSize: nat := 20

  /** Placeholder for a slot of the entry array not yet filled. */
  const ZeroEntry: Entry :=
    Entry(Timestamp(0, 0), Timestamp(0, 0), 0, 0, 0, 0, 0, 0, 0, [], false, NoConflict, [])

  // ------------------------------------------------------- bit packing

  /** The two fields of the 32-bit mode word. */
  datatype Mode = Mode(permission: u16, objectType: ObjectType)

  /** `readMode`'s split: permission = `mode & 0x1FF`, object type =
      `(mode >> 12) & 0xF`.  Nothing is validated here. */
  function SplitMode(mode: u32): (m: Mode)
    ensures m.permission < 0x200 && m.objectType < 0x10
  {
    Mode(mode % 0x200, (mode / 0x1000 % 0x10) as ObjectType)
  }

  /** The three fields of the 16-bit flags word. */
  datatype Flags = Flags(isAssumeValid: bool, conflictFlag: ConflictFlag, nameLength: nat)

  /** `readFlags`' split: name length = `flags & 0xFFF`, conflict flag =
      `(flags >> 12) & 0x3`, assume-valid = bit 15; bit 14 is not looked at. */
  function SplitFlags(flags: u16): (f: Flags)
    ensures f.nameLength < 0x1000
    ensures ConflictFlags.IsNamed(f.conflictFlag)
    ensures f.isAssumeValid <==> flags >= 0x8000
  {
    Flags(flags / 0x8000 % 2 == 1, (flags / 0x1000 % 4) as ConflictFlag, flags % 0x1000)
  }

  /** `int32(w)`: the same 32 bits read as a two's-complement number. */
  function DevFromWord(w: u32): (d: int)
    ensures -0x8000_0000 <= d < 0x8000_0000
    ensures d % 0x1_0000_0000 == w
  {
    if w < 0x8000_0000 then w else w - 0x1_0000_0000
  }

  /** Every mode word is some permission `p`, three unused bits `j`, an
      object type `t` and sixteen unused high bits `h`; the split returns
      `p` and `t` whatever the unused bits hold. */
  lemma ModeIgnoresUnusedBits(p: nat, j: nat, t: nat, h: nat)
    requires p < 0x200 && j < 8 && t < 0x10 && h < 0x1_0000
    ensures p + 0x200 * j + 0x1000 * t + 0x1_0000 * h < 0x1_0000_0000
    ensures SplitMode(p + 0x200 * j + 0x1000 * t + 0x1_0000 * h) == Mode(p, t as ObjectType)
  {
    var w := p + 0x200 * j + 0x1000 * t + 0x1_0000 * h;
    assert w % 0x200 == p by {
      assert w == 0x200 * (j + 8 * t + 0x80 * h) + p;
    }
    assert w / 0x1000 == t + 0x10 * h by {
      assert w == 0x1000 * (t + 0x10 * h) + (p + 0x200 * j);
    }
  }

  /** Every flags word is a name length `n`, a conflict stage `c`, the
      reserved bit `x` and the assume-valid bit `v`; the split returns `n`,
      `c` and `v` whatever the reserved bit holds. */
  lemma FlagsIgnoreReservedBit(n: nat, c: nat, x: nat, v: bool)
    requires n < 0x1000 && c < 4 && x < 2
    ensures n + 0x1000 * c + 0x4000 * x + (if v then 0x8000 else 0) < 0x1_0000
    ensures SplitFlags(n + 0x1000 * c + 0x4000 * x + (if v then 0x8000 else 0))
            == Flags(v, c as ConflictFlag, n)
  {
  }

  // ---------------------------------------------- field reads, as functions

  /** `readTime`: seconds then nanoseconds. */
  function TimeAt(data: Bytes, pos: nat): (r: Step<Timestamp, IoError>)
    requires pos <= |data|
    ensures r.pos <= |data|
    ensures r.result.Ok? <==> pos + 8 <= |data|
    ensures r.result.Ok? ==> r == Step(Ok(Unix(Word32At(data, pos), Word32At(data, pos + 4))), pos + 8)
    ensures r.result.Err? ==>
              r == Step(Err(if pos == |data| || pos + 4 == |data| then EOF else UnexpectedEOF), |data|)
  {
    var sec := Uint32At(data, pos);
    if sec.result.Err? then Fail(sec) else
    var nsec := Uint32At(data, sec.pos);
    if nsec.result.Err? then Fail(nsec) else
    Step(Ok(Unix(sec.result.value, nsec.result.value)), nsec.pos)
  }

  /** `readDev`. */
  function DevAt(data: Bytes, pos: nat): (r: Step<int, IoError>)
    requires pos <= |data|
    ensures r.pos <= |data|
    ensures r.result.Ok? <==> pos + 4 <= |data|
    ensures r.result.Ok? ==> r == Step(Ok(DevFromWord(Word32At(data, pos))), pos + 4)
    ensures r.result.Err? ==> r == Step(Err(if pos == |data| then EOF else UnexpectedEOF), |data|)
  {
    var w := Uint32At(data, pos);
    if w.result.Err? then Fail(w) else Step(Ok(DevFromWord(w.result.value)), w.pos)
  }

  /** `readMode`. */
  function ModeAt(data: Bytes, pos: nat): (r: Step<Mode, IoError>)
    requires pos <= |data|
    ensures r.pos <= |data|
    ensures r.result.Ok? <==> pos + 4 <= |data|
    ensures r.result.Ok? ==> r == Step(Ok(SplitMode(Word32At(data, pos))), pos + 4)
    ensures r.result.Err? ==> r == Step(Err(if pos == |data| then EOF else UnexpectedEOF), |data|)
  {
    var w := Uint32At(data, pos);
    if w.result.Err? then Fail(w) else Step(Ok(SplitMode(w.result.value)), w.pos)
  }

  /** `readFlags`. */
  function FlagsAt(data: Bytes, pos: nat): (r: Step<Flags, IoError>)
    requires pos <= |data|
    ensures r.pos <= |data|
    ensures r.result.Ok? <==> pos + 2 <= |data|
    ensures r.result.Ok? ==> r == Step(Ok(SplitFlags(Word16At(data, pos))), pos + 2)
    ensures r.result.Err? ==> r == Step(Err(if pos == |data| then EOF else UnexpectedEOF), |data|)
  {
    var w := Uint16At(data, pos);
    if w.result.Err? then Fail(w) else Step(Ok(SplitFlags(w.result.value)), w.pos)
  }

  /** `readEntry`: the fields in stream order; the first failing read ends
      the entry. */
  function ParseEntry(data: Bytes, pos: nat): (r: Step<Entry, IoError>)
    requires pos <= |data|
    ensures r.pos <= |data|
  {
    var ctime := TimeAt(data, pos);
    if ctime.result.Err? then Fail(ctime) else
    var mtime := TimeAt(data, ctime.pos);
    if mtime.result.Err? then Fail(mtime) else
    var dev := DevAt(data, mtime.pos);
    if dev.result.Err? then Fail(dev) else
    var ino := Uint32At(data, dev.pos);
    if ino.result.Err? then Fail(ino) else
    var mode := ModeAt(data, ino.pos);
    if mode.result.Err? then Fail(mode) else
    var uid := Uint32At(data, mode.pos);
    if uid.result.Err? then Fail(uid) else
    var gid := Uint32At(data, uid.pos);
    if gid.result.Err? then Fail(gid) else
    var size := Uint32At(data, gid.pos);
    if size.result.Err? then Fail(size) else
    var digest := ReadFullAt(data, size.pos, DigestSize);
    if digest.result.Err? then Fail(digest) else
    var flags := FlagsAt(data, digest.pos);
    if flags.result.Err? then Fail(flags) else
    var name := ReadFullAt(data, flags.pos, flags.result.value.nameLength);
    if name.result.Err? then Fail(name) else
    Step(Ok(Entry(
           ctime.result.value, mtime.result.value, dev.result.value, ino.result.value,
           mode.result.value.objectType, mode.result.value.permission,
           uid.result.value, gid.result.value, size.result.value, digest.result.value,
           flags.result.value.isAssumeValid, flags.result.value.conflictFlag,
           name.result.value)),
         name.pos)
  }

  /** `8 - ((pos - 12) & 0x7)`: the padding that brings `pos` to the next
      multiple of 8 counted from offset 12.  (For a 64-bit two's-complement
      position, `& 0x7` is the non-negative remainder `% 8`.) */
  function Padding(pos: nat): (pad: nat)
    ensures 1 <= pad <= 8
    ensures (pos + pad - EntriesOffset) % 8 == 0
  {
    8 - (pos - EntriesOffset) % 8
  }

  /** Where the reader stands after the padding that follows an entry
      ending at `pos`: the padded position, or the end of the data when the
      padding runs past it. */
  function PaddedEnd(data: Bytes, pos: nat): (end: nat)
    requires pos <= |data|
    ensures pos < end <= |data| || end == pos == |data|
    ensures end < |data| ==> end == pos + Padding(pos) && (end - EntriesOffset) % 8 == 0
  {
    if pos + Padding(pos) <= |data| then pos + Padding(pos) else |data|
  }

  /** `seekToNextEntry`: query the position, then skip the padding.  A seek
      that runs past the end of the stream (UnexpectedEOF) counts as
      success; any other seek failure is passed on.  Neither seek can fail
      any other way, so skipping the padding always succeeds. */
  function SkipPadding(data: Bytes, pos: nat): (r: Step<(), IoError>)
    requires pos <= |data|
    ensures r == Step(Ok(()), PaddedEnd(data, pos))
  {
    var current := SeekTo(data, pos, 0, SeekCurrent);
    match current.result
    case Err(e) => Step(Err(e), current.pos)
    case Ok(at) =>
      var next := SeekTo(data, current.pos, Padding(at), SeekCurrent);
      match next.result
      case Err(e) => if e == UnexpectedEOF then Step(Ok(()), next.pos) else Step(Err(e), next.pos)
      case Ok(_) => Step(Ok(()), next.pos)
  }

  /** Where the first `count` entries start when the first one starts at
      `pos`: each next entry starts after the previous one's name and
      padding.  The walk fails, leaving the reader at the end of the data,
      at the first start where no whole entry fits. */
  function Starts(data: Bytes, pos: nat, count: nat): (r: Step<seq<nat>, IoError>)
    requires pos <= |data|
    ensures r.pos <= |data|
    ensures r.result.Ok? ==> |r.result.value| == count
    ensures r.result.Err? ==> r.pos == |data|
    decreases count
  {
    if count == 0 then Step(Ok([]), pos) else
    var done := Starts(data, pos, count - 1);
    if done.result.Err? then done
    else if EntryFits(data, done.pos) then
      Step(Ok(done.result.value + [done.pos]), PaddedEnd(data, done.pos + RecordLength(data, done.pos)))
    else
      Step(Err(TruncationError(|data| - done.pos)), |data|)
  }

  /** Once the walk fails, walking further changes nothing. */
  lemma {:induction false} FailureIsFinal(data: Bytes, pos: nat, k: nat, count: nat)
    requires pos <= |data| && k <= count
    requires Starts(data, pos, k).result.Err?
    ensures Starts(data, pos, count) == Starts(data, pos, k)
    decreases count
  {
    if count > k {
      FailureIsFinal(data, pos, k, count - 1);
    }
  }

  /** A whole entry fits at each of `starts`. */
  predicate AllFit(data: Bytes, starts: seq<nat>) {
    forall k :: 0 <= k < |starts| ==> EntryFits(data, starts[k])
  }

  /** The entries stored at the given starts, in order. */
  function Layouts(data: Bytes, starts: seq<nat>): (es: seq<Entry>)
    requires AllFit(data, starts)
    ensures |es| == |starts|
  {
    seq(|starts|, k requires 0 <= k < |starts| => EntryLayout(data, starts[k]))
  }

  /** `es` holds, in order, the entries stored at `starts`. */
  ghost predicate Filled(data: Bytes, starts: seq<nat>, es: seq<Entry>) {
    |es| == |starts| &&
    forall k :: 0 <= k < |es| ==> EntryFits(data, starts[k]) && es[k] == EntryLayout(data, starts[k])
  }

  /** Entries read one by one at `starts` are the layouts there. */
  lemma FilledIsLayouts(data: Bytes, starts: seq<nat>, es: seq<Entry>)
    requires Filled(data, starts, es)
    ensures AllFit(data, starts) && es == Layouts(data, starts)
  {
  }

  /** One more turn from where `count` turns left the reader at `at`:
      the walk gains `at` and the decoded entries gain the layout there,
      or the walk fails with a truncation error. */
  lemma {:induction false} WalkOneMore(data: Bytes, pos: nat, count: nat, starts: seq<nat>, at: nat)
    requires pos <= |data| && Starts(data, pos, count) == Step(Ok(starts), at)
    ensures EntryFits(data, at) ==>
              Starts(data, pos, count + 1)
              == Step(Ok(starts + [at]), PaddedEnd(data, at + RecordLength(data, at)))
    ensures !EntryFits(data, at) ==>
              Starts(data, pos, count + 1) == Step(Err(TruncationError(|data| - at)), |data|)
  {
  }

  /** Every start the walk finds has a whole entry. */
  lemma {:induction false} StartsFit(data: Bytes, pos: nat, count: nat)
    requires pos <= |data| && Starts(data, pos, count).result.Ok?
    ensures AllFit(data, Starts(data, pos, count).result.value)
    decreases count
  {
    if count > 0 {
      StartsFit(data, pos, count - 1);
      var before := Starts(data, pos, count - 1).result.value;
      var after := Starts(data, pos, count).result.value;
      assert forall k :: 0 <= k < count - 1 ==> after[k] == before[k];
    }
  }

  /** `pos` lies on an 8-byte boundary counted from offset 12. */
  predicate OnBoundary(pos: nat) {
    EntriesOffset <= pos && (pos - EntriesOffset) % 8 == 0
  }

  /** The entry at `next` begins a multiple of 8 bytes after the entry at
      `pos`, past its name and at least one padding byte. */
  predicate Follows(data: Bytes, pos: nat, next: nat) {
    EntryFits(data, pos) && pos + RecordLength(data, pos) < next && (next - pos) % 8 == 0
  }

  /** Whole entries fit at `starts`, every start lies on a boundary and
      each start follows the one before. */
  predicate Aligned(data: Bytes, starts: seq<nat>) {
    (forall k :: 0 <= k < |starts| ==> EntryFits(data, starts[k]) && OnBoundary(starts[k])) &&
    (forall k :: 0 <= k < |starts| - 1 ==> Follows(data, starts[k], starts[k + 1]))
  }

  /** Two positions aligned to 8 from offset 12 are a multiple of 8 apart. */
  lemma AlignedApart(x: nat, y: nat)
    requires EntriesOffset <= x && (x - EntriesOffset) % 8 == 0
    requires EntriesOffset <= y && (y - EntriesOffset) % 8 == 0
    ensures (y - x) % 8 == 0
  {
    var a, b := (x - EntriesOffset) / 8, (y - EntriesOffset) / 8;
    assert y - x == 8 * (b - a);
  }

  /** A successful walk of `count > 0` entries is a successful walk of
      `count - 1` entries, then one more whole entry at the position that
      walk ended at, followed by its padding. */
  lemma LastStep(data: Bytes, pos: nat, count: nat)
    requires pos <= |data| && 0 < count && Starts(data, pos, count).result.Ok?
    ensures var prev := Starts(data, pos, count - 1);
            prev.result.Ok? && EntryFits(data, prev.pos) &&
            Starts(data, pos, count) == Step(Ok(prev.result.value + [prev.pos]), Successor(data, prev.pos))
  {
  }

  /** Where the walk goes after the entry at `pos`: past its name and its
      padding, or to the end of the data. */
  function Successor(data: Bytes, pos: nat): nat
    requires EntryFits(data, pos)
  {
    PaddedEnd(data, pos + RecordLength(data, pos))
  }

  /** A whole entry fits at `pos` and the walk goes on to `next`. */
  predicate Link(data: Bytes, pos: nat, next: nat) {
    EntryFits(data, pos) && Successor(data, pos) == next
  }

  /** `starts`, followed by `end`, is a chain from `pos`: the first start
      is `pos`, and each start links to the next position. */
  predicate Chained(data: Bytes, pos: nat, starts: seq<nat>, end: nat) {
    (forall k :: 0 <= k < |starts| ==> Link(data, starts[k], (starts + [end])[k + 1])) &&
    (starts + [end])[0] == pos
  }

  /** A chain grows by the whole entry at its end. */
  lemma ChainStep(data: Bytes, pos: nat, starts: seq<nat>, end: nat)
    requires Chained(data, pos, starts, end) && EntryFits(data, end)
    ensures Chained(data, pos, starts + [end], Successor(data, end))
  {
    var s, t := starts + [end], starts + [end] + [Successor(data, end)];
    forall k | 0 <= k < |s|
      ensures Link(data, s[k], t[k + 1])
    {
      if k < |starts| {
        assert s[k] == starts[k] && t[k + 1] == s[k + 1];
      }
    }
    assert t[0] == s[0];
  }

  /** The starts of a successful walk, followed by where it ends, form a
      chain. */
  lemma {:induction false} StartsChained(data: Bytes, pos: nat, count: nat)
    requires pos <= |data| && Starts(data, pos, count).result.Ok?
    ensures Chained(data, pos, Starts(data, pos, count).result.value, Starts(data, pos, count).pos)
    decreases count
  {
    if count > 0 {
      LastStep(data, pos, count);
      var prev := Starts(data, pos, count - 1);
      StartsChained(data, pos, count - 1);
      ChainStep(data, pos, prev.result.value, prev.pos);
    }
  }

  /** A position the walk reaches from a whole entry, short of the end of
      the data, lies on a boundary. */
  lemma LinkAligned(data: Bytes, pos: nat, next: nat)
    requires Link(data, pos, next) && next < |data|
    ensures OnBoundary(next)
  {
  }

  /** From an aligned entry the walk reaches the next aligned start past
      its name and a multiple of 8 bytes further on. */
  lemma LinkFollows(data: Bytes, pos: nat, next: nat)
    requires Link(data, pos, next) && OnBoundary(pos) && next < |data|
    ensures Follows(data, pos, next)
  {
    LinkAligned(data, pos, next);
    AlignedApart(pos, next);
  }

  /** Each start of a chain from offset 12 holds a whole entry on a
      boundary. */
  lemma ChainStartAligned(data: Bytes, starts: seq<nat>, end: nat, k: nat)
    requires Chained(data, EntriesOffset, starts, end) && k < |starts|
    ensures EntryFits(data, starts[k]) && OnBoundary(starts[k])
  {
    var s := starts + [end];
    assert EntryFits(data, starts[k]) by {
      assert s[k] == starts[k] && Link(data, s[k], s[k + 1]);
    }
    if k == 0 {
      assert starts[0] == s[0] == EntriesOffset;
    } else {
      assert Link(data, starts[k - 1], starts[k]) by {
        assert s[k - 1] == starts[k - 1] && s[k] == starts[k] && Link(data, s[k - 1], s[k]);
      }
      LinkAligned(data, starts[k - 1], starts[k]);
    }
  }

  /** Consecutive starts of a chain from offset 12 follow each other. */
  lemma ChainStartFollows(data: Bytes, starts: seq<nat>, end: nat, k: nat)
    requires Chained(data, EntriesOffset, starts, end) && k + 1 < |starts|
    ensures Follows(data, starts[k], starts[k + 1])
  {
    var s := starts + [end];
    assert s[k] == starts[k] && s[k + 1] == starts[k + 1];
    assert Link(data, s[k], s[k + 1]) && s[k + 1] < |data| by {
      ChainStartAligned(data, starts, end, k + 1);
    }
    ChainStartAligned(data, starts, end, k);
    LinkFollows(data, s[k], s[k + 1]);
  }

  /** A chain from offset 12 is aligned. */
  lemma ChainAligned(data: Bytes, starts: seq<nat>, end: nat)
    requires Chained(data, EntriesOffset, starts, end)
    ensures Aligned(data, starts)
  {
    forall k | 0 <= k < |starts|
      ensures EntryFits(data, starts[k]) && OnBoundary(starts[k])
    {
      ChainStartAligned(data, starts, end, k);
    }
    forall k | 0 <= k < |starts| - 1
      ensures Follows(data, starts[k], starts[k + 1])
    {
      ChainStartFollows(data, starts, end, k);
    }
  }

  /** Every start of a walk from offset 12 is aligned, as `Aligned` says. */
  lemma StartsAligned(data: Bytes, count: nat)
    requires EntriesOffset <= |data| && Starts(data, EntriesOffset, count).result.Ok?
    ensures Aligned(data, Starts(data, EntriesOffset, count).result.value)
  {
    StartsChained(data, EntriesOffset, count);
    ChainAligned(data, Starts(data, EntriesOffset, count).result.value, Starts(data, EntriesOffset, count).pos);
  }

  /** `ReadEntries` on a non-nil reader: seek to offset 12, then decode
      `count` entries; the first failure discards everything decoded so
      far. */
  function EntriesFrom(data: Bytes, pos: nat, count: nat): (r: Step<seq<Entry>, IoError>)
    requires pos <= |data|
    ensures r.pos <= |data|
    ensures r.result.Ok? ==> |r.result.value| == count
  {
    var start := SeekTo(data, pos, EntriesOffset, SeekStart);
    if start.result.Err? then Fail(start) else
    var found := Starts(data, start.pos, count);
    match found.result
    case Err(e) => Step(Err(e), found.pos)
    case Ok(starts) => StartsFit(data, start.pos, count); Step(Ok(Layouts(data, starts)), found.pos)
  }

  /** A walk of `count` starts from offset 12 that filled `es` is what
      `EntriesFrom` decodes. */
  lemma WalkSucceeds(data: Bytes, pos: nat, count: nat, starts: seq<nat>, at: nat, es: seq<Entry>)
    requires pos <= |data| && EntriesOffset <= |data|
    requires Starts(data, EntriesOffset, count) == Step(Ok(starts), at)
    requires Filled(data, starts, es)
    ensures EntriesFrom(data, pos, count) == Step(Ok(es), at)
  {
    FilledIsLayouts(data, starts, es);
  }

  /** A walk from offset 12 that failed after `k <= count` turns is what
      `EntriesFrom` reports. */
  lemma WalkFails(data: Bytes, pos: nat, k: nat, count: nat)
    requires pos <= |data| && EntriesOffset <= |data| && k <= count
    requires Starts(data, EntriesOffset, k).result.Err?
    ensures EntriesFrom(data, pos, count) == Fail(Starts(data, EntriesOffset, k))
  {
    FailureIsFinal(data, EntriesOffset, k, count);
  }

  // ------------------------------------------- the layout, field by field

  /** The flags of the entry whose fixed part starts at `pos`. */
  function FlagsOfRecord(data: Bytes, pos: nat): Flags
    requires pos + FixedSize <= |data|
  {
    SplitFlags(Word16At(data, pos + 60))
  }

  /** Bytes an entry starting at `pos` occupies before its padding. */
  function RecordLength(data: Bytes, pos: nat): nat
    requires pos + FixedSize <= |data|
  {
    FixedSize + Word16At(data, pos + 60) % 0x1000
  }

  /** The 62 fixed bytes and the whole name of an entry starting at `pos`
      lie within the data. */
  predicate EntryFits(data: Bytes, pos: nat) {
    pos + FixedSize <= |data| && pos + RecordLength(data, pos) <= |data|
  }

  /** The entry stored at `pos`, read straight off the offset table: ten
      32-bit words (ctime, mtime, dev, ino, mode, uid, gid, size), the
      20-byte digest, the flags word and the name. */
  function EntryLayout(data: Bytes, pos: nat): Entry
    requires EntryFits(data, pos)
  {
    var flags := FlagsOfRecord(data, pos);
    var mode := SplitMode(Word32At(data, pos + 24));
    Entry(Unix(Word32At(data, pos), Word32At(data, pos + 4)),
          Unix(Word32At(data, pos + 8), Word32At(data, pos + 12)),
          DevFromWord(Word32At(data, pos + 16)), Word32At(data, pos + 20),
          mode.objectType, mode.permission,
          Word32At(data, pos + 28), Word32At(data, pos + 32), Word32At(data, pos + 36),
          data[pos + 40..pos + 60],
          flags.isAssumeValid, flags.conflictFlag,
          data[pos + FixedSize..pos + RecordLength(data, pos)])
  }

  /** The error of a read that runs out of data `rem` bytes into an entry:
      EOF when the failing read found nothing at all (it began exactly at
      the end of the data), UnexpectedEOF when it found part of a field. */
  function TruncationError(rem: nat): IoError {
    if rem == 0 || (rem <= 40 && rem % 4 == 0) || rem == 60 || rem == FixedSize then EOF
    else UnexpectedEOF
  }

  /** The entry at `pos` as the offset table describes it: present exactly
      when the 62 fixed bytes and the whole name are, consuming 62 +
      name-length bytes with no terminator; otherwise a truncation error
      with the reader at the end of the data and no entry. */
  function EntryAt(data: Bytes, pos: nat): (r: Step<Entry, IoError>)
    requires pos <= |data|
    ensures r.pos <= |data|
  {
    if EntryFits(data, pos) then
      Step(Ok(EntryLayout(data, pos)), pos + RecordLength(data, pos))
    else
      Step(Err(TruncationError(|data| - pos)), |data|)
  }

  /** `readEntry`'s sequence of reads decodes exactly the offset table: the
      field order is ctime, mtime, dev, ino, mode, uid, gid, size,
      digest (20), flags (2), name, and any short read aborts the entry. */
  lemma ReadsFollowLayout(data: Bytes, pos: nat)
    requires pos <= |data|
    ensures ParseEntry(data, pos) == EntryAt(data, pos)
  {
    if pos + FixedSize <= |data| {
      FullRecordReads(data, pos);
    } else if pos + 40 <= |data| {
      TruncatedInDigestOrFlags(data, pos);
    } else if pos + 32 <= |data| {
      TruncatedInGidOrSize(data, pos);
    } else if pos + 24 <= |data| {
      TruncatedInModeOrUid(data, pos);
    } else if pos + 8 <= |data| {
      TruncatedInMtimeToIno(data, pos);
    } else {
      TruncatedInCtime(data, pos);
    }
  }

  lemma FullRecordReads(data: Bytes, pos: nat)
    requires pos + FixedSize <= |data|
    ensures ParseEntry(data, pos) == EntryAt(data, pos)
  {
  }

  lemma TruncatedInDigestOrFlags(data: Bytes, pos: nat)
    requires pos + 40 <= |data| < pos + FixedSize
    ensures ParseEntry(data, pos) == EntryAt(data, pos)
  {
  }

  lemma TruncatedInGidOrSize(data: Bytes, pos: nat)
    requires pos + 32 <= |data| < pos + 40
    ensures ParseEntry(data, pos) == EntryAt(data, pos)
  {
  }

  lemma TruncatedInModeOrUid(data: Bytes, pos: nat)
    requires pos + 24 <= |data| < pos + 32
    ensures ParseEntry(data, pos) == EntryAt(data, pos)
  {
  }

  lemma TruncatedInMtimeToIno(data: Bytes, pos: nat)
    requires pos + 8 <= |data| < pos + 24
    ensures ParseEntry(data, pos) == EntryAt(data, pos)
  {
  }

  lemma TruncatedInCtime(data: Bytes, pos: nat)
    requires pos <= |data| < pos + 8
    ensures ParseEntry(data, pos) == EntryAt(data, pos)
  {
  }

  // ------------------------------------------------ the reader-driven code

  method ReadTime(r: Reader) returns (res: Result<Timestamp, IoError>)
    requires r.Valid()
    modifies r
    ensures r.Valid() && Step(res, r.pos) == TimeAt(r.data, old(r.pos))
  {
    var sec := r.UInt32();
    if sec.Err? {
      return Err(sec.error);
    }
    var nsec := r.UInt32();
    if nsec.Err? {
      return Err(nsec.error);
    }
    res := Ok(Unix(sec.value, nsec.value));
  }

  method ReadDev(r: Reader) returns (res: Result<int, IoError>)
    requires r.Valid()
    modifies r
    ensures r.Valid() && Step(res, r.pos) == DevAt(r.data, old(r.pos))
  {
    var w := r.UInt32();
    if w.Err? {
      return Err(w.error);
    }
    res := Ok(DevFromWord(w.value));
  }

  /** `readIno`: the 32-bit word widened to 64 bits. */
  method ReadIno(r: Reader) returns (res: Result<u64, IoError>)
    requires r.Valid()
    modifies r
    ensures r.Valid() && Step(res, r.pos) == Uint32At(r.data, old(r.pos))
  {
    var w := r.UInt32();
    if w.Err? {
      return Err(w.error);
    }
    res := Ok(w.value);
  }

  method ReadMode(r: Reader) returns (res: Result<Mode, IoError>)
    requires r.Valid()
    modifies r
    ensures r.Valid() && Step(res, r.pos) == ModeAt(r.data, old(r.pos))
  {
    var w := r.UInt32();
    if w.Err? {
      return Err(w.error);
    }
    res := Ok(SplitMode(w.value));
  }

  method ReadUserID(r: Reader) returns (res: Result<u32, IoError>)
    requires r.Valid()
    modifies r
    ensures r.Valid() && Step(res, r.pos) == Uint32At(r.data, old(r.pos))
  {
    res := r.UInt32();
  }

  method ReadGroupID(r: Reader) returns (res: Result<u32, IoError>)
    requires r.Valid()
    modifies r
    ensures r.Valid() && Step(res, r.pos) == Uint32At(r.data, old(r.pos))
  {
    res := r.UInt32();
  }

  method ReadSize(r: Reader) returns (res: Result<u32, IoError>)
    requires r.Valid()
    modifies r
    ensures r.Valid() && Step(res, r.pos) == Uint32At(r.data, old(r.pos))
  {
    res := r.UInt32();
  }

  method ReadDigest(r: Reader) returns (res: Result<Bytes, IoError>)
    requires r.Valid()
    modifies r
    ensures r.Valid() && Step(res, r.pos) == ReadFullAt(r.data, old(r.pos), DigestSize)
  {
    res := r.Bytes(DigestSize);
  }

  method ReadFlags(r: Reader) returns (res: Result<Flags, IoError>)
    requires r.Valid()
    modifies r
    ensures r.Valid() && Step(res, r.pos) == FlagsAt(r.data, old(r.pos))
  {
    var w := r.UInt16();
    if w.Err? {
      return Err(w.error);
    }
    res := Ok(SplitFlags(w.value));
  }

  method ReadName(r: Reader, nameLength: nat) returns (res: Result<Bytes, IoError>)
    requires r.Valid()
    modifies r
    ensures r.Valid() && Step(res, r.pos) == ReadFullAt(r.data, old(r.pos), nameLength)
  {
    res := r.Bytes(nameLength);
  }

  method ReadEntry(r: Reader) returns (res: Result<Entry, IoError>)
    requires r.Valid()
    modifies r
    ensures r.Valid() && Step(res, r.pos) == EntryAt(r.data, old(r.pos))
  {
    ReadsFollowLayout(r.data, r.pos);
    var ctime := ReadTime(r);
    if ctime.Err? { return Err(ctime.error); }
    var mtime := ReadTime(r);
    if mtime.Err? { return Err(mtime.error); }
    var dev := ReadDev(r);
    if dev.Err? { return Err(dev.error); }
    var ino := ReadIno(r);
    if ino.Err? { return Err(ino.error); }
    var mode := ReadMode(r);
    if mode.Err? { return Err(mode.error); }
    var uid := ReadUserID(r);
    if uid.Err? { return Err(uid.error); }
    var gid := ReadGroupID(r);
    if gid.Err? { return Err(gid.error); }
    var size := ReadSize(r);
    if size.Err? { return Err(size.error); }
    var digest := ReadDigest(r);
    if digest.Err? { return Err(digest.error); }
    var flags := ReadFlags(r);
    if flags.Err? { return Err(flags.error); }
    var name := ReadName(r, flags.value.nameLength);
    if name.Err? { return Err(name.error); }
    res := Ok(Entry(ctime.value, mtime.value, dev.value, ino.value,
                    mode.value.objectType, mode.value.permission,
                    uid.value, gid.value, size.value, digest.value,
                    flags.value.isAssumeValid, flags.value.conflictFlag, name.value));
  }

  method SeekToNextEntry(r: Reader) returns (err: Option<IoError>)
    requires r.Valid()
    modifies r
    ensures r.Valid()
    ensures var s := SkipPadding(r.data, old(r.pos));
            r.pos == s.pos && err == ErrorOf(s.result)
  {
    var current := r.Seek(0, SeekCurrent);
    if current.Err? {
      return Some(current.error);
    }
    var next := r.Seek(Padding(current.value), SeekCurrent);
    if next.Err? {
      if next.error == UnexpectedEOF {
        return None;
      }
      return Some(next.error);
    }
    return None;
  }

  /** One turn of `ReadEntries`' loop: the entry, then the seek past its
      padding; either failure is the turn's failure. */
  method ReadRecord(r: Reader) returns (res: Result<Entry, IoError>)
    requires r.Valid()
    modifies r
    ensures r.Valid()
    ensures var at := old(r.pos);
            if EntryFits(r.data, at)
            then res == Ok(EntryLayout(r.data, at)) && r.pos == PaddedEnd(r.data, at + RecordLength(r.data, at))
            else res == Err(TruncationError(|r.data| - at)) && r.pos == |r.data|
  {
    var entry := ReadEntry(r);
    if entry.Err? {
      return Err(entry.error);
    }
    var err := SeekToNextEntry(r);
    match err {
      case Some(e) => return Err(e);
      case None =>
    }
    res := entry;
  }

  /** One turn of `ReadEntries`' loop: the entry at the reader's position
      goes into `entries[i]`, and the walk gains one start or fails. */
  method ReadNext(r: Reader, entries: array<Entry>, i: nat, ghost origin: nat, ghost starts: seq<nat>)
    returns (res: Result<(), IoError>, ghost next: seq<nat>)
    requires r.Valid() && origin <= |r.data| && i < entries.Length
    requires Starts(r.data, origin, i) == Step(Ok(starts), r.pos)
    requires Filled(r.data, starts, entries[..i])
    modifies r, entries
    ensures r.Valid()
    ensures res.Ok? ==> Starts(r.data, origin, i + 1) == Step(Ok(next), r.pos) && Filled(r.data, next, entries[..i + 1])
    ensures res.Err? ==> Starts(r.data, origin, i + 1) == Step(Err(res.error), r.pos)
  {
    ghost var at := r.pos;
    WalkOneMore(r.data, origin, i, starts, at);
    var entry := ReadRecord(r);
    if entry.Err? {
      return Err(entry.error), starts;
    }
    entries[i] := entry.value;
    next := starts + [at];
    res := Ok(());
  }

  /** `ReadEntries` on a non-nil reader: fills a `count`-slot array in
      stream order, and on the first failure returns the failure alone. */
  method ReadEntriesFrom(r: Reader, count: u32) returns (res: Result<seq<Entry>, IoError>)
    requires r.Valid()
    modifies r
    ensures r.Valid() && Step(res, r.pos) == EntriesFrom(r.data, old(r.pos), count)
  {
    var start := r.Seek(EntriesOffset, SeekStart);
    if start.Err? {
      return Err(start.error);
    }
    ghost var origin := r.pos;
    ghost var starts: seq<nat> := [];
    var entries := new Entry[count](_ => ZeroEntry);
    var i: nat := 0;
    while i < count
      invariant r.Valid() && i <= count
      invariant Starts(r.data, origin, i) == Step(Ok(starts), r.pos)
      invariant Filled(r.data, starts, entries[..i])
    {
      var done;
      done, starts := ReadNext(r, entries, i, origin, starts);
      if done.Err? {
        WalkFails(r.data, old(r.pos), i + 1, count);
        return Err(done.error);
      }
      i := i + 1;
    }
    assert entries[..] == entries[..count];
    WalkSucceeds(r.data, old(r.pos), count, starts, r.pos, entries[..]);
    res := Ok(entries[..]);
  }

  /** `ReadEntries`: a nil reader is refused; otherwise the entries after
      the header, with any reader failure passed on. */
  method ReadEntries(r: Reader?, count: u32) returns (res: Result<seq<Entry>, Error>)
    requires r != null ==> r.Valid()
    modifies r
    ensures r == null ==> res == Err(NilReader)
    ensures r != null ==> r.Valid()
    ensures r != null ==>
              var decoded := EntriesFrom(r.data, old(r.pos), count);
              res == FromIo(decoded.result) && r.pos == decoded.pos
  {
    if r == null {
      return Err(NilReader);
    }
    var entries := ReadEntriesFrom(r, count);
    res := FromIo(entries);
  }
}
