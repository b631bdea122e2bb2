/** A decoded Git index: the header and the entries it announces.  The
    decoder reads the header from offset 0 and then exactly as many
    entries as the header counts. */
module GitIndex {
  import opened Results
  import opened Binary
  import opened IndexErrors
  import opened IndexHeaders
  import opened IndexEntries

  /** Go's `indexImpl`; it is never changed after decoding. */
  datatype Index = Index(header: Header, entries: seq<Entry>)

  /** A decoded index holds one entry per counted entry. */
  predicate Valid(idx: Index) {
    |idx.entries| == idx.header.numOfEntries
  }

  /** `Entries(idx)`: positions from the header's count on are out of
      range; the check is against the header, not the slice. */
  function EntryOf(idx: Index, i: u32): (r: Result<Entry, Error>)
    requires Valid(idx)
    ensures r.Err? <==> idx.header.numOfEntries <= i
    ensures r.Err? ==> r.error == IndexOutOfEntryRanges
    ensures r.Ok? ==> r.value == idx.entries[i]
  {
    if idx.header.numOfEntries <= i then Err(IndexOutOfEntryRanges) else Ok(idx.entries[i])
  }

  /** `ReadIndexFromReader` on a non-nil stream: the header, then its
      number of entries; the first failure is the result. */
  function ParseIndex(data: Bytes, pos: nat): (r: Step<Index, Error>)
    requires pos <= |data|
    ensures r.pos <= |data|
    ensures r.result.Ok? ==> Valid(r.result.value)
  {
    var header := ParseHeader(data, pos);
    match header.result
    case Err(e) => Step(Err(e), header.pos)
    case Ok(h) =>
      var entries := EntriesFrom(data, header.pos, h.numOfEntries);
      match entries.result
      case Err(e) => Step(Err(Io(e)), entries.pos)
      case Ok(es) => Step(Ok(Index(h, es)), entries.pos)
  }

  /** Where the stream stood beforehand makes no difference: the header is
      read from offset 0 and the entries from offset 12. */
  lemma IndexIgnoresStartPosition(data: Bytes, pos: nat)
    requires pos <= |data|
    ensures ParseIndex(data, pos) == ParseIndex(data, 0)
  {
    ReadsFollowHeaderLayout(data, pos);
    ReadsFollowHeaderLayout(data, 0);
  }

  /** A decoded index is the header's layout and, for each counted
      position, the entry stored at the matching start of the walk;
      `Entries` refuses every other position. */
  lemma DecodedIndex(data: Bytes, pos: nat, i: u32)
    requires pos <= |data| && ParseIndex(data, pos).result.Ok?
    ensures var idx := ParseIndex(data, pos).result.value;
            HeaderLayout(data) == Step(Ok(idx.header), HeaderSize) &&
            var walk := Starts(data, EntriesOffset, idx.header.numOfEntries);
            walk.result.Ok? && AllFit(data, walk.result.value) &&
            (i < idx.header.numOfEntries ==>
               EntryOf(idx, i) == Ok(EntryLayout(data, walk.result.value[i]))) &&
            (i >= idx.header.numOfEntries ==> EntryOf(idx, i) == Err(IndexOutOfEntryRanges))
  {
    ReadsFollowHeaderLayout(data, pos);
    var idx := ParseIndex(data, pos).result.value;
    StartsFit(data, EntriesOffset, idx.header.numOfEntries);
  }

  /** `ReadIndexFromReader`: a nil stream is refused; otherwise the index
      decoded from it. */
  method ReadIndexFromReader(r: Reader?) returns (res: Result<Index, Error>)
    requires r != null ==> r.Valid()
    modifies r
    ensures r == null ==> res == Err(NilReader)
    ensures r != null ==> r.Valid() && Step(res, r.pos) == ParseIndex(r.data, old(r.pos))
  {
    if r == null {
      return Err(NilReader);
    }
    ghost var pos := r.pos;
    ReadsFollowHeaderLayout(r.data, pos);
    var header := ReadHeader(r);
    if header.Err? {
      return Err(header.error);
    }
    var entries := ReadEntries(r, header.value.numOfEntries);
    if entries.Err? {
      return Err(entries.error);
    }
    res := Ok(Index(header.value, entries.value));
  }
}
