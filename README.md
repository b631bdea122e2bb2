# mogit core in Dafny

A model of the core of mogit, a small Git implementation in Go. It has three parts.

- **The index decoder** (`inner/index`). A version-2 Git index file is read from a positioned byte reader:
  - a 12-byte header: the signature "DIRC", version 2 and an entry count;
  - then that many entries, each made of:
    - 62 fixed bytes in network byte order (two timestamps, device, inode, a bit-packed mode word, owner, group, size, a 20-byte SHA-1 digest and a bit-packed flags word);
    - the name;
    - 1 to 8 padding bytes, which bring the next entry to a multiple of 8 counted from offset 12.

  The decoded index answers lookups by position. Also modelled here:
  - the conflict-flag and entry object-type enumerations;
  - the permission/type validation that builds an entry from a file's metadata.
- **The blob codec** (`inner/object/blob.go`). A blob wraps a seekable, closable source of known size and computes three values, each at most once and then cached:
  - its object form `"blob " + decimal(size) + NUL + content`;
  - the SHA-1 digest of that form;
  - the zlib compression of that form.
- **The object kinds** of the `object` and `commit` packages, and the check and split that turn a 20-character digest into a loose-object path.

Layout of the Dafny project:

| file | module | models |
|---|---|---|
| results.dfy | `Results` | `nil` and `(value, error)` pairs as `Option` / `Result` |
| binary.dfy | `Binary` | fixed-width integers, big-endian words, and the reader (`binutil.Reader`) as a class over a byte sequence and a position |
| index_error.dfy, object_error.dfy | `IndexErrors`, `ObjectErrors` | the packages' sentinel errors, plus the reader's I/O failures |
| conflict_flag.dfy, index_object_type.dfy | `ConflictFlags`, `IndexObjectTypes` | the index enumerations and `GetObjectType` |
| file_info.dfy | `OsFiles` | the part of `os.FileInfo` / `syscall.Stat_t` that an entry reads |
| entry.dfy | `IndexEntries` | `ReadEntries` and everything it reads |
| header.dfy | `IndexHeaders` | `ReadHeader` |
| index.dfy | `GitIndex` | `ReadIndexFromReader`, `Header`, `Entries` |
| entry_other.dfy | `EntryCreation` | `NewEntry` (non-Windows) |
| object.dfy, commit_object.dfy | `Objects`, `CommitObjects` | the object kinds, `GetObjectPath`, the length check and split of `commit.ReadObject` |
| blob.dfy | `Blobs` | `Blob`, its source, and SHA-1 and zlib given as parameters |

How the model is built:

- Every reader-driven Go function is a method that takes the `Reader` it reads from (only `Seek`, `Read` and the integer reads are members of the class). Its postcondition equates its result and the new reader position with a pure function of the data and the old position.
- Those functions are proved equal to an independent definition of the file layout:
  - `HeaderLayout` for the header;
  - `EntryAt` and `EntryLayout`, an offset table, for one entry;
  - `Starts` and `Layouts` for the whole entry list.
- Failures are modelled as well as successes:
  - which error is returned;
  - where the reader is left afterwards: `io.ReadFull` semantics, so EOF when nothing is left, UnexpectedEOF on a partial read, and the position moved to the end.
- `ReadEntries` keeps its array filled in place. Its loop invariant says the slots filled so far hold the layouts at the starts walked so far.
- The blob is a class whose three caches are `Option` fields. Its invariant says every filled cache holds what its computation yields.
- SHA-1 and zlib are function-valued fields:
  - SHA-1 is an arbitrary function;
  - zlib is three functions constrained by `ZlibLaws`: a closed stream inflates back, closing adds bytes, and a complete stream is self-delimiting. `StoredZlib` shows that the laws can all hold at once.

Modelling choices:

- **Timestamps.** `time.Unix(sec, nsec)` is modelled with its normalisation: nanoseconds of 10^9 or more carry into the seconds, as the 32-bit nanosecond word allows.
- **Masks and shifts** on unsigned words are written as `%` and `/` by powers of two.

## Model

| member | source | states |
|---|---|---|
| Binary.ReadFullAt | inner/index/entry.go:210-212 | `Bytes(n)` succeeds iff `n` bytes remain. It then returns exactly those bytes and advances by `n`. Otherwise it fails with EOF at the end of the data, or UnexpectedEOF inside it, and leaves the position at the end |
| Binary.Uint16At | inner/index/entry.go:214-218 | `UInt16` succeeds iff two bytes remain, yields their big-endian word and advances by 2; its failure is the same as a short `Bytes` |
| Binary.Uint32At | inner/index/entry.go:150-158 | `UInt32` succeeds iff four bytes remain, yields their big-endian word and advances by 4; its failure is the same as a short `Bytes` |
| Binary.SeekTo | inner/index/entry.go:242-253 | defines the `Seek` that `seekToNextEntry` relies on: a negative target is refused with the position kept, and a target past the end is UnexpectedEOF at the end. Its ensures: the position stays within the data and a success answers the new absolute position |
| Binary.BigEndian32Inverse | inner/index/header.go:86-88 | decoding a big-endian word loses nothing: re-encoding the value gives back its four bytes |
| Binary.Reader.Bytes | inner/index/entry.go:234-240 | the reader's `Bytes` gives the result and new position `ReadFullAt` specifies |
| Binary.Reader.UInt16 | inner/index/entry.go:214-218 | the reader's `UInt16` gives the result and new position `Uint16At` specifies |
| Binary.Reader.UInt32 | inner/index/entry.go:150-158 | the reader's `UInt32` gives the result and new position `Uint32At` specifies |
| Binary.Reader.Seek | inner/index/entry.go:242-248 | the reader's `Seek` gives the result and new position `SeekTo` specifies |
| IndexErrors.FromIo | inner/index/header.go:86-88 | a reader failure is passed on unchanged as the package's error, and a value unchanged |
| ConflictFlags.String | inner/index/conflic_flag.go:15-28 | renders "undefined" exactly for the values that are not one of the four named stages, which are the values above 3 |
| ConflictFlags.NamesIdentifyStages | inner/index/conflic_flag.go:7-28 | the stages 0 to 3 have four different names, so a name identifies its stage |
| IndexObjectTypes.String | inner/index/object_type.go:16-27 | renders "undefined" exactly for values other than 0x8, 0xA and 0xE |
| IndexObjectTypes.NamesIdentifyTypes | inner/index/object_type.go:9-27 | the three named types have different names |
| IndexObjectTypes.GetObjectType | inner/index/object_type.go:29-41 | fails with NilFileInfo iff there is no file info. Otherwise the result is SymbolicLink iff the symlink mode bit is set, else RegularFile, and never GitLink |
| OsFiles.Perm | inner/index/entry_other.go:25 | `Mode().Perm()` keeps the nine permission bits, so it is below 512 |
| IndexEntries.Unix | inner/index/entry.go:160 | `time.Unix` normalises: nanoseconds end up in [0, 10^9) and the instant, counted in nanoseconds, is unchanged |
| IndexEntries.SplitMode | inner/index/entry.go:192-193 | permission is below 512 and object type below 16; nothing is validated |
| IndexEntries.ModeIgnoresUnusedBits | inner/index/entry.go:185-193 | for any mode word built from permission `p`, unused bits 9-11, type `t` and unused bits 16-31, the split yields exactly `p` and `t` |
| IndexEntries.SplitFlags | inner/index/entry.go:220-229 | name length below 4096; the conflict flag is always one of the four named stages; assume-valid holds iff bit 15 is set |
| IndexEntries.FlagsIgnoreReservedBit | inner/index/entry.go:220-229 | for any flags word built from length `n`, stage `c`, reserved bit 14 and assume-valid `v`, the split yields `v`, `c` and `n`: bit 14 is ignored |
| IndexEntries.DevFromWord | inner/index/entry.go:163-169 | `int32(dev)` is in the int32 range and equals the word modulo 2^32, i.e. the two's-complement reading |
| IndexEntries.TimeAt | inner/index/entry.go:150-161 | `readTime` succeeds iff 8 bytes remain, gives `time.Unix` of the two words, and fails with EOF exactly when a word read starts at the end |
| IndexEntries.DevAt | inner/index/entry.go:163-169 | `readDev` succeeds iff 4 bytes remain and gives the word read as int32 |
| IndexEntries.ModeAt | inner/index/entry.go:179-196 | `readMode` succeeds iff 4 bytes remain and gives the split of the word |
| IndexEntries.FlagsAt | inner/index/entry.go:214-232 | `readFlags` succeeds iff 2 bytes remain and gives the split of the word |
| IndexEntries.ParseEntry | inner/index/entry.go:87-148 | `readEntry` as its chain of reads leaves the position within the data; `ReadsFollowLayout` states what it decodes |
| IndexEntries.EntryAt | inner/index/entry.go:87-148 | defines the offset-table entry: present iff 62 bytes plus the name fit, consuming exactly that many bytes, else the truncation error at the end. Its ensures: the position stays within the data |
| IndexEntries.ReadsFollowLayout | inner/index/entry.go:87-148 | `readEntry` decodes exactly the offset table: fields in the order ctime, mtime, dev, ino, mode, uid, gid, size, digest (20), flags (2), name. It consumes exactly 62 + name length bytes with no terminator, and any short read aborts with no entry |
| IndexEntries.FullRecordReads | inner/index/entry.go:88-131 | the same when 62 bytes remain: a short name fails and a whole one is read |
| IndexEntries.TruncatedInDigestOrFlags | inner/index/entry.go:120-127 | the same when the data ends inside the digest or the flags word |
| IndexEntries.TruncatedInGidOrSize | inner/index/entry.go:112-119 | the same when the data ends inside the group id or the size |
| IndexEntries.TruncatedInModeOrUid | inner/index/entry.go:104-111 | the same when the data ends inside the mode or the user id |
| IndexEntries.TruncatedInMtimeToIno | inner/index/entry.go:92-103 | the same when the data ends inside mtime, dev or ino |
| IndexEntries.TruncatedInCtime | inner/index/entry.go:88-91 | the same when the data ends inside ctime |
| IndexEntries.Padding | inner/index/entry.go:247 | the padding is between 1 and 8 bytes, and after it the position is a multiple of 8 counted from offset 12 |
| IndexEntries.PaddedEnd | inner/index/entry.go:242-255 | after the padding the reader is past the entry and aligned, or at the end of the data |
| IndexEntries.SkipPadding | inner/index/entry.go:242-255 | `seekToNextEntry` always succeeds, because an UnexpectedEOF from the padding seek counts as success. It leaves the reader at `PaddedEnd` |
| IndexEntries.Starts | inner/index/entry.go:72-83 | the walk over `count` entries yields exactly `count` starts, or fails with the reader at the end of the data |
| IndexEntries.FailureIsFinal | inner/index/entry.go:74-77 | once the walk has failed, asking for more entries gives the same failure |
| IndexEntries.StartsFit | inner/index/entry.go:72-83 | every start the walk finds holds a whole entry |
| IndexEntries.LastStep | inner/index/entry.go:72-83 | a walk of `count > 0` entries is the walk of `count - 1` entries, then a whole entry where that walk ended, then its padding |
| IndexEntries.StartsChained | inner/index/entry.go:72-83 | the starts of a successful walk, followed by where it ends, form a chain: the first is where the walk began and each next position is the one `seekToNextEntry` reaches from the entry before |
| IndexEntries.LinkAligned | inner/index/entry.go:242-253 | a position `seekToNextEntry` reaches after a whole entry, short of the end of the data, is a multiple of 8 from offset 12 |
| IndexEntries.LinkFollows | inner/index/entry.go:242-253 | from an aligned entry, the next start is a multiple of 8 further on and past the entry's name by at least one padding byte |
| IndexEntries.ChainAligned | inner/index/entry.go:72-83 | every start of a chain from offset 12 is aligned and each follows the one before |
| IndexEntries.StartsAligned | inner/index/entry.go:72-83 | every start of a successful walk from offset 12 holds a whole entry and is a multiple of 8 from offset 12. Each next start is a multiple of 8 further on, past the previous entry's name and at least one padding byte |
| IndexEntries.Layouts | inner/index/entry.go:72-78 | one decoded entry per start |
| IndexEntries.FilledIsLayouts | inner/index/entry.go:72-78 | entries placed one by one at the starts are the layouts at those starts |
| IndexEntries.WalkOneMore | inner/index/entry.go:73-82 | one more turn adds the current start and moves past the entry and its padding, or fails with the truncation error |
| IndexEntries.EntriesFrom | inner/index/entry.go:62-85 | `ReadEntries` on a reader returns exactly `numOfEntries` entries on success |
| IndexEntries.WalkSucceeds | inner/index/entry.go:72-84 | a successful walk from offset 12 whose entries were filled in order is what `ReadEntries` returns |
| IndexEntries.WalkFails | inner/index/entry.go:74-82 | a walk from offset 12 that fails at some turn makes `ReadEntries` fail with that error, discarding every entry read |
| IndexEntries.ReadTime | inner/index/entry.go:150-161 | the method gives the result and position `TimeAt` specifies |
| IndexEntries.ReadDev | inner/index/entry.go:163-169 | the method gives the result and position `DevAt` specifies |
| IndexEntries.ReadIno | inner/index/entry.go:171-177 | the word is zero-extended unchanged, with the result and position of `Uint32At` |
| IndexEntries.ReadMode | inner/index/entry.go:179-196 | the method gives the result and position `ModeAt` specifies |
| IndexEntries.ReadUserID | inner/index/entry.go:198-200 | the result and position of `Uint32At` |
| IndexEntries.ReadGroupID | inner/index/entry.go:202-204 | the result and position of `Uint32At` |
| IndexEntries.ReadSize | inner/index/entry.go:206-208 | the result and position of `Uint32At` |
| IndexEntries.ReadDigest | inner/index/entry.go:210-212 | exactly 20 bytes or a short-read error |
| IndexEntries.ReadFlags | inner/index/entry.go:214-232 | the method gives the result and position `FlagsAt` specifies |
| IndexEntries.ReadName | inner/index/entry.go:234-240 | exactly `nameLength` raw bytes or a short-read error |
| IndexEntries.ReadEntry | inner/index/entry.go:87-148 | the entry, error and position that the offset table `EntryAt` specifies |
| IndexEntries.SeekToNextEntry | inner/index/entry.go:242-255 | no error, and the reader at the aligned position after the padding, or at the end |
| IndexEntries.ReadRecord | inner/index/entry.go:74-82 | one loop turn: the entry at the old position, with the reader after its padding, or the entry's error |
| IndexEntries.ReadNext | inner/index/entry.go:73-82 | one loop turn keeps the invariant: the walk one step further, and slot `i` filled with the layout there; or the walk's failure |
| IndexEntries.ReadEntriesFrom | inner/index/entry.go:68-84 | seeks to offset 12 and fills the array in place, returning exactly what `EntriesFrom` specifies, in stream order and all or nothing |
| IndexEntries.ReadEntries | inner/index/entry.go:62-85 | a nil reader gives NilReader; otherwise the result and position of `EntriesFrom` with reader failures passed on |
| IndexHeaders.SignatureAt | inner/index/header.go:60-70 | `readSignature` succeeds only with "DIRC" |
| IndexHeaders.VersionAt | inner/index/header.go:72-84 | `readVersion` succeeds only with a supported version, which is 2 |
| IndexHeaders.NumOfEntriesAt | inner/index/header.go:86-88 | `readNumOfEntries` keeps the position within the data; the count is not range-checked |
| IndexHeaders.ParseHeader | inner/index/header.go:30-58 | `ReadHeader` on a reader keeps the position within the data; `ReadsFollowHeaderLayout` states what it decodes |
| IndexHeaders.HeaderLayout | inner/index/header.go:12 | the independent header layout keeps the position within the data |
| IndexHeaders.ReadsFollowHeaderLayout | inner/index/header.go:30-88 | `ReadHeader` decodes exactly the header layout, wherever the reader stood, so repeated calls on one stream agree. A wrong signature is reported before the version is read |
| IndexHeaders.HeaderAcceptedIff | inner/index/header.go:36-57 | a header is accepted iff the data has 12 bytes, starts with "DIRC" and names version 2. It then consumes exactly 12 bytes and holds the signature, version 2 and the count |
| IndexHeaders.EncodeHeader | inner/index/header.go:15-19 | a header's encoding is 12 bytes |
| IndexHeaders.HeaderRoundTrip | inner/index/header.go:30-58 | every header `ReadHeader` can return is read back from its encoding, whatever follows it |
| IndexHeaders.ReadSignature | inner/index/header.go:60-70 | the method gives the result and position `SignatureAt` specifies |
| IndexHeaders.ReadVersion | inner/index/header.go:72-84 | the method gives the result and position `VersionAt` specifies |
| IndexHeaders.ReadNumOfEntries | inner/index/header.go:86-88 | the method gives the result and position `NumOfEntriesAt` specifies |
| IndexHeaders.ReadHeader | inner/index/header.go:30-58 | a nil reader gives NilReader; otherwise the result and position of the header layout |
| GitIndex.EntryOf | inner/index/index.go:140-145 | `Entries(idx)` fails with IndexOutOfEntryRanges iff `idx >= NumOfEntries`, and otherwise returns the idx-th entry |
| GitIndex.ParseIndex | inner/index/index.go:112-132 | a decoded index holds exactly `NumOfEntries` entries |
| GitIndex.IndexIgnoresStartPosition | inner/index/index.go:118-123 | the decoded index does not depend on where the stream stood |
| GitIndex.DecodedIndex | inner/index/index.go:118-145 | a decoded index's header is the header layout, and its entries all fit at the walk's starts. `Entries(i)` gives the layout at the i-th start, or out of range |
| GitIndex.ReadIndexFromReader | inner/index/index.go:112-132 | a nil stream gives NilReader; otherwise the result and position of `ParseIndex`. A header failure is returned unchanged and no entries are read |
| EntryCreation.NewEntry | inner/index/entry_other.go:15-58 | fails with NilFileInfo for no file info and with ForbiddenPermission iff the type/permission pair is not regular 0644/0755 or other 000. On success: the validated type and permission, no GitLink, size cut to 32 bits, the caller's name and digest, no assume-valid, no conflict |
| EntryCreation.AllowedPermission | inner/index/entry_other.go:32-40 | defines the accepted pairs: a regular file with 0644 or 0755, any other type with no permission bits |
| OsFiles.IsSymlink | inner/index/object_type.go:36 | defines the symlink test: the `os.ModeSymlink` bit of the mode is set |
| EntryCreation.CreatedModeDecodes | inner/index/entry_other.go:32-48 | the mode word of a created entry, the type shifted 12 bits left plus the permission, decodes back to the same type and permission |
| Objects.String | inner/object/object.go:23-36 | "undefined" exactly for values outside 0 to 3 |
| Objects.NamesIdentifyTypes | inner/object/object.go:16-36 | the four kinds have four different names |
| Objects.GetObjectPath | inner/object/object.go:46-59 | fails with InvalidHashLength iff the digest does not have 20 bytes; otherwise the path under the root has a 2-byte directory and an 18-byte file name |
| Objects.PathSpellsDigest | inner/object/object.go:58 | directory and file name spell the digest again, so different digests get different paths |
| CommitObjects.String | inner/commit/object.go:20-33 | "undefined" exactly for values outside 0 to 3 |
| CommitObjects.RenderingsDifferOnlyForCommit | inner/commit/object.go:20-33 | the two packages render a kind alike iff it is not the commit kind |
| CommitObjects.ReadObjectPath | inner/commit/object.go:43-55 | fails with InvalidHashLength iff the digest does not have 20 bytes; otherwise the path components spell the digest, with a 2-byte directory |
| CommitObjects.SameObjectPath | inner/commit/object.go:44-55 | both packages look up a digest at the same place |
| Blobs.Decimal | inner/object/blob.go:80 | `%d` of a size is a non-empty run of ASCII digits with no leading zero |
| Blobs.DecimalRoundTrip | inner/object/blob.go:80 | the digits written spell the size again |
| Blobs.BlobRoundTrip | inner/object/blob.go:80-91 | the object form parses back to the size and exactly the content read |
| Blobs.BlobHeader | inner/object/blob.go:80 | the header is "blob ", then ASCII digits that spell the size, then one NUL |
| Blobs.EncodeAsWritten | inner/object/blob.go:118-119 | the bytes taken before the close are the complete stream without the bytes `Close` adds |
| Blobs.EncodeAsWrittenDoesNotInflate | inner/object/blob.go:107-119 | the buffer taken before the writer is closed never inflates |
| Blobs.StoredZlibObeysLaws | inner/object/blob.go:107-111 | some compressor satisfies all the zlib laws, so they are consistent |
| Blobs.Source.Seek | inner/object/blob.go:82-84 | a closed source fails with Closed; an open one seeks as the reader does |
| Blobs.Source.Bytes | inner/object/blob.go:85-89 | a closed source fails with Closed; an open one reads as the reader does |
| Blobs.Source.Close | inner/object/blob.go:122-124 | the source is closed afterwards, and a second close fails |
| Blobs.DecodeAt | inner/object/blob.go:80-94 | decoding leaves the position within the data |
| Blobs.DecodeAtIff | inner/object/blob.go:80-94 | decoding succeeds iff the source is open and holds `size` bytes, wherever it stood. It then yields the header and the first `size` bytes; a short source gives EOF if empty, else UnexpectedEOF |
| Blobs.Blob.constructor | inner/object/blob.go:42-45 | a new blob has the given source and size and all three caches empty |
| Blobs.Blob.Type | inner/object/blob.go:69-71 | always the blob kind, rendered "blob" |
| Blobs.Blob.Decode | inner/object/blob.go:73-95 | succeeds iff the form is cached or readable, and every success returns the same form `"blob " + size + NUL + first size bytes`. The first success fills the cache; a failure leaves it empty; a cached form is returned without touching the source |
| Blobs.Blob.SHA1 | inner/object/blob.go:48-67 | the hash of the whole object form, header included, the same on every call. The first success fills the cache; a failed decode caches nothing. With the object form cached the reader does not move; with nothing cached the reader ends, and a failure reports, what decoding from the old position gives |
| Blobs.Blob.Encode | inner/object/blob.go:97-120 | the complete zlib stream of the object form, the same on every call. The first success fills the cache; a failed decode caches nothing. With the object form cached the reader does not move; with nothing cached the reader ends, and a failure reports, what decoding from the old position gives |
| Blobs.Blob.Close | inner/object/blob.go:122-124 | closes the source; a second close fails |
| Blobs.NewBlob | inner/object/blob.go:35-46 | a nil source gives NilReadCloser, then a negative size gives NegativeSize. Otherwise it builds a fresh blob with all caches empty |
| Blobs.EncodedBlobInflates | inner/object/blob.go:97-120 | what `Encode` hands out inflates to the object form, which parses back to the content |

## Left out

- `ReadIndex` and `NewBlobFromPath`: they find and open files with `os.Getwd`, `os.Open` and `os.Stat`. The model starts from the stream they would open.
- `util.FindGitRoot` is not part of this model; `GetObjectPath` and the commit `ReadObject` take the repository root as a parameter.
- `object.ReadObject` is not modelled: it opens a file and a zlib reader, and its dispatch is unfinished. The file opening in `commit.ReadObject` is not modelled either; `CommitObjects.ReadObjectPath` stops at the path it would open.
- `filepath.Join` is not modelled: its lexical cleaning is outside the model, and paths are kept as their three components.
- The `String` pretty-printers of `Entry`, `Header` and the index use fmt and hex formatting and are not modelled. The enumerations' `String` methods are modelled.
- The `log.Println` in `readTime` is not modelled: it is output only.
- SHA-1 and zlib are foreign library code. A blob is given a hash function and a compressor. Everything proved holds for any hash, and for any compressor that obeys `ZlibLaws`.
- `inner/index/entry_windows.go` is not modelled: it copies Win32 attributes and has no validation.
- `syscall.Stat_t` is not modelled as the platform type. Its field names (`Ctimespec`, `Mtimespec`) are the Darwin ones, and the model takes its values as plain integers.
- `inner/object/error.go` is not part of this model. `ObjectErrors` assumes the same three sentinels as `inner/commit/error.go`.
- GitIndex.EntryOf: requires an index whose entry list has the header's count, which `ParseIndex` always produces. A hand-built shorter index, on which Go's `Entries` would panic, is not modelled.
- `indexImpl.Header`: it returns the stored header unchanged, so it is the `header` field of the `Index` datatype and has no member of its own.
- Blobs.Blob.Decode and Blobs.Blob.SHA1 hand out fresh copies of their caches, which the model's values capture.
- Blobs.Blob.Encode: the first result shares its backing array with the cache, because `b.encode = buf.Bytes()` and `return buf.Bytes()` are the same slice (inner/object/blob.go:118-119). A caller that writes into that result changes what later calls return. Results are values here, so the model cannot express this aliasing.
- Blobs.Blob.Encode: the Go cache is `nil`-tested. A zero-length buffer would count as empty and be recomputed, while the model treats any stored value as cached.
- Binary.SeekTo and Binary.Reader.Seek: binutil's source is not part of this model. A seek past the end is assumed to fail with UnexpectedEOF and leave the position at the end, which is what `seekToNextEntry` expects (inner/index/entry.go:249). A seek that passed through and succeeded past the end would change results: a stream shorter than 12 bytes with zero entries would then decode an empty list instead of failing with UnexpectedEOF.
- Blobs.Source: the source's `Close` failure is modelled as Closed on a second close. Other close errors of real files are not modelled.

## Findings

| source | as written | input that shows it | evidently intended | confidence | as-written member | corrected member |
|---|---|---|---|---|---|---|
| inner/object/blob.go:107-119 | `Encode` takes `buf.Bytes()` while the zlib writer is still open: the `Close` is deferred and the `Flush` is commented out. The bytes returned and cached lack the final block and the Adler-32 trailer | any blob whose source holds its `size` bytes, e.g. an empty source and size 0: the encoding returned is not a complete zlib stream | close the writer, then take the buffer, so the result inflates back to the object form | not executed | Blobs.EncodeAsWrittenDoesNotInflate | Blobs.Blob.Encode |
