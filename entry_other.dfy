/** Building an index entry for a file from its `os.Lstat` information
    (the non-Windows variant).  Only two combinations of object type and
    permission bits are accepted: a regular file with 0644 or 0755, and
    anything else with no permission bits at all. */
module EntryCreation {
  import opened Results
  import opened Binary
  import opened OsFiles
  import opened IndexErrors
  import opened IndexObjectTypes
  import opened ConflictFlags
  import opened IndexEntries

  /** Octal 0644 and 0755. */
  const ReadWrite: nat := 0x1A4
  const Executable: nat := 0x1ED

  /** The type/permission pairs git records. */
  predicate AllowedPermission(objectType: ObjectType, perm: nat) {
    if objectType == RegularFile then perm == ReadWrite || perm == Executable else perm == 0
  }

  /** The same rule read off the mode word alone: a symbolic link carries
      no permission bits, everything else 0644 or 0755. */
  predicate ModeAccepted(mode: u32) {
    if IsSymlink(mode) then Perm(mode) == 0 else Perm(mode) == ReadWrite || Perm(mode) == Executable
  }

  /** `NewEntry`: a nil file info is refused, then a forbidden
      permission; otherwise the entry copies the file's times, device,
      inode, owner, size (cut to 32 bits), name and the given digest, with
      no assume-valid bit and no conflict. */
  function NewEntry(fileInfo: Option<FileInfo>, digest: Bytes): (r: Result<Entry, Error>)
    ensures r.Ok? <==> fileInfo.Some? && ModeAccepted(fileInfo.value.mode)
    ensures fileInfo.None? ==> r == Err(NilFileInfo)
    ensures fileInfo.Some? && !ModeAccepted(fileInfo.value.mode) ==> r == Err(ForbiddenPermission)
    ensures r.Ok? ==>
              var info := fileInfo.value;
              AllowedPermission(r.value.objectType, r.value.permission) &&
              r.value.permission == Perm(info.mode) &&
              (r.value.objectType == SymbolicLink <==> IsSymlink(info.mode)) &&
              r.value.objectType != GitLink &&
              r.value.size == info.size % 0x1_0000_0000 &&
              r.value.name == info.name && r.value.digest == digest &&
              !r.value.isAssumeValid && r.value.conflictFlag == NoConflict
  {
    match fileInfo
    case None => Err(NilFileInfo)
    case Some(info) =>
      var stat := info.sys;
      match GetObjectType(fileInfo)
      case Err(e) => Err(e)
      case Ok(objectType) =>
        var perm := Perm(info.mode);
        if !AllowedPermission(objectType, perm) then Err(ForbiddenPermission)
        else
          Ok(Entry(
            Unix(stat.ctime.sec, stat.ctime.nsec), Unix(stat.mtime.sec, stat.mtime.nsec),
            stat.dev, stat.ino, objectType, perm, stat.uid, stat.gid,
            info.size % 0x1_0000_0000, digest, false, NoConflict, info.name))
  }

  /** The mode word git stores for a created entry, `type << 12 | perm`,
      is split by the decoder back into the same type and permission. */
  lemma CreatedModeDecodes(fileInfo: Option<FileInfo>, digest: Bytes)
    requires NewEntry(fileInfo, digest).Ok?
    ensures var e := NewEntry(fileInfo, digest).value;
            e.objectType as int * 0x1000 + e.permission < 0x1_0000_0000 &&
            SplitMode(e.objectType as int * 0x1000 + e.permission) == Mode(e.permission, e.objectType)
  {
    var e := NewEntry(fileInfo, digest).value;
    ModeIgnoresUnusedBits(e.permission, 0, e.objectType as int, 0);
  }
}
