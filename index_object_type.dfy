/** The kind of file an index entry records: the 4-bit object type held in
    bits 12 to 15 of the entry's mode word. */
module IndexObjectTypes {
  import opened Results
  import opened OsFiles
  import opened IndexErrors

  /** Go's `ObjectType` of the index package is an unsigned integer; three
      values are named.  It is a different type from the object store's
      `ObjectType`. */
  newtype ObjectType = x: int | 0 <= x

  const RegularFile: ObjectType := 0x8
  const SymbolicLink: ObjectType := 0xA
  const GitLink: ObjectType := 0xE

  predicate IsNamed(t: ObjectType) {
    t == RegularFile || t == SymbolicLink || t == GitLink
  }

  /** `ObjectType.String`. */
  function String(t: ObjectType): (s: string)
    ensures s == "undefined" <==> !IsNamed(t)
  {
    match t
    case 0x8 => "regular"
    case 0xA => "symbolic link"
    case 0xE => "git link"
    case _ => "undefined"
  }

  /** The three named types have three different names. */
  lemma NamesIdentifyTypes(t: ObjectType, u: ObjectType)
    requires IsNamed(t) && String(t) == String(u)
    ensures t == u
  {
  }

  /** `GetObjectType`: a nil file info is an error; a symbolic link is
      `SymbolicLink`; everything else, directories and devices included, is
      `RegularFile`.  `GitLink` is never produced. */
  function GetObjectType(fileInfo: Option<FileInfo>): (r: Result<ObjectType, Error>)
    ensures r.Err? <==> fileInfo.None?
    ensures r.Err? ==> r.error == NilFileInfo
    ensures r.Ok? ==> (r.value == SymbolicLink <==> IsSymlink(fileInfo.value.mode))
    ensures r.Ok? ==> (r.value == RegularFile || r.value == SymbolicLink) && r.value != GitLink
  {
    match fileInfo
    case None => Err(NilFileInfo)
    case Some(info) => if IsSymlink(info.mode) then Ok(SymbolicLink) else Ok(RegularFile)
  }
}
