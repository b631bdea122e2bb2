/** The sentinel errors of the index package, plus the I/O failures of the
    reader, which the decoder passes on unchanged. */
module IndexErrors {
  import opened Results
  import Binary

  datatype Error =
    | NilReader
    | InvalidSignature
    | NilFileInfo
    | ForbiddenPermission
    | NotSupportedVersion
    | IndexOutOfEntryRanges
    | Io(cause: Binary.IoError)

  /** A reader failure passed on as the package's error. */
  function FromIo<T>(r: Result<T, Binary.IoError>): (e: Result<T, Error>)
    ensures e.Ok? <==> r.Ok?
    ensures e.Ok? ==> e.value == r.value
    ensures e.Err? ==> e.error == Io(r.error)
  {
    match r
    case Ok(v) => Ok(v)
    case Err(cause) => Err(Io(cause))
  }
}
