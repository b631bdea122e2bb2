/** The sentinel errors of the object store packages (`object` and
    `commit` declare the same three), plus the I/O failures of a blob's
    source, which are passed on unchanged. */
module ObjectErrors {
  import Binary

  datatype Error =
    | NilReadCloser
    | NegativeSize
    | InvalidHashLength
    | Io(cause: Binary.IoError)
}
