/** The `commit` package's copy of the object kinds and the part of its
    `ReadObject` that runs before the file system is touched. */
module CommitObjects {
  import opened Results
  import opened Binary
  import opened ObjectErrors
  import Objects

  /** Go's `ObjectType` of the `commit` package, a type of its own. */
  newtype ObjectType = int

  const BlobObject: ObjectType := 0
  const TreeObject: ObjectType := 1
  const CommitObject: ObjectType := 2
  const TagObject: ObjectType := 3

  predicate IsNamed(o: ObjectType) {
    BlobObject <= o <= TagObject
  }

  /** `ObjectType.String`; here a commit renders as "commit". */
  function String(o: ObjectType): (s: string)
    ensures s == "undefined" <==> !IsNamed(o)
  {
    match o
    case 0 => "blob"
    case 1 => "tree"
    case 2 => "commit"
    case 3 => "tag"
    case _ => "undefined"
  }

  /** The two packages render every kind alike except the commit kind. */
  lemma RenderingsDifferOnlyForCommit(o: int)
    ensures String(o as ObjectType) == Objects.String(o as Objects.ObjectType) <==> o != 2
  {
  }

  /** `ReadObject` up to opening the file: a digest of any length but 20
      is refused first; otherwise the file opened is
      `root/digest[:2]/digest[2:]`. */
  function ReadObjectPath(root: Bytes, digest: Bytes): (r: Result<Objects.ObjectPath, Error>)
    ensures r.Err? <==> |digest| != 20
    ensures r.Err? ==> r.error == InvalidHashLength
    ensures r.Ok? ==> r.value.dir + r.value.file == digest && |r.value.dir| == 2
  {
    if |digest| != 20 then Err(InvalidHashLength)
    else Ok(Objects.ObjectPath(root, digest[..2], digest[2..]))
  }

  /** Both packages look a digest up at the same place. */
  lemma SameObjectPath(root: Bytes, digest: Bytes)
    ensures ReadObjectPath(root, digest) == Objects.GetObjectPath(root, digest)
  {
  }
}
