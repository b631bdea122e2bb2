/** Object kinds of the object store and where a loose object lives: the
    first two bytes of its digest name a directory under the repository
    root, the remaining eighteen the file in it. */
module Objects {
  import opened Results
  import opened Binary
  import opened ObjectErrors

  /** Go's `ObjectType` of the `object` package is an `int`; four values
      are named. */
  newtype ObjectType = int

  const BlobObject: ObjectType := 0
  const TreeObject: ObjectType := 1
  const CommitObject: ObjectType := 2
  const TagObject: ObjectType := 3

  predicate IsNamed(o: ObjectType) {
    BlobObject <= o <= TagObject
  }

  /** `ObjectType.String`; note that a commit renders as "object". */
  function String(o: ObjectType): (s: string)
    ensures s == "undefined" <==> !IsNamed(o)
  {
    match o
    case 0 => "blob"
    case 1 => "tree"
    case 2 => "object"
    case 3 => "tag"
    case _ => "undefined"
  }

  /** The four named kinds have four different names. */
  lemma NamesIdentifyTypes(o: ObjectType, u: ObjectType)
    requires IsNamed(o) && String(o) == String(u)
    ensures o == u
  {
  }

  /** Bytes of a digest as `GetObjectPath` expects it. */
  const DigestLength: nat := 20

  /** A path `root/dir/file`, kept as its three components; the lexical
      cleaning `filepath.Join` applies is not modelled. */
  datatype ObjectPath = ObjectPath(root: Bytes, dir: Bytes, file: Bytes)

  /** `GetObjectPath` with the repository root already found: a digest of
      any length but 20 is refused before anything else happens; otherwise
      `digest[:2]` is the directory and `digest[2:]` the file. */
  function GetObjectPath(root: Bytes, digest: Bytes): (r: Result<ObjectPath, Error>)
    ensures r.Err? <==> |digest| != DigestLength
    ensures r.Err? ==> r.error == InvalidHashLength
    ensures r.Ok? ==> r.value.root == root && |r.value.dir| == 2 && |r.value.file| == 18
  {
    if |digest| != DigestLength then Err(InvalidHashLength)
    else Ok(ObjectPath(root, digest[..2], digest[2..]))
  }

  /** The directory and file name together spell the digest again, so
      different digests are stored at different paths. */
  lemma PathSpellsDigest(root: Bytes, digest: Bytes, other: Bytes)
    requires GetObjectPath(root, digest).Ok?
    ensures var p := GetObjectPath(root, digest).value;
            p.dir + p.file == digest
    ensures GetObjectPath(root, other) == GetObjectPath(root, digest) ==> other == digest
  {
    var p := GetObjectPath(root, digest).value;
    assert p.dir + p.file == digest;
    if GetObjectPath(root, other) == GetObjectPath(root, digest) {
      assert other == other[..2] + other[2..];
    }
  }
}
