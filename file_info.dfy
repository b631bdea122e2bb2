/** The slice of Go's `os.FileInfo` and of the platform `syscall.Stat_t`
    that building an index entry reads.  The values are sampled from the
    file system by the caller; here they are plain data. */
module OsFiles {
  import opened Binary

  /** `os.ModeSymlink`, bit 27 of an `os.FileMode`. */
  const ModeSymlink: u32 := 0x800_0000

  /** `mode.Perm()`: the nine permission bits, `mode & 0777`. */
  function Perm(mode: u32): (p: nat)
    ensures p < 0x200
  {
    mode % 0x200
  }

  /** `mode & os.ModeSymlink != 0`. */
  predicate IsSymlink(mode: u32) {
    mode / ModeSymlink % 2 == 1
  }

  /** A `syscall.Timespec`: seconds and nanoseconds. */
  datatype Timespec = Timespec(sec: int, nsec: int)

  /** The fields of `syscall.Stat_t` that an entry copies. */
  datatype Stat = Stat(ctime: Timespec, mtime: Timespec, dev: int, ino: u64, uid: u32, gid: u32)

  /** `os.FileInfo`: base name, mode word, size in bytes (`int64`) and the
      platform record behind `Sys()`. */
  datatype FileInfo = FileInfo(name: Bytes, mode: u32, size: int, sys: Stat)
}
