/**
 * The parts of Python's `stat` module that `check_permissions` uses, on the
 * low 16 bits of `st_mode` (file type in bits 12-15, permissions below).
 * Dafny has no octal literals; each constant gives its octal value.
 */
module Stat {

  type Mode = bv16

  const S_IFMT: Mode   := 0xF000  // 0o170000
  const S_IFDIR: Mode  := 0x4000  // 0o040000
  const S_IFREG: Mode  := 0x8000  // 0o100000
  const S_ISGID: Mode  := 0x0400  // 0o2000
  const S_IRUSR: Mode  := 0x0100  // 0o400
  const S_IWUSR: Mode  := 0x0080  // 0o200
  const S_IXUSR: Mode  := 0x0040  // 0o100
  const S_IRGRP: Mode  := 0x0020  // 0o040
  const S_IWGRP: Mode  := 0x0010  // 0o020
  const S_IXGRP: Mode  := 0x0008  // 0o010
  const S_IROTH: Mode  := 0x0004  // 0o004
  const S_IXOTH: Mode  := 0x0001  // 0o001

  /** `stat.S_IMODE`: the permission bits, without the file type. */
  function IMode(m: Mode): Mode { m & 0x0FFF }

  /** `stat.S_ISDIR`. */
  predicate IsDir(m: Mode) { m & S_IFMT == S_IFDIR }

  /** What `os.chmod(path, perm)` leaves in `st_mode`: the file type stays, the permissions are replaced. */
  function Chmod(m: Mode, perm: Mode): (r: Mode)
    ensures IsDir(r) == IsDir(m)
    ensures IMode(r) == IMode(perm)
  {
    (m & S_IFMT) | IMode(perm)
  }

  /**
   * The mode `check_permissions` aims for: read and write for owner and group,
   * read for others, plus set-group-id and execute for everybody on a directory,
   * or execute for everybody on a file marked executable.
   */
  function TargetMode(isDir: bool, executable: bool): (mode: Mode)
    ensures IMode(mode) == mode
  {
    var mode := S_IRGRP | S_IWGRP | S_IRUSR | S_IWUSR | S_IROTH;
    if isDir then mode | S_ISGID | S_IXUSR | S_IXGRP | S_IXOTH
    else if executable then mode | S_IXUSR | S_IXGRP | S_IXOTH
    else mode
  }

  /** The three target modes: 0o2775, 0o775 and 0o664. */
  lemma TargetModeValues(executable: bool)
    ensures TargetMode(true, executable) == 0x05FD   // 0o2775
    ensures TargetMode(false, true) == 0x01FD        // 0o775
    ensures TargetMode(false, false) == 0x01B4       // 0o664
  {
  }

  /** `imode ^ mode` is truthy exactly when the two modes differ. */
  lemma XorNonZeroIffDiffer(a: Mode, b: Mode)
    ensures (a ^ b != 0) <==> a != b
  {
  }
}
