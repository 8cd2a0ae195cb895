/**
 * The native side of the bridge: pointers, the records libfuse hands to
 * every operation, the system calls the backing provider issues, and the
 * POSIX convention by which a call reports failure (-1 and errno).
 *
 * The operating system is an oracle: `Os.sys` gives the outcome of every
 * system call, `Os.listing` the entries of a directory opened by path.
 * Nothing here says what the calls do to storage; the model only records
 * which calls are issued and how their outcomes become results.
 */
module Native {

  type Byte = bv8

  datatype Option<T> = None | Some(value: T)

  /** A raw pointer: null, or the address of a value. Const and mut pointers share this type. */
  datatype Ptr<T> = Null | Addr(target: T)

  /** struct fuse_file_info: the open flags and the 64-bit handle a provider may store. */
  class FileInfo {
    var flags: int
    var fh: int

    constructor (flags: int)
      ensures this.flags == flags && fh == 0
    {
      this.flags := flags;
      fh := 0;
    }
  }

  /** Output records the system fills in; their contents are not modelled. */
  class StatBuf { }
  class StatVfsBuf { }

  /** One segment of a struct fuse_bufvec (the `mem` pointer is not modelled). */
  datatype Buf = Buf(size: nat, flags: bv32, fd: int, pos: int)

  const FUSE_BUF_IS_FD: bv32 := 2
  const FUSE_BUF_FD_SEEK: bv32 := 4
  const FUSE_BUF_SPLICE_NONBLOCK: bv32 := 16

  /** struct fuse_bufvec, as FUSE_BUFVEC_INIT lays it out. */
  class BufVec {
    var count: nat
    var idx: nat
    var off: nat
    var buf: seq<Buf>

    /** FUSE_BUFVEC_INIT(size): one memory segment of `size` bytes, no descriptor. */
    constructor Init(size: nat)
      ensures count == 1 && idx == 0 && off == 0
      ensures buf == [Buf(size, 0, -1, 0)]
    {
      count, idx, off := 1, 0, 0;
      buf := [Buf(size, 0, -1, 0)];
    }
  }

  /** A memory cell whose address is passed as an out-parameter (`T *` written by the callee). */
  class Cell<T> {
    var val: T

    constructor (v: T)
      ensures val == v
    {
      val := v;
    }
  }

  /** The objects a nullable file-info pointer lets a function read. */
  function Held(fi: Ptr<FileInfo>): set<object> {
    if fi.Addr? then {fi.target} else {}
  }

  /** A directory entry as readdir(3) returns it; `off` is the stream cookie just after it. */
  datatype DirEnt = DirEnt(name: string, ino: nat, dtype: bv8, off: int)

  /** What a call acts on: a path (lstat, chmod, lchown, truncate) or a descriptor (fstat, fchmod, ...). */
  datatype Target = Path(path: string) | Fd(fd: int)

  /** The system and library calls the backing provider issues, with the arguments it passes. */
  datatype Syscall =
    | Stat(at: Target, stbuf: Ptr<StatBuf>)
    | Access(path: string, mask: int)
    | ReadLink(path: string, size: nat)
    | OpenDir(path: string)
    | MkFifo(path: string, mode: bv32)
    | MkNod(path: string, mode: bv32, rdev: nat)
    | MkDir(path: string, mode: bv32)
    | Unlink(path: string)
    | RmDir(path: string)
    | Symlink(target: string, linkpath: string)
    | Rename(from: string, to: string)
    | Link(from: string, to: string)
    | Chmod(at: Target, mode: bv32)
    | Chown(at: Target, uid: nat, gid: nat)
    | Truncate(at: Target, length: int)
    | Open(path: string, flags: int)
    | OpenCreate(path: string, flags: int, mode: bv32)
    | PRead(fd: int, size: nat, offset: int)
    | PWrite(fd: int, data: seq<Byte>, offset: int)
    | StatVfs(path: string, vfsbuf: Ptr<StatVfsBuf>)
    | Dup(fd: int)
    | Close(fd: int)
    | FSync(fd: int)
    | Flock(fd: int, op: int)
    | PosixFallocate(fd: int, offset: int, length: int)
    | BufCopy(dst: Buf, src: BufVec, copyFlags: bv32)

  /** The outcome of one call: its return value, the errno it left, and the bytes it produced. */
  datatype Outcome = Outcome(ret: int, errno: int, data: seq<Byte>)

  /** The operating system, as an oracle. */
  datatype Os = Os(sys: Syscall -> Outcome, listing: string -> seq<DirEnt>)

  /** What a provider operation did: its integer result and the calls it issued, in order. */
  datatype Effect = Effect(res: int, calls: seq<Syscall>)

  const ENOMEM: int := 12
  const EINVAL: int := 22
  const EOPNOTSUPP: int := 95

  const S_IFMT: bv32 := 0xF000
  const S_IFIFO: bv32 := 0x1000
  const DT_FIFO: bv8 := 1

  /** S_ISFIFO */
  predicate IsFifo(mode: bv32) {
    mode & S_IFMT == S_IFIFO
  }

  /** POSIX: a call that returns -1 has set errno to a positive error number. */
  predicate SetsErrno(o: Outcome) {
    o.ret == -1 ==> o.errno > 0
  }

  /** POSIX: a byte-producing call returns -1 or a count of at most `n` bytes, all of which it produced. */
  predicate WithinBound(o: Outcome, n: nat) {
    o.ret == -1 || (0 <= o.ret <= n && o.ret <= |o.data|)
  }

  /** The provider's convention for calls that report only success: 0, or minus errno after -1. */
  function Status(o: Outcome): (r: int)
    ensures SetsErrno(o) ==> (r == 0 <==> o.ret != -1) && (r < 0 <==> o.ret == -1)
  {
    if o.ret == -1 then -o.errno else 0
  }

  /** The provider's convention for calls that report a count: the count, or minus errno after -1. */
  function Count(o: Outcome): (r: int)
    ensures o.ret >= 0 ==> r == o.ret
    ensures SetsErrno(o) && o.ret >= -1 ==> (r < 0 <==> o.ret == -1)
  {
    if o.ret == -1 then -o.errno else o.ret
  }

  /** How the FUSE runtime reads an operation's result: negative means failure with that error number. */
  datatype Verdict = Success(value: nat) | Failure(errno: int)

  function Decode(res: int): Verdict {
    if res < 0 then Failure(-res) else Success(res)
  }

  /** A status result decodes to exactly the call's success, or to the errno it set. */
  lemma StatusDecodes(o: Outcome)
    requires SetsErrno(o)
    ensures Decode(Status(o)) == if o.ret == -1 then Failure(o.errno) else Success(0)
    ensures Status(o) == 0 <==> o.ret != -1
  {
  }

  /** A count result decodes to exactly the byte count, or to the errno the call set. */
  lemma CountDecodes(o: Outcome, n: nat)
    requires SetsErrno(o) && WithinBound(o, n)
    ensures Decode(Count(o)) == if o.ret == -1 then Failure(o.errno) else Success(o.ret)
    ensures 0 <= Count(o) <= n <==> o.ret != -1
  {
  }
}
