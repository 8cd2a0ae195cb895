/**
 * The backing provider's file operations (everything but the directory
 * cursor, which lives in XmpDir). Each operation issues one system call (two
 * for flush, none when a guard refuses the request) and reports the outcome
 * by the POSIX convention of Native.Status and Native.Count.
 *
 * Operations that only compute a result are functions returning the Effect
 * (result and the calls issued). Operations that write into memory the
 * caller owns (a byte buffer, fi->fh, *bufp, the configuration) are methods.
 * A null file-info pointer that the C code would dereference is excluded by a
 * precondition: that is undefined behaviour, not an error path.
 */
module Xmp {
  import opened Native

  /** struct fuse_config, the fields xmp_init sets. */
  class FuseConfig {
    var useIno: int
    var entryTimeout: real
    var attrTimeout: real
    var negativeTimeout: real

    constructor (useIno: int, entryTimeout: real, attrTimeout: real, negativeTimeout: real)
      ensures this.useIno == useIno && this.entryTimeout == entryTimeout
      ensures this.attrTimeout == attrTimeout && this.negativeTimeout == negativeTimeout
    {
      this.useIno := useIno;
      this.entryTimeout := entryTimeout;
      this.attrTimeout := attrTimeout;
      this.negativeTimeout := negativeTimeout;
    }
  }

  /** xmp_init: report the backing inode numbers and cache nothing; no private data (NULL). */
  method Init(cfg: FuseConfig) returns (data: Ptr<int>)
    modifies cfg
    ensures data == Null
    ensures cfg.useIno == 1
    ensures cfg.entryTimeout == 0.0 && cfg.attrTimeout == 0.0 && cfg.negativeTimeout == 0.0
  {
    cfg.useIno := 1;
    cfg.entryTimeout := 0.0;
    cfg.attrTimeout := 0.0;
    cfg.negativeTimeout := 0.0;
    data := Null;
  }

  /** What an fd-or-path operation acts on: the open descriptor when a file-info is given, the path otherwise. */
  function Subject(path: string, fi: Ptr<FileInfo>): (t: Target)
    reads Held(fi)
    ensures t.Fd? <==> fi.Addr?
    ensures fi.Addr? ==> t == Fd(fi.target.fh)
    ensures fi.Null? ==> t == Path(path)
  {
    match fi
    case Null => Path(path)
    case Addr(f) => Fd(f.fh)
  }

  /** An operation that issues call `c` and reports its status. */
  function StatusOf(os: Os, c: Syscall): Effect {
    Effect(Status(os.sys(c)), [c])
  }

  /** xmp_getattr: fstat on fi->fh when fi is given, lstat on the path otherwise. */
  function Getattr(os: Os, path: string, stbuf: Ptr<StatBuf>, fi: Ptr<FileInfo>): (e: Effect)
    reads Held(fi)
    ensures e.calls == [Stat(Subject(path, fi), stbuf)]
    ensures e.res == Status(os.sys(e.calls[0]))
  {
    StatusOf(os, Stat(Subject(path, fi), stbuf))
  }

  /** xmp_access */
  function Access(os: Os, path: string, mask: int): (e: Effect)
    ensures e.calls == [Syscall.Access(path, mask)]
    ensures e.res == Status(os.sys(e.calls[0]))
  {
    StatusOf(os, Syscall.Access(path, mask))
  }

  /**
   * xmp_readlink: ask for at most size-1 bytes, then terminate what arrived
   * with a NUL. Every write lands in buf[0..size); the result is 0, not the
   * length.
   */
  method Readlink(os: Os, path: string, buf: array<Byte>, size: nat) returns (r: int)
    requires 1 <= size <= buf.Length
    requires WithinBound(os.sys(ReadLink(path, size - 1)), size - 1)
    modifies buf
    ensures var o := os.sys(ReadLink(path, size - 1));
      && (o.ret == -1 ==> r == -o.errno && buf[..] == old(buf[..]))
      && (o.ret != -1 ==>
            && r == 0 && o.ret < size
            && buf[..o.ret] == o.data[..o.ret] && buf[o.ret] == 0
            && buf[o.ret + 1..] == old(buf[o.ret + 1..]))
    ensures buf[size..] == old(buf[size..])
  {
    var o := os.sys(ReadLink(path, size - 1));
    if o.ret == -1 {
      return -o.errno;
    }
    var n := o.ret;
    forall i | 0 <= i < n {
      buf[i] := o.data[i];
    }
    buf[n] := 0;
    r := 0;
  }

  /** xmp_mknod: mkfifo exactly when the mode names a FIFO, mknod otherwise. */
  function Mknod(os: Os, path: string, mode: bv32, rdev: nat): (e: Effect)
    ensures |e.calls| == 1
    ensures e.calls[0].MkFifo? <==> IsFifo(mode)
    ensures e.calls[0] == if IsFifo(mode) then MkFifo(path, mode) else MkNod(path, mode, rdev)
    ensures e.res == Status(os.sys(e.calls[0]))
  {
    if IsFifo(mode) then StatusOf(os, MkFifo(path, mode)) else StatusOf(os, MkNod(path, mode, rdev))
  }

  /** xmp_mkdir */
  function Mkdir(os: Os, path: string, mode: bv32): (e: Effect)
    ensures e.calls == [MkDir(path, mode)]
    ensures e.res == Status(os.sys(e.calls[0]))
  {
    StatusOf(os, MkDir(path, mode))
  }

  /** xmp_unlink */
  function Unlink(os: Os, path: string): (e: Effect)
    ensures e.calls == [Syscall.Unlink(path)]
    ensures e.res == Status(os.sys(e.calls[0]))
  {
    StatusOf(os, Syscall.Unlink(path))
  }

  /** xmp_rmdir */
  function Rmdir(os: Os, path: string): (e: Effect)
    ensures e.calls == [RmDir(path)]
    ensures e.res == Status(os.sys(e.calls[0]))
  {
    StatusOf(os, RmDir(path))
  }

  /** xmp_symlink: a link at `to` whose content is `from`. */
  function Symlink(os: Os, from: string, to: string): (e: Effect)
    ensures e.calls == [Syscall.Symlink(from, to)]
    ensures e.res == Status(os.sys(e.calls[0]))
  {
    StatusOf(os, Syscall.Symlink(from, to))
  }

  /** xmp_rename: any flag is refused with EINVAL before the file system is touched. */
  function Rename(os: Os, from: string, to: string, flags: nat): (e: Effect)
    ensures flags != 0 ==> e.res == -EINVAL && e.calls == []
    ensures flags == 0 ==> e.calls == [Syscall.Rename(from, to)] && e.res == Status(os.sys(e.calls[0]))
  {
    if flags != 0 then Effect(-EINVAL, []) else StatusOf(os, Syscall.Rename(from, to))
  }

  /** xmp_link */
  function Link(os: Os, from: string, to: string): (e: Effect)
    ensures e.calls == [Syscall.Link(from, to)]
    ensures e.res == Status(os.sys(e.calls[0]))
  {
    StatusOf(os, Syscall.Link(from, to))
  }

  /** xmp_chmod: fchmod on fi->fh when fi is given, chmod on the path otherwise. */
  function Chmod(os: Os, path: string, mode: bv32, fi: Ptr<FileInfo>): (e: Effect)
    reads Held(fi)
    ensures e.calls == [Syscall.Chmod(Subject(path, fi), mode)]
    ensures e.res == Status(os.sys(e.calls[0]))
  {
    StatusOf(os, Syscall.Chmod(Subject(path, fi), mode))
  }

  /** xmp_chown: fchown on fi->fh when fi is given, lchown on the path otherwise. */
  function Chown(os: Os, path: string, uid: nat, gid: nat, fi: Ptr<FileInfo>): (e: Effect)
    reads Held(fi)
    ensures e.calls == [Syscall.Chown(Subject(path, fi), uid, gid)]
    ensures e.res == Status(os.sys(e.calls[0]))
  {
    StatusOf(os, Syscall.Chown(Subject(path, fi), uid, gid))
  }

  /** xmp_truncate: ftruncate on fi->fh when fi is given, truncate on the path otherwise. */
  function Truncate(os: Os, path: string, size: int, fi: Ptr<FileInfo>): (e: Effect)
    reads Held(fi)
    ensures e.calls == [Syscall.Truncate(Subject(path, fi), size)]
    ensures e.res == Status(os.sys(e.calls[0]))
  {
    StatusOf(os, Syscall.Truncate(Subject(path, fi), size))
  }

  /** xmp_create: open with O_CREAT's mode; fi->fh is written only when the open succeeded. */
  method Create(os: Os, path: string, mode: bv32, fi: Ptr<FileInfo>) returns (r: int)
    requires fi.Addr?
    modifies fi.target
    ensures fi.target.flags == old(fi.target.flags)
    ensures var o := os.sys(OpenCreate(path, old(fi.target.flags), mode));
      && (o.ret == -1 ==> r == -o.errno && fi.target.fh == old(fi.target.fh))
      && (o.ret != -1 ==> r == 0 && fi.target.fh == o.ret)
  {
    var fd := os.sys(OpenCreate(path, fi.target.flags, mode)).ret;
    if fd == -1 {
      return -os.sys(OpenCreate(path, fi.target.flags, mode)).errno;
    }
    fi.target.fh := fd;
    r := 0;
  }

  /** xmp_open: fi->fh is written only when the open succeeded. */
  method Open(os: Os, path: string, fi: Ptr<FileInfo>) returns (r: int)
    requires fi.Addr?
    modifies fi.target
    ensures fi.target.flags == old(fi.target.flags)
    ensures var o := os.sys(Syscall.Open(path, old(fi.target.flags)));
      && (o.ret == -1 ==> r == -o.errno && fi.target.fh == old(fi.target.fh))
      && (o.ret != -1 ==> r == 0 && fi.target.fh == o.ret)
  {
    var o := os.sys(Syscall.Open(path, fi.target.flags));
    if o.ret == -1 {
      return -o.errno;
    }
    fi.target.fh := o.ret;
    r := 0;
  }

  /** xmp_read: pread into buf[0..size); the result is the byte count, or minus errno. */
  method Read(os: Os, path: string, buf: array<Byte>, size: nat, offset: int, fi: Ptr<FileInfo>) returns (r: int)
    requires fi.Addr? && size <= buf.Length
    requires WithinBound(os.sys(PRead(fi.target.fh, size, offset)), size)
    modifies buf
    ensures var o := os.sys(PRead(fi.target.fh, size, offset));
      && r == Count(o)
      && (o.ret == -1 ==> buf[..] == old(buf[..]))
      && (o.ret != -1 ==> buf[..o.ret] == o.data[..o.ret] && buf[o.ret..] == old(buf[o.ret..]))
  {
    var o := os.sys(PRead(fi.target.fh, size, offset));
    if o.ret == -1 {
      return -o.errno;
    }
    var n := o.ret;
    forall i | 0 <= i < n {
      buf[i] := o.data[i];
    }
    r := n;
  }

  /**
   * xmp_read_buf: hand back a fresh one-segment bufvec that tells libfuse to
   * read `size` bytes from fi->fh at `offset`. `mem` says whether malloc
   * succeeded; when it did not, *bufp is left alone and the result is -ENOMEM.
   */
  method ReadBuf(path: string, bufp: Cell<Ptr<BufVec>>, size: nat, offset: int, fi: Ptr<FileInfo>, mem: bool)
    returns (r: int)
    requires mem ==> fi.Addr?
    modifies bufp
    ensures !mem ==> r == -ENOMEM && bufp.val == old(bufp.val)
    ensures mem ==>
      && r == 0 && bufp.val.Addr? && fresh(bufp.val.target)
      && bufp.val.target.count == 1 && bufp.val.target.idx == 0 && bufp.val.target.off == 0
      && bufp.val.target.buf == [Buf(size, FUSE_BUF_IS_FD | FUSE_BUF_FD_SEEK, fi.target.fh, offset)]
  {
    if !mem {
      return -ENOMEM;
    }
    var src := new BufVec.Init(size);
    src.buf := src.buf[0 := src.buf[0].(flags := FUSE_BUF_IS_FD | FUSE_BUF_FD_SEEK, fd := fi.target.fh, pos := offset)];
    bufp.val := Addr(src);
    r := 0;
  }

  /** xmp_write: pwrite of buf[0..size); the result is the byte count, or minus errno. */
  function Write(os: Os, path: string, buf: seq<Byte>, size: nat, offset: int, fi: Ptr<FileInfo>): (e: Effect)
    reads Held(fi)
    requires fi.Addr? && size <= |buf|
    ensures e.calls == [PWrite(fi.target.fh, buf[..size], offset)]
    ensures e.res == Count(os.sys(e.calls[0]))
  {
    var c := PWrite(fi.target.fh, buf[..size], offset);
    Effect(Count(os.sys(c)), [c])
  }

  /**
   * xmp_write_buf: copy the caller's bufvec into fi->fh at `offset` through
   * fuse_buf_copy, whose result is returned as it is. `srcSize` is what
   * fuse_buf_size reports for the source.
   */
  function WriteBuf(os: Os, path: string, buf: Ptr<BufVec>, srcSize: nat, offset: int, fi: Ptr<FileInfo>): (e: Effect)
    reads Held(fi)
    requires fi.Addr? && buf.Addr?
    ensures e.calls == [BufCopy(Buf(srcSize, FUSE_BUF_IS_FD | FUSE_BUF_FD_SEEK, fi.target.fh, offset), buf.target, FUSE_BUF_SPLICE_NONBLOCK)]
    ensures e.res == os.sys(e.calls[0]).ret
  {
    var dst := Buf(srcSize, 0, -1, 0).(flags := FUSE_BUF_IS_FD | FUSE_BUF_FD_SEEK, fd := fi.target.fh, pos := offset);
    var c := BufCopy(dst, buf.target, FUSE_BUF_SPLICE_NONBLOCK);
    Effect(os.sys(c).ret, [c])
  }

  /** xmp_statfs */
  function Statfs(os: Os, path: string, stbuf: Ptr<StatVfsBuf>): (e: Effect)
    ensures e.calls == [StatVfs(path, stbuf)]
    ensures e.res == Status(os.sys(e.calls[0]))
  {
    StatusOf(os, StatVfs(path, stbuf))
  }

  /**
   * xmp_flush: close a duplicate of fi->fh, so that the file itself stays
   * open. A failed dup shows up as the failure of close(-1).
   */
  function Flush(os: Os, path: string, fi: Ptr<FileInfo>): (e: Effect)
    reads Held(fi)
    requires fi.Addr?
    ensures e.calls == [Dup(fi.target.fh), Close(os.sys(Dup(fi.target.fh)).ret)]
    ensures e.res == Status(os.sys(e.calls[1]))
  {
    var dup := Dup(fi.target.fh);
    var close := Close(os.sys(dup).ret);
    Effect(Status(os.sys(close)), [dup, close])
  }

  /** A flush never closes the descriptor it was asked to flush, as long as dup gave a different one. */
  lemma FlushKeepsDescriptor(os: Os, path: string, fi: Ptr<FileInfo>)
    requires fi.Addr? && os.sys(Dup(fi.target.fh)).ret != fi.target.fh
    ensures Close(fi.target.fh) !in Flush(os, path, fi).calls
  {
  }

  /** xmp_release: close fi->fh and report success whatever close says. */
  function Release(os: Os, path: string, fi: Ptr<FileInfo>): (e: Effect)
    reads Held(fi)
    requires fi.Addr?
    ensures e.res == 0
    ensures e.calls == [Close(fi.target.fh)]
  {
    Effect(0, [Close(fi.target.fh)])
  }

  /** xmp_fsync: without fdatasync available, a data-only sync is a full fsync. */
  function Fsync(os: Os, path: string, isdatasync: int, fi: Ptr<FileInfo>): (e: Effect)
    reads Held(fi)
    requires fi.Addr?
    ensures e.calls == [FSync(fi.target.fh)]
    ensures e.res == Status(os.sys(e.calls[0]))
  {
    StatusOf(os, FSync(fi.target.fh))
  }

  /** The result of an fsync does not depend on whether only data was to be synced. */
  lemma FsyncIgnoresDataSync(os: Os, path: string, a: int, b: int, fi: Ptr<FileInfo>)
    requires fi.Addr?
    ensures Fsync(os, path, a, fi) == Fsync(os, path, b, fi)
  {
  }

  /**
   * xmp_fallocate: any mode is refused with EOPNOTSUPP before the file is
   * touched; otherwise posix_fallocate, which returns its error number
   * directly, negated.
   */
  function Fallocate(os: Os, path: string, mode: int, offset: int, length: int, fi: Ptr<FileInfo>): (e: Effect)
    reads Held(fi)
    requires mode == 0 ==> fi.Addr?
    ensures mode != 0 ==> e.res == -EOPNOTSUPP && e.calls == []
    ensures mode == 0 ==> e.calls == [PosixFallocate(fi.target.fh, offset, length)]
    ensures mode == 0 ==> e.res == -os.sys(e.calls[0]).ret
  {
    if mode != 0 then Effect(-EOPNOTSUPP, [])
    else
      var c := PosixFallocate(fi.target.fh, offset, length);
      Effect(-os.sys(c).ret, [c])
  }

  /** posix_fallocate returns 0 or a positive error number; the FUSE runtime reads the result as that error. */
  lemma FallocateDecodes(os: Os, path: string, offset: int, length: int, fi: Ptr<FileInfo>)
    requires fi.Addr? && os.sys(PosixFallocate(fi.target.fh, offset, length)).ret >= 0
    ensures var ret := os.sys(PosixFallocate(fi.target.fh, offset, length)).ret;
      Decode(Fallocate(os, path, 0, offset, length, fi).res) == if ret == 0 then Success(0) else Failure(ret)
  {
  }

  /** xmp_flock */
  function Flock(os: Os, path: string, fi: Ptr<FileInfo>, op: int): (e: Effect)
    reads Held(fi)
    requires fi.Addr?
    ensures e.calls == [Syscall.Flock(fi.target.fh, op)]
    ensures e.res == Status(os.sys(e.calls[0]))
  {
    StatusOf(os, Syscall.Flock(fi.target.fh, op))
  }
}
