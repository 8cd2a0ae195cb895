/**
 * The bridge between the FUSE callback table and the backing provider. Every
 * callback maps its path into the backing tree by prefixing it with
 * /tmp/fsdata, turns optional references into nullable pointers, calls the
 * provider and returns its integer unchanged. A Rust panic (a NUL byte in a
 * path, an `unwrap` of nothing, an index past the end of a slice) is a reply
 * of its own: the callback panics instead of answering.
 *
 * The bridge holds no state (Passthru is a unit struct), so its callbacks
 * are functions unless the provider call they forward writes memory.
 */
module Passthru {
  import opened Native
  import Xmp
  import XmpDir

  /** Why a callback panicked. */
  datatype Panic = InteriorNul | UnwrapNone | IndexOutOfBounds

  /** What a callback does: `Ok` with the provider's result, or a panic. */
  datatype Reply = Ok(res: int) | Panicked(why: Panic)

  /** `Option<&T>::as_ptr` and `Option<&mut T>::as_mut_ptr`: none is the null pointer, a reference its address. */
  function AsPtr<T>(o: Option<T>): (p: Ptr<T>)
    ensures p.Null? <==> o.None?
    ensures p.Addr? ==> p.target == o.value
  {
    match o
    case None => Null
    case Some(v) => Addr(v)
  }

  /** `<*mut T>::as_mut`: the null pointer is none, an address the reference to its target. */
  function FromPtr<T>(p: Ptr<T>): (o: Option<T>)
    ensures o.None? <==> p.Null?
    ensures o.Some? ==> o.value == p.target
  {
    match p
    case Null => None
    case Addr(v) => Some(v)
  }

  /** The two conversions are inverse: nothing but null and addresses is produced, and nothing is lost. */
  lemma PtrRoundTrip<T>(o: Option<T>, p: Ptr<T>)
    ensures FromPtr(AsPtr(o)) == o
    ensures AsPtr(FromPtr(p)) == p
  {
  }

  const BackingRoot: string := "/tmp/fsdata"

  /** `Passthru::canonicalize`: the backing path is the root followed by the path, or nothing (a panic) when it holds a NUL byte. */
  function Canonicalize(path: string): (c: Option<string>)
    ensures c.Some? <==> '\0' !in path
    ensures c.Some? ==> |c.value| == |BackingRoot| + |path|
    ensures c.Some? ==> c.value[..|BackingRoot|] == BackingRoot && c.value[|BackingRoot|..] == path
  {
    var full := BackingRoot + path;
    if '\0' in full then None else Some(full)
  }

  /** The virtual path a backing path stands for, when it lies under the root. */
  function Strip(full: string): (p: Option<string>)
    ensures p.Some? <==> BackingRoot <= full
  {
    if BackingRoot <= full then Some(full[|BackingRoot|..]) else None
  }

  /** Canonicalization loses nothing: stripping the root gives the path back. */
  lemma StripCanonical(path: string)
    requires '\0' !in path
    ensures Strip(Canonicalize(path).value) == Some(path)
  {
    assert BackingRoot <= BackingRoot + path;
  }

  /** Distinct paths reach distinct backing paths. */
  lemma CanonicalizeInjective(p: string, q: string)
    requires '\0' !in p && '\0' !in q && Canonicalize(p) == Canonicalize(q)
    ensures p == q
  {
    StripCanonical(p);
    StripCanonical(q);
  }

  /** No normalisation: no separator is added, and `..` is kept as it is. */
  lemma CanonicalizeIsLiteral()
    ensures Canonicalize("") == Some("/tmp/fsdata")
    ensures Canonicalize("x") == Some("/tmp/fsdatax")
    ensures Canonicalize("/a/../b") == Some("/tmp/fsdata/a/../b")
    ensures Canonicalize("/a\0b") == None
  {
    assert BackingRoot + "" == "/tmp/fsdata";
    assert BackingRoot + "x" == "/tmp/fsdatax";
    assert BackingRoot + "/a/../b" == "/tmp/fsdata/a/../b";
    assert "/a\0b"[2] == '\0';
  }

  /** getattr: stbuf is required (unwrapped after the path is canonicalized); fi may be null. */
  function Getattr(os: Os, path: string, stbuf: Option<StatBuf>, fi: Option<FileInfo>): (rep: Reply)
    reads Held(AsPtr(fi))
    ensures '\0' in path ==> rep == Panicked(InteriorNul)
    ensures '\0' !in path && stbuf.None? ==> rep == Panicked(UnwrapNone)
    ensures '\0' !in path && stbuf.Some? ==>
              rep == Ok(Xmp.Getattr(os, BackingRoot + path, AsPtr(stbuf), AsPtr(fi)).res)
  {
    match Canonicalize(path)
    case None => Panicked(InteriorNul)
    case Some(p) =>
      match stbuf
      case None => Panicked(UnwrapNone)
      case Some(st) => Ok(Xmp.Getattr(os, p, Addr(st), AsPtr(fi)).res)
  }

  /** readlink: the slice's length is the size; the provider needs it to be at least 1. */
  method Readlink(os: Os, path: string, buf: array<Byte>) returns (rep: Reply)
    requires '\0' !in path ==> buf.Length >= 1
    requires '\0' !in path ==>
               WithinBound(os.sys(ReadLink(BackingRoot + path, buf.Length - 1)), buf.Length - 1)
    modifies buf
    ensures '\0' in path ==> rep == Panicked(InteriorNul) && buf[..] == old(buf[..])
    ensures '\0' !in path ==>
              var o := os.sys(ReadLink(BackingRoot + path, buf.Length - 1));
              && rep.Ok?
              && (o.ret == -1 ==> rep.res == -o.errno && buf[..] == old(buf[..]))
              && (o.ret != -1 ==>
                    && rep.res == 0 && o.ret < buf.Length
                    && buf[..o.ret] == o.data[..o.ret] && buf[o.ret] == 0
                    && buf[o.ret + 1..] == old(buf[o.ret + 1..]))
  {
    var p := Canonicalize(path);
    if p.None? {
      return Panicked(InteriorNul);
    }
    var r := Xmp.Readlink(os, p.value, buf, buf.Length);
    rep := Ok(r);
  }

  /** mknod */
  function Mknod(os: Os, path: string, mode: bv32, rdev: nat): (rep: Reply)
    ensures '\0' in path ==> rep == Panicked(InteriorNul)
    ensures '\0' !in path ==> rep == Ok(Xmp.Mknod(os, BackingRoot + path, mode, rdev).res)
  {
    match Canonicalize(path)
    case None => Panicked(InteriorNul)
    case Some(p) => Ok(Xmp.Mknod(os, p, mode, rdev).res)
  }

  /** mkdir */
  function Mkdir(os: Os, path: string, mode: bv32): (rep: Reply)
    ensures '\0' in path ==> rep == Panicked(InteriorNul)
    ensures '\0' !in path ==> rep == Ok(Xmp.Mkdir(os, BackingRoot + path, mode).res)
  {
    match Canonicalize(path)
    case None => Panicked(InteriorNul)
    case Some(p) => Ok(Xmp.Mkdir(os, p, mode).res)
  }

  /** unlink */
  function Unlink(os: Os, path: string): (rep: Reply)
    ensures '\0' in path ==> rep == Panicked(InteriorNul)
    ensures '\0' !in path ==> rep == Ok(Xmp.Unlink(os, BackingRoot + path).res)
  {
    match Canonicalize(path)
    case None => Panicked(InteriorNul)
    case Some(p) => Ok(Xmp.Unlink(os, p).res)
  }

  /** rmdir */
  function Rmdir(os: Os, path: string): (rep: Reply)
    ensures '\0' in path ==> rep == Panicked(InteriorNul)
    ensures '\0' !in path ==> rep == Ok(Xmp.Rmdir(os, BackingRoot + path).res)
  {
    match Canonicalize(path)
    case None => Panicked(InteriorNul)
    case Some(p) => Ok(Xmp.Rmdir(os, p).res)
  }

  /** symlink, as written: the link's content `from` is canonicalized like a path. */
  function Symlink(os: Os, from: string, to: string): (rep: Reply)
    ensures '\0' in from || '\0' in to ==> rep == Panicked(InteriorNul)
    ensures '\0' !in from && '\0' !in to ==>
              rep == Ok(Xmp.Symlink(os, BackingRoot + from, BackingRoot + to).res)
  {
    match (Canonicalize(from), Canonicalize(to))
    case (Some(f), Some(t)) => Ok(Xmp.Symlink(os, f, t).res)
    case _ => Panicked(InteriorNul)
  }

  /** A relative link content is rewritten: the link to "t.txt" is stored as "/tmp/fsdatat.txt". */
  lemma SymlinkRewritesContent(os: Os)
    ensures Symlink(os, "t.txt", "/l") == Ok(Status(os.sys(Syscall.Symlink("/tmp/fsdatat.txt", "/tmp/fsdata/l"))))
    ensures "/tmp/fsdatat.txt" != "t.txt"
  {
    assert BackingRoot + "t.txt" == "/tmp/fsdatat.txt";
    assert BackingRoot + "/l" == "/tmp/fsdata/l";
  }

  /** symlink, corrected: the link's content is passed as given; only the link's own path is canonicalized. */
  function SymlinkVerbatim(os: Os, from: string, to: string): (rep: Reply)
    ensures '\0' in from || '\0' in to ==> rep == Panicked(InteriorNul)
    ensures '\0' !in from && '\0' !in to ==> rep == Ok(Xmp.Symlink(os, from, BackingRoot + to).res)
  {
    match (Canonicalize(to), '\0' in from)
    case (Some(t), false) => Ok(Xmp.Symlink(os, from, t).res)
    case _ => Panicked(InteriorNul)
  }

  /** The corrected symlink stores exactly the content it was given. */
  lemma SymlinkVerbatimKeepsContent(os: Os, from: string, to: string)
    requires '\0' !in from && '\0' !in to
    ensures Xmp.Symlink(os, from, BackingRoot + to).calls[0].target == from
    ensures SymlinkVerbatim(os, from, to) == Ok(Status(os.sys(Xmp.Symlink(os, from, BackingRoot + to).calls[0])))
  {
  }

  /** rename: both paths canonicalized on their own, flags forwarded unchanged. */
  function Rename(os: Os, from: string, to: string, flags: nat): (rep: Reply)
    ensures '\0' in from || '\0' in to ==> rep == Panicked(InteriorNul)
    ensures '\0' !in from && '\0' !in to ==>
              rep == Ok(Xmp.Rename(os, BackingRoot + from, BackingRoot + to, flags).res)
  {
    match (Canonicalize(from), Canonicalize(to))
    case (Some(f), Some(t)) => Ok(Xmp.Rename(os, f, t, flags).res)
    case _ => Panicked(InteriorNul)
  }

  /** A rename with flags is refused with EINVAL and never reaches the file system. */
  lemma RenameWithFlagsRefused(os: Os, from: string, to: string, flags: nat)
    requires '\0' !in from && '\0' !in to && flags != 0
    ensures Rename(os, from, to, flags) == Ok(-EINVAL)
    ensures Xmp.Rename(os, BackingRoot + from, BackingRoot + to, flags).calls == []
  {
  }

  /** link */
  function Link(os: Os, from: string, to: string): (rep: Reply)
    ensures '\0' in from || '\0' in to ==> rep == Panicked(InteriorNul)
    ensures '\0' !in from && '\0' !in to ==>
              rep == Ok(Xmp.Link(os, BackingRoot + from, BackingRoot + to).res)
  {
    match (Canonicalize(from), Canonicalize(to))
    case (Some(f), Some(t)) => Ok(Xmp.Link(os, f, t).res)
    case _ => Panicked(InteriorNul)
  }

  /** chmod */
  function Chmod(os: Os, path: string, mode: bv32, fi: Option<FileInfo>): (rep: Reply)
    reads Held(AsPtr(fi))
    ensures '\0' in path ==> rep == Panicked(InteriorNul)
    ensures '\0' !in path ==> rep == Ok(Xmp.Chmod(os, BackingRoot + path, mode, AsPtr(fi)).res)
  {
    match Canonicalize(path)
    case None => Panicked(InteriorNul)
    case Some(p) => Ok(Xmp.Chmod(os, p, mode, AsPtr(fi)).res)
  }

  /** chown */
  function Chown(os: Os, path: string, uid: nat, gid: nat, fi: Option<FileInfo>): (rep: Reply)
    reads Held(AsPtr(fi))
    ensures '\0' in path ==> rep == Panicked(InteriorNul)
    ensures '\0' !in path ==> rep == Ok(Xmp.Chown(os, BackingRoot + path, uid, gid, AsPtr(fi)).res)
  {
    match Canonicalize(path)
    case None => Panicked(InteriorNul)
    case Some(p) => Ok(Xmp.Chown(os, p, uid, gid, AsPtr(fi)).res)
  }

  /** truncate */
  function Truncate(os: Os, path: string, size: int, fi: Option<FileInfo>): (rep: Reply)
    reads Held(AsPtr(fi))
    ensures '\0' in path ==> rep == Panicked(InteriorNul)
    ensures '\0' !in path ==> rep == Ok(Xmp.Truncate(os, BackingRoot + path, size, AsPtr(fi)).res)
  {
    match Canonicalize(path)
    case None => Panicked(InteriorNul)
    case Some(p) => Ok(Xmp.Truncate(os, p, size, AsPtr(fi)).res)
  }

  /** With a file-info, the fd-or-path callbacks act on its descriptor; without one, on the backing path. */
  lemma SubjectFollowsFileInfo(os: Os, path: string, fi: Option<FileInfo>,
                                stbuf: Ptr<StatBuf>, mode: bv32, uid: nat, gid: nat, size: int)
    requires '\0' !in path
    ensures var t := if fi.Some? then Fd(fi.value.fh) else Path(BackingRoot + path);
      && Xmp.Getattr(os, BackingRoot + path, stbuf, AsPtr(fi)).calls == [Stat(t, stbuf)]
      && Xmp.Chmod(os, BackingRoot + path, mode, AsPtr(fi)).calls == [Syscall.Chmod(t, mode)]
      && Xmp.Chown(os, BackingRoot + path, uid, gid, AsPtr(fi)).calls == [Syscall.Chown(t, uid, gid)]
      && Xmp.Truncate(os, BackingRoot + path, size, AsPtr(fi)).calls == [Syscall.Truncate(t, size)]
  {
  }

  /** open: fi is dereferenced by the provider, so it must be given once the path is accepted. */
  method Open(os: Os, path: string, fi: Option<FileInfo>) returns (rep: Reply)
    requires '\0' !in path ==> fi.Some?
    modifies Held(AsPtr(fi))
    ensures '\0' in path ==> rep == Panicked(InteriorNul) && (fi.Some? ==> fi.value.fh == old(fi.value.fh))
    ensures fi.Some? ==> fi.value.flags == old(fi.value.flags)
    ensures '\0' !in path ==>
              var o := os.sys(Syscall.Open(BackingRoot + path, old(fi.value.flags)));
              && (o.ret == -1 ==> rep == Ok(-o.errno) && fi.value.fh == old(fi.value.fh))
              && (o.ret != -1 ==> rep == Ok(0) && fi.value.fh == o.ret)
  {
    var p := Canonicalize(path);
    if p.None? {
      return Panicked(InteriorNul);
    }
    var r := Xmp.Open(os, p.value, AsPtr(fi));
    rep := Ok(r);
  }

  /** read: the slice's length is the size asked of pread. */
  method Read(os: Os, path: string, buf: array<Byte>, offset: int, fi: Option<FileInfo>) returns (rep: Reply)
    requires '\0' !in path ==>
               fi.Some? && WithinBound(os.sys(PRead(fi.value.fh, buf.Length, offset)), buf.Length)
    modifies buf
    ensures '\0' in path ==> rep == Panicked(InteriorNul) && buf[..] == old(buf[..])
    ensures '\0' !in path ==>
              var o := os.sys(PRead(fi.value.fh, buf.Length, offset));
              && rep == Ok(Count(o))
              && (o.ret != -1 ==> buf[..o.ret] == o.data[..o.ret] && buf[o.ret..] == old(buf[o.ret..]))
              && (o.ret == -1 ==> buf[..] == old(buf[..]))
  {
    var p := Canonicalize(path);
    if p.None? {
      return Panicked(InteriorNul);
    }
    var r := Xmp.Read(os, p.value, buf, buf.Length, offset, AsPtr(fi));
    rep := Ok(r);
  }

  /** write: the whole slice is written; its length is the size. */
  function Write(os: Os, path: string, buf: seq<Byte>, offset: int, fi: Option<FileInfo>): (rep: Reply)
    reads Held(AsPtr(fi))
    requires '\0' !in path ==> fi.Some?
    ensures '\0' in path ==> rep == Panicked(InteriorNul)
    ensures '\0' !in path ==> rep == Ok(Count(os.sys(PWrite(fi.value.fh, buf, offset))))
  {
    match Canonicalize(path)
    case None => Panicked(InteriorNul)
    case Some(p) =>
      assert buf[..|buf|] == buf;
      Ok(Xmp.Write(os, p, buf, |buf|, offset, AsPtr(fi)).res)
  }

  /** statfs: stbuf is optional here and passed on as a nullable pointer. */
  function Statfs(os: Os, path: string, stbuf: Option<StatVfsBuf>): (rep: Reply)
    ensures '\0' in path ==> rep == Panicked(InteriorNul)
    ensures '\0' !in path ==> rep == Ok(Xmp.Statfs(os, BackingRoot + path, AsPtr(stbuf)).res)
  {
    match Canonicalize(path)
    case None => Panicked(InteriorNul)
    case Some(p) => Ok(Xmp.Statfs(os, p, AsPtr(stbuf)).res)
  }

  /** flush */
  function Flush(os: Os, path: string, fi: Option<FileInfo>): (rep: Reply)
    reads Held(AsPtr(fi))
    requires '\0' !in path ==> fi.Some?
    ensures '\0' in path ==> rep == Panicked(InteriorNul)
    ensures '\0' !in path ==> rep == Ok(Xmp.Flush(os, BackingRoot + path, AsPtr(fi)).res)
  {
    match Canonicalize(path)
    case None => Panicked(InteriorNul)
    case Some(p) => Ok(Xmp.Flush(os, p, AsPtr(fi)).res)
  }

  /** release */
  function Release(os: Os, path: string, fi: Option<FileInfo>): (rep: Reply)
    reads Held(AsPtr(fi))
    requires '\0' !in path ==> fi.Some?
    ensures '\0' in path ==> rep == Panicked(InteriorNul)
    ensures '\0' !in path ==> rep == Ok(Xmp.Release(os, BackingRoot + path, AsPtr(fi)).res) && rep == Ok(0)
    ensures '\0' !in path ==> Xmp.Release(os, BackingRoot + path, AsPtr(fi)).calls == [Close(fi.value.fh)]
  {
    match Canonicalize(path)
    case None => Panicked(InteriorNul)
    case Some(p) => Ok(Xmp.Release(os, p, AsPtr(fi)).res)
  }

  /** fsync */
  function Fsync(os: Os, path: string, isdatasync: int, fi: Option<FileInfo>): (rep: Reply)
    reads Held(AsPtr(fi))
    requires '\0' !in path ==> fi.Some?
    ensures '\0' in path ==> rep == Panicked(InteriorNul)
    ensures '\0' !in path ==> rep == Ok(Xmp.Fsync(os, BackingRoot + path, isdatasync, AsPtr(fi)).res)
  {
    match Canonicalize(path)
    case None => Panicked(InteriorNul)
    case Some(p) => Ok(Xmp.Fsync(os, p, isdatasync, AsPtr(fi)).res)
  }

  /** opendir: on success the cursor's address lands in fi->fh. */
  method Opendir(os: Os, path: string, fi: Option<FileInfo>, mem: Option<nat>) returns (rep: Reply, d: XmpDir.DirCursor?)
    requires '\0' !in path ==> XmpDir.Cookies(os.listing(BackingRoot + path))
    requires '\0' !in path && mem.Some? && os.sys(Syscall.OpenDir(BackingRoot + path)).ret != -1 ==> fi.Some?
    modifies Held(AsPtr(fi))
    ensures '\0' in path ==> rep == Panicked(InteriorNul) && d == null
    ensures '\0' !in path && mem.None? ==> rep == Ok(-ENOMEM) && d == null
    ensures '\0' !in path && mem.Some? && os.sys(Syscall.OpenDir(BackingRoot + path)).ret == -1 ==>
              rep == Ok(-os.sys(Syscall.OpenDir(BackingRoot + path)).errno) && d == null
    ensures d == null && fi.Some? ==> unchanged(fi.value)
    ensures fi.Some? ==> fi.value.flags == old(fi.value.flags)
    ensures '\0' !in path && mem.Some? && os.sys(Syscall.OpenDir(BackingRoot + path)).ret != -1 ==>
              && rep == Ok(0) && d != null && fresh(d) && fresh(d.dp) && d.Valid() && d.dp.open
              && d.addr == mem.value
              && d.dp.entries == os.listing(BackingRoot + path) && d.State() == XmpDir.View(0, 0)
              && d.entry == None
              && fi.value.fh == d.addr
  {
    d := null;
    var p := Canonicalize(path);
    if p.None? {
      return Panicked(InteriorNul), null;
    }
    var r;
    r, d := XmpDir.OpenDir(os, p.value, AsPtr(fi), mem);
    rep := Ok(r);
  }

  /** The sinks a readdir may fill. */
  function Sinks(buf: Option<XmpDir.Sink>): set<object> {
    if buf.Some? then {buf.value} else {}
  }

  /**
   * readdir: buf is required (unwrapped after the path is canonicalized); the
   * cursor `d` is the one fi->fh holds the address of.
   */
  method Readdir(path: string, buf: Option<XmpDir.Sink>, offset: int, fi: Option<FileInfo>, d: XmpDir.DirCursor, flags: nat)
    returns (rep: Reply)
    requires '\0' !in path && buf.Some? ==>
               && fi.Some? && fi.value.fh == d.addr
               && d.Valid() && d.dp.open && buf.value.Valid() && XmpDir.IsCookie(d.dp.entries, offset)
    modifies d, d.dp, Sinks(buf)
    ensures '\0' in path ==> rep == Panicked(InteriorNul) && unchanged(d, d.dp) && unchanged(Sinks(buf))
    ensures '\0' !in path && buf.None? ==> rep == Panicked(UnwrapNone) && unchanged(d, d.dp)
    ensures '\0' !in path && buf.Some? ==>
              var s := XmpDir.Step(d.dp.entries, old(d.State()), offset, old(buf.value.Room()));
              && rep == Ok(0) && d.Valid() && d.dp.open && buf.value.Valid()
              && d.State() == s.0
              && buf.value.items == old(buf.value.items) + XmpDir.Fills(s.1)
              && (d.entry.Some? <==> d.State().resume < |d.dp.entries|)
  {
    var p := Canonicalize(path);
    if p.None? {
      return Panicked(InteriorNul);
    }
    if buf.None? {
      return Panicked(UnwrapNone);
    }
    var r := XmpDir.ReadDir(p.value, buf.value, offset, d, flags);
    rep := Ok(r);
  }

  /**
   * releasedir, as written: it forwards to the provider's release, which
   * closes fi->fh as if it were a file descriptor. The directory stream is
   * never closed.
   */
  function Releasedir(os: Os, path: string, fi: Option<FileInfo>): (rep: Reply)
    reads Held(AsPtr(fi))
    requires '\0' !in path ==> fi.Some?
    ensures '\0' in path ==> rep == Panicked(InteriorNul)
    ensures '\0' !in path ==> rep == Ok(Xmp.Release(os, BackingRoot + path, AsPtr(fi)).res)
  {
    match Canonicalize(path)
    case None => Panicked(InteriorNul)
    case Some(p) => Ok(Xmp.Release(os, p, AsPtr(fi)).res)
  }

  /** As written, releasing a directory issues one close on the cursor's address and reports success. */
  lemma ReleasedirClosesCursorAddress(os: Os, path: string, fi: FileInfo, d: XmpDir.DirCursor)
    requires '\0' !in path && fi.fh == d.addr
    ensures Releasedir(os, path, Some(fi)) == Ok(0)
    ensures Xmp.Release(os, BackingRoot + path, Addr(fi)).calls == [Close(d.addr)]
  {
  }

  /** releasedir, corrected: forward to the provider's releasedir, which closes the stream. */
  method ReleasedirFixed(path: string, fi: Option<FileInfo>, d: XmpDir.DirCursor) returns (rep: Reply)
    requires '\0' !in path ==> fi.Some? && fi.value.fh == d.addr
    modifies d.dp
    ensures '\0' in path ==> rep == Panicked(InteriorNul) && d.dp.open == old(d.dp.open)
    ensures '\0' !in path ==> rep == Ok(0) && !d.dp.open
  {
    var p := Canonicalize(path);
    if p.None? {
      return Panicked(InteriorNul);
    }
    var r := XmpDir.ReleaseDir(p.value, d);
    rep := Ok(r);
  }

  /** access */
  function Access(os: Os, path: string, mask: int): (rep: Reply)
    ensures '\0' in path ==> rep == Panicked(InteriorNul)
    ensures '\0' !in path ==> rep == Ok(Xmp.Access(os, BackingRoot + path, mask).res)
  {
    match Canonicalize(path)
    case None => Panicked(InteriorNul)
    case Some(p) => Ok(Xmp.Access(os, p, mask).res)
  }

  /** create */
  method Create(os: Os, path: string, mode: bv32, fi: Option<FileInfo>) returns (rep: Reply)
    requires '\0' !in path ==> fi.Some?
    modifies Held(AsPtr(fi))
    ensures '\0' in path ==> rep == Panicked(InteriorNul) && (fi.Some? ==> fi.value.fh == old(fi.value.fh))
    ensures fi.Some? ==> fi.value.flags == old(fi.value.flags)
    ensures '\0' !in path ==>
              var o := os.sys(OpenCreate(BackingRoot + path, old(fi.value.flags), mode));
              && (o.ret == -1 ==> rep == Ok(-o.errno) && fi.value.fh == old(fi.value.fh))
              && (o.ret != -1 ==> rep == Ok(0) && fi.value.fh == o.ret)
  {
    var p := Canonicalize(path);
    if p.None? {
      return Panicked(InteriorNul);
    }
    var r := Xmp.Create(os, p.value, mode, AsPtr(fi));
    rep := Ok(r);
  }

  /** write_buf: `srcSize` is what fuse_buf_size reports for the caller's bufvec. */
  function WriteBuf(os: Os, path: string, buf: Option<BufVec>, srcSize: nat, offset: int, fi: Option<FileInfo>): (rep: Reply)
    reads Held(AsPtr(fi))
    requires '\0' !in path ==> fi.Some? && buf.Some?
    ensures '\0' in path ==> rep == Panicked(InteriorNul)
    ensures '\0' !in path ==> rep == Ok(Xmp.WriteBuf(os, BackingRoot + path, AsPtr(buf), srcSize, offset, AsPtr(fi)).res)
  {
    match Canonicalize(path)
    case None => Panicked(InteriorNul)
    case Some(p) => Ok(Xmp.WriteBuf(os, p, AsPtr(buf), srcSize, offset, AsPtr(fi)).res)
  }

  /**
   * read_buf, as written: the provider fills a local pointer, which is then
   * unwrapped and stored in slot 0 of the caller's slice. The slice's length
   * is passed as the size. The unwrap comes before the index, so a null
   * pointer panics even when the slice is empty.
   */
  method ReadBuf(path: string, bufp: array<BufVec>, offset: int, fi: Option<FileInfo>, mem: bool) returns (rep: Reply)
    requires '\0' !in path && mem ==> fi.Some?
    modifies bufp
    ensures '\0' in path ==> rep == Panicked(InteriorNul) && bufp[..] == old(bufp[..])
    ensures '\0' !in path && !mem ==> rep == Panicked(UnwrapNone) && bufp[..] == old(bufp[..])
    ensures '\0' !in path && mem && bufp.Length == 0 ==> rep == Panicked(IndexOutOfBounds)
    ensures '\0' !in path && mem && bufp.Length > 0 ==>
              && rep == Ok(0) && fresh(bufp[0]) && bufp[1..] == old(bufp[1..])
              && bufp[0].count == 1 && bufp[0].idx == 0 && bufp[0].off == 0
              && bufp[0].buf == [Buf(bufp.Length, FUSE_BUF_IS_FD | FUSE_BUF_FD_SEEK, fi.value.fh, offset)]
  {
    var p := Canonicalize(path);
    if p.None? {
      return Panicked(InteriorNul);
    }
    var raw := new Cell<Ptr<BufVec>>(Null);
    var res := Xmp.ReadBuf(p.value, raw, bufp.Length, offset, AsPtr(fi), mem);
    var got := FromPtr(raw.val);
    if got.None? {
      return Panicked(UnwrapNone);
    }
    if bufp.Length == 0 {
      return Panicked(IndexOutOfBounds);
    }
    bufp[0] := got.value;
    rep := Ok(res);
  }

  /**
   * read_buf, corrected: a pointer is relayed only when the provider produced
   * one; otherwise its (error) result is returned as every other callback does.
   */
  method ReadBufChecked(path: string, bufp: array<BufVec>, offset: int, fi: Option<FileInfo>, mem: bool) returns (rep: Reply)
    requires '\0' !in path && mem ==> fi.Some?
    modifies bufp
    ensures '\0' in path ==> rep == Panicked(InteriorNul) && bufp[..] == old(bufp[..])
    ensures '\0' !in path && !mem ==> rep == Ok(-ENOMEM) && bufp[..] == old(bufp[..])
    ensures '\0' !in path && mem && bufp.Length == 0 ==> rep == Panicked(IndexOutOfBounds)
    ensures '\0' !in path && mem && bufp.Length > 0 ==>
              && rep == Ok(0) && fresh(bufp[0]) && bufp[1..] == old(bufp[1..])
              && bufp[0].count == 1 && bufp[0].idx == 0 && bufp[0].off == 0
              && bufp[0].buf == [Buf(bufp.Length, FUSE_BUF_IS_FD | FUSE_BUF_FD_SEEK, fi.value.fh, offset)]
  {
    var p := Canonicalize(path);
    if p.None? {
      return Panicked(InteriorNul);
    }
    var raw := new Cell<Ptr<BufVec>>(Null);
    var res := Xmp.ReadBuf(p.value, raw, bufp.Length, offset, AsPtr(fi), mem);
    var got := FromPtr(raw.val);
    if got.Some? {
      if bufp.Length == 0 {
        return Panicked(IndexOutOfBounds);
      }
      bufp[0] := got.value;
    }
    rep := Ok(res);
  }

  /** Out of memory, the bridge as written panics where the corrected one reports ENOMEM. */
  method OutOfMemoryReadBuf() returns (asWritten: Reply, corrected: Reply)
    ensures asWritten == Panicked(UnwrapNone)
    ensures corrected == Ok(-ENOMEM)
  {
    var v := new BufVec.Init(0);
    var slots := new BufVec[1](_ => v);
    asWritten := ReadBuf("/f", slots, 0, None, false);
    corrected := ReadBufChecked("/f", slots, 0, None, false);
  }

  /** flock */
  function Flock(os: Os, path: string, fi: Option<FileInfo>, op: int): (rep: Reply)
    reads Held(AsPtr(fi))
    requires '\0' !in path ==> fi.Some?
    ensures '\0' in path ==> rep == Panicked(InteriorNul)
    ensures '\0' !in path ==> rep == Ok(Xmp.Flock(os, BackingRoot + path, AsPtr(fi), op).res)
  {
    match Canonicalize(path)
    case None => Panicked(InteriorNul)
    case Some(p) => Ok(Xmp.Flock(os, p, AsPtr(fi), op).res)
  }

  /** lock: a stub that succeeds whatever it is given and touches nothing (it reads no state). */
  function Lock(path: string, fi: Option<FileInfo>, cmd: int, lock: Option<int>): (rep: Reply)
    ensures rep == Ok(0)
  {
    Ok(0)
  }
}
