/**
 * The directory side of the backing provider: opendir allocates a cursor
 * (struct xmp_dirp) over a directory stream, readdir runs that cursor
 * against the caller's filler until the stream ends or the filler is full,
 * and releasedir closes the stream.
 *
 * A directory stream is its entries in stream order and a read position;
 * the cookie telldir reports at position k is 0 at the start and the `off`
 * of entry k-1 afterwards. The filler is a sink with a fixed capacity.
 */
module XmpDir {
  import opened Native

  /** telldir at stream position k. */
  function Cookie(es: seq<DirEnt>, k: nat): int
    requires k <= |es|
  {
    if k == 0 then 0 else es[k - 1].off
  }

  /** A stream whose positions can be told apart by their cookies (what seekdir relies on). */
  ghost predicate Cookies(es: seq<DirEnt>) {
    forall i: nat, j: nat {:trigger Cookie(es, i), Cookie(es, j)} :: i < j <= |es| ==> Cookie(es, i) != Cookie(es, j)
  }

  /** A value telldir has reported for this stream. */
  ghost predicate IsCookie(es: seq<DirEnt>, off: int) {
    off == 0 || exists i :: 0 <= i < |es| && es[i].off == off
  }

  /** The position seekdir(off) moves to. */
  function PosOf(es: seq<DirEnt>, off: int): (k: nat)
    requires IsCookie(es, off)
    ensures k <= |es| && Cookie(es, k) == off
    decreases |es|
  {
    if off == 0 then 0
    else if es[|es| - 1].off == off then |es|
    else PosOf(es[..|es| - 1], off)
  }

  /** Distinct positions have distinct cookies. */
  lemma CookieUnique(es: seq<DirEnt>, j: nat, k: nat)
    requires Cookies(es) && j <= |es| && k <= |es|
    ensures Cookie(es, j) == Cookie(es, k) ==> j == k
  {
    if j < k {
      assert Cookie(es, j) != Cookie(es, k);
    } else if k < j {
      assert Cookie(es, k) != Cookie(es, j);
    }
  }

  /** seekdir to the cookie telldir reported at a position comes back to that position. */
  lemma TellSeekRoundTrip(es: seq<DirEnt>, k: nat)
    requires Cookies(es) && k <= |es|
    ensures IsCookie(es, Cookie(es, k)) && PosOf(es, Cookie(es, k)) == k
  {
    if k > 0 {
      assert es[k - 1].off == Cookie(es, k);
    }
    CookieUnique(es, PosOf(es, Cookie(es, k)), k);
  }

  /** A directory stream (DIR *): its entries, the read position, and whether it is still open. */
  class Dir {
    const entries: seq<DirEnt>
    var pos: nat
    var open: bool

    constructor (entries: seq<DirEnt>)
      ensures this.entries == entries && pos == 0 && open
    {
      this.entries := entries;
      pos := 0;
      open := true;
    }

    /** telldir(3): a cookie seekdir accepts (see TellSeekRoundTrip). */
    function Tell(): (t: int)
      reads this
      requires pos <= |entries|
      ensures IsCookie(entries, t)
    {
      Cookie(entries, pos)
    }

    /** readdir(3): the entry at the read position, or none at the end of the stream. */
    method Read() returns (e: Option<DirEnt>)
      requires open && pos <= |entries|
      modifies this
      ensures open
      ensures old(pos) < |entries| ==> e == Some(entries[old(pos)]) && pos == old(pos) + 1
      ensures old(pos) == |entries| ==> e == None && pos == old(pos)
    {
      if pos < |entries| {
        e := Some(entries[pos]);
        pos := pos + 1;
      } else {
        e := None;
      }
    }

    /** seekdir(3), for a cookie telldir reported. */
    method Seek(off: int)
      requires open && IsCookie(entries, off)
      modifies this
      ensures open && pos == PosOf(entries, off)
    {
      pos := PosOf(entries, off);
    }

    /** closedir(3) */
    method Close()
      modifies this
      ensures !open && pos == old(pos)
    {
      open := false;
    }
  }

  /** The stat record readdir hands to the filler: inode and file type only. */
  datatype StatView = StatView(ino: nat, mode: bv32)

  /** One filler call: name, stat, next offset, fill flags. */
  datatype Filled = Filled(name: string, st: StatView, off: int, flags: nat)

  /** st_mode = d_type << 12 */
  function TypeMode(dtype: bv8): bv32 {
    (dtype as bv32) << 12
  }

  /** The mode readdir builds keeps the entry's type in the S_IFMT bits: FIFO entries look like FIFOs. */
  lemma TypeModeRoundTrip(dtype: bv8)
    requires dtype < 16
    ensures (TypeMode(dtype) >> 12) as bv8 == dtype
    ensures TypeMode(dtype) & S_IFMT == TypeMode(dtype)
    ensures IsFifo(TypeMode(dtype)) <==> dtype == DT_FIFO
  {
  }

  /** The filler call readdir makes for an entry read from the stream. */
  function FillOf(e: DirEnt): Filled {
    Filled(e.name, StatView(e.ino, TypeMode(e.dtype)), e.off, 0)
  }

  /** The filler calls readdir makes for a run of entries, in order. */
  function Fills(es: seq<DirEnt>): seq<Filled> {
    FillsBetween(es, 0, |es|)
  }

  /** The filler calls for the entries at positions lo..hi of a stream. */
  function FillsBetween(es: seq<DirEnt>, lo: nat, hi: nat): seq<Filled>
    requires lo <= hi <= |es|
    decreases hi - lo
  {
    if lo == hi then [] else FillsBetween(es, lo, hi - 1) + [FillOf(es[hi - 1])]
  }

  lemma {:induction false} FillsBetweenSlice(es: seq<DirEnt>, lo: nat, hi: nat)
    requires lo <= hi <= |es|
    ensures FillsBetween(es, lo, hi) == Fills(es[lo..hi])
    decreases hi - lo
  {
    if lo < hi {
      FillsBetweenSlice(es, lo, hi - 1);
      SamePrefix(es[lo..hi - 1], es[lo..hi], hi - 1 - lo);
    }
  }

  /** The calls for the first n entries depend on those entries only. */
  lemma {:induction false} SamePrefix(a: seq<DirEnt>, b: seq<DirEnt>, n: nat)
    requires n <= |a| && n <= |b| && a[..n] == b[..n]
    ensures FillsBetween(a, 0, n) == FillsBetween(b, 0, n)
  {
    if n > 0 {
      assert a[..n - 1] == a[..n][..n - 1] && b[..n - 1] == b[..n][..n - 1];
      assert a[n - 1] == a[..n][n - 1] && b[n - 1] == b[..n][n - 1];
      SamePrefix(a, b, n - 1);
    }
  }

  /** The filler's buffer: it takes entries while it has room and reports full afterwards. */
  class Sink {
    const capacity: nat
    var items: seq<Filled>

    constructor (capacity: nat)
      ensures this.capacity == capacity && items == []
    {
      this.capacity := capacity;
      items := [];
    }

    ghost predicate Valid()
      reads this
    {
      |items| <= capacity
    }

    function Room(): nat
      reads this
      requires Valid()
    {
      capacity - |items|
    }

    /** fuse_fill_dir_t: 0 when the entry was taken, 1 when the buffer is full. */
    method Fill(name: string, st: StatView, off: int, flags: nat) returns (full: int)
      requires Valid()
      modifies this
      ensures Valid()
      ensures full == 0 <==> old(Room()) > 0
      ensures full == 0 ==> items == old(items) + [Filled(name, st, off, flags)]
      ensures full != 0 ==> full == 1 && items == old(items)
    {
      if |items| < capacity {
        items := items + [Filled(name, st, off, flags)];
        full := 0;
      } else {
        full := 1;
      }
    }
  }

  /** What a cursor presents to the next readdir: the position it lists from and the offset it recorded. */
  datatype View = View(resume: nat, offset: int)

  /** The recorded offset is the cookie of the position the cursor lists from. */
  ghost predicate Consistent(es: seq<DirEnt>, v: View) {
    v.resume <= |es| && v.offset == Cookie(es, v.resume)
  }

  function Min(a: nat, b: nat): nat {
    if a < b then a else b
  }

  /**
   * One readdir call on the abstract cursor: it lists from the cursor's own
   * position when asked at the recorded offset and from the cookie's position
   * otherwise, emits as many entries as the filler has room for, and records
   * the position after the last one emitted.
   */
  ghost function Step(es: seq<DirEnt>, v: View, offset: int, room: nat): (s: (View, seq<DirEnt>))
    requires Consistent(es, v) && IsCookie(es, offset)
    ensures Consistent(es, s.0)
  {
    var from := if offset != v.offset then PosOf(es, offset) else v.resume;
    var k := Min(|es| - from, room);
    (View(from + k, Cookie(es, from + k)), es[from..from + k])
  }

  /** A readdir step emits the run that starts at its starting position. */
  lemma StepFrom(es: seq<DirEnt>, v: View, offset: int, room: nat, from: nat)
    requires Consistent(es, v) && IsCookie(es, offset)
    requires from == if offset != v.offset then PosOf(es, offset) else v.resume
    ensures from <= |es|
    ensures var k := Min(|es| - from, room);
      Step(es, v, offset, room) == (View(from + k, Cookie(es, from + k)), es[from..from + k])
  {
  }

  /** struct xmp_dirp: the stream, the entry read but not yet taken by the filler, and the offset. */
  class DirCursor {
    const addr: nat
    const dp: Dir
    var entry: Option<DirEnt>
    var offset: int

    constructor (addr: nat, dp: Dir)
      requires dp.pos == 0 && Cookies(dp.entries)
      ensures this.addr == addr && this.dp == dp
      ensures entry == None && offset == 0
      ensures Valid() && State() == View(0, 0)
    {
      this.addr := addr;
      this.dp := dp;
      entry := None;
      offset := 0;
    }

    /**
     * A pending entry is the one just read from the stream, and the recorded
     * offset is the cookie of the position the next listing starts from.
     */
    ghost predicate Valid()
      reads this, dp
    {
      && dp.pos <= |dp.entries|
      && Cookies(dp.entries)
      && (entry.Some? ==> 0 < dp.pos && entry.value == dp.entries[dp.pos - 1])
      && offset == Cookie(dp.entries, if entry.Some? then dp.pos - 1 else dp.pos)
    }

    ghost function State(): (v: View)
      reads this, dp
      requires Valid()
      ensures Consistent(dp.entries, v)
    {
      View(if entry.Some? then dp.pos - 1 else dp.pos, offset)
    }
  }

  /**
   * xmp_opendir. `mem` is what malloc returned for the cursor (None: out of
   * memory). On success the cursor starts at offset 0 with nothing pending and
   * its address is stored in fi->fh; on failure fi is left alone.
   */
  method OpenDir(os: Os, path: string, fi: Ptr<FileInfo>, mem: Option<nat>) returns (r: int, d: DirCursor?)
    requires Cookies(os.listing(path))
    requires mem.Some? && os.sys(Syscall.OpenDir(path)).ret != -1 ==> fi.Addr?
    modifies Held(fi)
    ensures mem.None? ==> r == -ENOMEM && d == null
    ensures mem.Some? && os.sys(Syscall.OpenDir(path)).ret == -1 ==>
              r == -os.sys(Syscall.OpenDir(path)).errno && d == null
    ensures d == null && fi.Addr? ==> unchanged(fi.target)
    ensures mem.Some? && os.sys(Syscall.OpenDir(path)).ret != -1 ==>
              && r == 0 && d != null && fresh(d) && fresh(d.dp)
              && d.Valid() && d.dp.open
              && d.addr == mem.value && d.dp.entries == os.listing(path)
              && d.State() == View(0, 0) && d.entry == None
              && fi.target.fh == d.addr && fi.target.flags == old(fi.target.flags)
  {
    d := null;
    if mem.None? {
      return -ENOMEM, null;
    }
    var o := os.sys(Syscall.OpenDir(path));
    if o.ret == -1 {
      return -o.errno, null;
    }
    var dp := new Dir(os.listing(path));
    d := new DirCursor(mem.value, dp);
    fi.target.fh := d.addr;
    r := 0;
  }

  /**
   * xmp_readdir, for the cursor `d` that fi->fh points to. The path and the
   * readdir flags are ignored; fill flags are always 0. The result is always 0.
   * A call at an offset other than the recorded one first seeks there and
   * drops the pending entry; then entries go to the filler until the stream
   * ends or the filler refuses one.
   */
  method ReadDir(path: string, buf: Sink, offset: int, d: DirCursor, flags: nat) returns (r: int)
    requires d.Valid() && d.dp.open && buf.Valid()
    requires IsCookie(d.dp.entries, offset)
    modifies d, d.dp, buf
    ensures d.Valid() && d.dp.open && buf.Valid()
    ensures r == 0
    ensures d.State() == Step(d.dp.entries, old(d.State()), offset, old(buf.Room())).0
    ensures buf.items == old(buf.items) + Fills(Step(d.dp.entries, old(d.State()), offset, old(buf.Room())).1)
    ensures d.entry.Some? <==> d.State().resume < |d.dp.entries|
  {
    ghost var v := d.State();
    ghost var from := if offset != v.offset then PosOf(d.dp.entries, offset) else v.resume;
    StepFrom(d.dp.entries, v, offset, buf.Room(), from);
    if offset != d.offset {
      d.dp.Seek(offset);
      d.entry := None;
      d.offset := offset;
    }
    assert d.Valid() && d.State().resume == from;
    Drain(d, buf);
    r := 0;
  }

  /** The loop of xmp_readdir: entries go to the filler from the cursor's position until the stream ends or the filler refuses one. */
  method Drain(d: DirCursor, buf: Sink)
    requires d.Valid() && d.dp.open && buf.Valid()
    modifies d, d.dp, buf
    ensures d.Valid() && d.dp.open && buf.Valid()
    ensures var from := old(d.State()).resume;
            var k := Min(|d.dp.entries| - from, old(buf.Room()));
      && d.State() == View(from + k, Cookie(d.dp.entries, from + k))
      && buf.items == old(buf.items) + Fills(d.dp.entries[from..from + k])
      && (d.entry.Some? <==> from + k < |d.dp.entries|)
  {
    ghost var es := d.dp.entries;
    ghost var room := buf.Room();
    ghost var from := d.State().resume;
    ghost var at := from;
    while true
      invariant d.Valid() && d.dp.open && buf.Valid()
      invariant from <= at <= |es| && d.State() == View(at, Cookie(es, at))
      invariant at - from + buf.Room() == room
      invariant buf.items == old(buf.items) + FillsBetween(es, from, at)
      decreases |es| - at
    {
      var taken := Emit(d, buf);
      if !taken {
        break;
      }
      at := at + 1;
    }
    FillsBetweenSlice(es, from, at);
  }

  /**
   * One pass of the readdir loop: read an entry unless one is pending and
   * offer it to the filler. A taken entry is dropped and its offset recorded;
   * a refused one stays pending.
   */
  method Emit(d: DirCursor, buf: Sink) returns (taken: bool)
    requires d.Valid() && d.dp.open && buf.Valid()
    modifies d, d.dp, buf
    ensures d.Valid() && d.dp.open && buf.Valid()
    ensures var at := old(d.State()).resume;
      if taken then
        && at < |d.dp.entries| && old(buf.Room()) > 0
        && d.State() == View(at + 1, Cookie(d.dp.entries, at + 1))
        && buf.items == old(buf.items) + [FillOf(d.dp.entries[at])]
      else
        && (at == |d.dp.entries| || old(buf.Room()) == 0)
        && d.State() == old(d.State()) && buf.items == old(buf.items)
        && (d.entry.Some? <==> at < |d.dp.entries|)
  {
    if d.entry.None? {
      d.entry := d.dp.Read();
      if d.entry.None? {
        return false;
      }
    }
    var e := d.entry.value;
    var st := StatView(e.ino, TypeMode(e.dtype));
    var nextoff := d.dp.Tell();
    var full := buf.Fill(e.name, st, nextoff, 0);
    if full != 0 {
      return false;
    }
    d.entry := None;
    d.offset := nextoff;
    taken := true;
  }

  /** xmp_releasedir: close the stream (the cursor's memory is freed, which is not modelled). */
  method ReleaseDir(path: string, d: DirCursor) returns (r: int)
    modifies d.dp
    ensures r == 0 && !d.dp.open
  {
    d.dp.Close();
    r := 0;
  }

  /** A readdir at any cookie telldir reported lists from that cookie's position, whatever the cursor's state. */
  lemma {:induction false} ListsFromCookie(es: seq<DirEnt>, v: View, k: nat, room: nat)
    requires Cookies(es) && Consistent(es, v) && k <= |es|
    ensures IsCookie(es, Cookie(es, k))
    ensures Step(es, v, Cookie(es, k), room).1 == es[k..k + Min(|es| - k, room)]
    ensures Step(es, v, Cookie(es, k), room).0.resume == k + Min(|es| - k, room)
  {
    if k > 0 {
      assert es[k - 1].off == Cookie(es, k);
    }
    var off := Cookie(es, k);
    if off != v.offset {
      CookieUnique(es, PosOf(es, off), k);
    } else {
      CookieUnique(es, v.resume, k);
    }
  }

  /** After a call that emitted entries, the recorded offset is the last offset the filler received. */
  lemma OffsetIsLastFilled(es: seq<DirEnt>, v: View, offset: int, room: nat)
    requires Consistent(es, v) && IsCookie(es, offset)
    ensures var s := Step(es, v, offset, room);
      |s.1| > 0 ==> s.0.offset == s.1[|s.1| - 1].off
  {
  }

  /** An entry the filler refused is pending, and the next call at the recorded offset emits it first. */
  lemma RefusedEntryComesFirst(es: seq<DirEnt>, v: View, offset: int, room: nat, next: nat)
    requires Consistent(es, v) && IsCookie(es, offset) && next > 0
    ensures var s := Step(es, v, offset, room);
      s.0.resume < |es| ==>
        |s.1| == room && Step(es, s.0, s.0.offset, next).1[0] == es[s.0.resume]
  {
  }

  function Sum(rooms: seq<nat>): nat {
    if rooms == [] then 0 else rooms[0] + Sum(rooms[1..])
  }

  /** The entries a run of readdir calls emits when each call asks at the cursor's recorded offset. */
  ghost function Session(es: seq<DirEnt>, v: View, rooms: seq<nat>): seq<DirEnt>
    requires Consistent(es, v)
    decreases |rooms|
  {
    if rooms == [] then []
    else
      var s := Step(es, v, v.offset, rooms[0]);
      s.1 + Session(es, s.0, rooms[1..])
  }

  /**
   * Resumption loses and repeats nothing: the calls together emit the stream
   * from the cursor's position, in order, as far as their combined room allows.
   */
  lemma {:induction false} SessionIsContiguous(es: seq<DirEnt>, v: View, rooms: seq<nat>)
    requires Consistent(es, v)
    ensures Session(es, v, rooms) == es[v.resume..v.resume + Min(|es| - v.resume, Sum(rooms))]
    decreases |rooms|
  {
    if rooms != [] {
      var s := Step(es, v, v.offset, rooms[0]);
      var k := Min(|es| - v.resume, rooms[0]);
      var k' := Min(|es| - s.0.resume, Sum(rooms[1..]));
      SessionIsContiguous(es, s.0, rooms[1..]);
      assert s.0.resume == v.resume + k;
      assert k + k' == Min(|es| - v.resume, Sum(rooms));
      assert Session(es, v, rooms) == es[v.resume..v.resume + k] + es[v.resume + k..v.resume + k + k'];
      Adjacent(es[v.resume..], k, k + k');
    }
  }

  /** Two adjacent runs of a stream make up the run that spans both. */
  lemma Adjacent(es: seq<DirEnt>, k: nat, l: nat)
    requires k <= l <= |es|
    ensures es[..k] + es[k..l] == es[..l]
  {
    assert forall i :: 0 <= i < l ==> (es[..k] + es[k..l])[i] == es[i];
  }

  /** A directory freshly opened and read to completion lists every entry exactly once, in stream order. */
  lemma FreshListingIsComplete(es: seq<DirEnt>, rooms: seq<nat>)
    requires Sum(rooms) >= |es|
    ensures Consistent(es, View(0, 0))
    ensures Session(es, View(0, 0), rooms) == es
  {
    SessionIsContiguous(es, View(0, 0), rooms);
  }
}
