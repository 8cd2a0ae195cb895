# Passthrough FUSE bridge: a Dafny model

This project models a userspace passthrough filesystem. It has two layers:

- The Rust bridge (`src/lib.rs`) implements the FUSE callback table. Each callback maps the virtual path into the backing tree `/tmp/fsdata` and turns optional references into nullable pointers. It then calls the C provider and returns the provider's integer unchanged inside `Ok`.
- The C backing provider (`xmp/src/xmp.c`) issues the matching system call. It reports the outcome by the POSIX convention: -1 becomes minus errno, otherwise 0 or a byte count. It also keeps a resumable cursor over each open directory stream.

The operating system is an oracle (`Native.Os`). `sys` gives the outcome of every system call, and `listing` gives the entries of a directory opened by path. A provider operation that only computes a result returns an `Effect`: its integer result and the calls it issued, in order.

Operations that write memory the caller owns are methods over classes. This covers a byte buffer, `fi->fh`, `*bufp`, the configuration and the directory cursor.

A Rust panic is a `Passthru.Reply` of its own. There are three kinds: a NUL byte in a path, an `unwrap` of nothing, and an index past the end of a slice.

Files:

- `native.dfy`: pointers, the records libfuse passes, the system calls, outcomes, and the errno convention.
- `xmp_dir.dfy`: the directory stream, the filler, and the `struct xmp_dirp` cursor. It holds opendir, readdir and releasedir, and the resumption theorems.
- `xmp.dfy`: the rest of the provider.
- `passthru.dfy`: pointer conversion, path canonicalization, and every bridge callback.

The readdir cursor is specified by `XmpDir.Step`, one call on an abstract view. The view is the position the next listing starts from, plus the offset the cursor recorded. `XmpDir.ReadDir` is proved to implement `Step`. `XmpDir.SessionIsContiguous` then proves that calls made at the recorded offset emit the stream from the cursor's position, in order, with nothing lost or repeated, as far as their combined room allows.

Two behaviours of the bridge are kept as the code has them:

- `canonicalize` panics when the path holds a NUL byte (`CString::new(..).unwrap()`), and the model keeps that panic.
- `releasedir` calls `xmp_release`, and the model does the same (see Findings).

## Model

| member | source | states |
|---|---|---|
| Native.Status | xmp/src/xmp.c:78-81 | a status is 0 exactly when the call did not return -1, and negative exactly when it did |
| Native.Count | xmp/src/xmp.c:381-385 | a count is the call's non-negative return value, and negative exactly when the call returned -1 |
| Native.StatusDecodes | xmp/src/xmp.c:78-81 | a status result is 0 exactly when the call did not return -1, and otherwise decodes to the errno the call set |
| Native.CountDecodes | xmp/src/xmp.c:381-385 | a count result lies in 0..n exactly when the call succeeded, and decodes to the byte count or to the errno set |
| Native.BufVec.Init | xmp/src/xmp.c:398 | FUSE_BUFVEC_INIT(size): one segment, index and offset 0, a memory buffer of `size` bytes with no descriptor |
| XmpDir.PosOf | xmp/src/xmp.c:147 | seekdir to a cookie telldir reported moves to a position whose cookie is that value |
| XmpDir.CookieUnique | xmp/src/xmp.c:147 | in a stream with distinct cookies, equal cookies mean equal positions |
| XmpDir.Dir.Tell | xmp/src/xmp.c:180 | telldir reports a value seekdir accepts: 0 at the start, else the `d_off` of the last entry read |
| XmpDir.TellSeekRoundTrip | xmp/src/xmp.c:147 | seekdir to the value telldir reported at a position comes back to that position |
| XmpDir.DirCursor.constructor | xmp/src/xmp.c:107-111 | a new cursor over an unread stream holds offset 0 and no pending entry, as opendir sets it up, and is valid with view (0, 0) |
| XmpDir.DirCursor.State | xmp/src/xmp.c:107-111 | the cursor's abstract view is consistent: the recorded offset is the cookie of the position the next listing starts from |
| XmpDir.Dir.Read | xmp/src/xmp.c:162 | readdir returns the entry at the read position and advances, or returns none at the end without moving |
| XmpDir.Dir.Seek | xmp/src/xmp.c:147 | seekdir moves the read position to the cookie's position |
| XmpDir.Dir.Close | xmp/src/xmp.c:201 | closedir closes the stream |
| XmpDir.TypeModeRoundTrip | xmp/src/xmp.c:178 | `d_type << 12` keeps the type in the S_IFMT bits and gives it back; a FIFO entry has a FIFO mode |
| XmpDir.Sink.Fill | xmp/src/xmp.c:188-189 | the filler takes an entry (0) exactly when it has room, and otherwise reports full (1) and takes nothing |
| XmpDir.Step | xmp/src/xmp.c:145-195 | one readdir on the abstract cursor leaves the recorded offset equal to the cookie of the position it lists from next |
| XmpDir.OpenDir | xmp/src/xmp.c:113-131 | -ENOMEM without memory and minus errno when opendir fails, with no cursor and fi untouched; on success a fresh cursor at offset 0 with nothing pending, whose address is stored in fi->fh |
| XmpDir.ReadDir | xmp/src/xmp.c:137-196 | returns 0; the cursor moves as `Step` says and the filler receives exactly `Step`'s entries, in order; an entry stays pending exactly when the stream has more |
| XmpDir.Drain | xmp/src/xmp.c:156-193 | the loop hands over the entries from the cursor's position up to the filler's room or the end of the stream, and records the offset after the last one taken |
| XmpDir.Emit | xmp/src/xmp.c:157-192 | one pass reads an entry unless one is pending; the filler either takes it (offset advances to its cookie) or refuses it, and then it stays pending and nothing changes |
| XmpDir.ReleaseDir | xmp/src/xmp.c:198-204 | closes the directory stream and returns 0 |
| XmpDir.ListsFromCookie | xmp/src/xmp.c:145-155 | a readdir at any cookie telldir reported lists from that cookie's position, whatever the cursor's state |
| XmpDir.OffsetIsLastFilled | xmp/src/xmp.c:191-192 | after a call that emitted entries, the recorded offset is the next offset passed with the last entry |
| XmpDir.RefusedEntryComesFirst | xmp/src/xmp.c:188-191 | when a call stops before the end, the filler was full, and the next call at the recorded offset emits the refused entry first |
| XmpDir.SessionIsContiguous | xmp/src/xmp.c:145-195 | calls made at the recorded offset together emit the stream from the cursor's position, in order, with nothing lost or repeated |
| XmpDir.FreshListingIsComplete | xmp/src/xmp.c:113-196 | a freshly opened directory, read with enough total room, lists every entry exactly once in stream order |
| Xmp.Init | xmp/src/xmp.c:50-66 | sets use_ino and makes the entry, attribute and negative timeouts 0; returns no private data |
| Xmp.Subject | xmp/src/xmp.c:72-76 | an fd-or-path call acts on fi->fh exactly when fi is non-null, and on the path otherwise |
| Xmp.Getattr | xmp/src/xmp.c:68-82 | one stat call, on fi->fh or on the path, reported as a status |
| Xmp.Access | xmp/src/xmp.c:84-93 | one access call on the path with the mask, reported as a status |
| Xmp.Readlink | xmp/src/xmp.c:95-105 | asks for size-1 bytes; on success the bytes read plus a NUL after them are the only writes, all inside buf[0..size), and the result is 0; on failure minus errno with the buffer untouched |
| Xmp.Mknod | xmp/src/xmp.c:206-218 | issues mkfifo exactly when the mode is a FIFO and mknod otherwise, reported as a status |
| Xmp.Mkdir | xmp/src/xmp.c:220-228 | one mkdir call, reported as a status |
| Xmp.Unlink | xmp/src/xmp.c:230-239 | one unlink call, reported as a status |
| Xmp.Rmdir | xmp/src/xmp.c:241-250 | one rmdir call, reported as a status |
| Xmp.Symlink | xmp/src/xmp.c:252-261 | one symlink call with the content and link path as given, reported as a status |
| Xmp.Rename | xmp/src/xmp.c:263-276 | nonzero flags give -EINVAL with no call issued; otherwise one rename call, reported as a status |
| Xmp.Link | xmp/src/xmp.c:278-287 | one link call, reported as a status |
| Xmp.Chmod | xmp/src/xmp.c:289-302 | one chmod call, on fi->fh or on the path, reported as a status |
| Xmp.Chown | xmp/src/xmp.c:304-318 | one chown call, on fi->fh or on the path, reported as a status |
| Xmp.Truncate | xmp/src/xmp.c:320-333 | one truncate call, on fi->fh or on the path, reported as a status |
| Xmp.Create | xmp/src/xmp.c:352-362 | opens with fi->flags and the mode; fi->fh is written with the new descriptor only on success, and flags never change |
| Xmp.Open | xmp/src/xmp.c:364-374 | opens with fi->flags; fi->fh is written with the new descriptor only on success, and flags never change |
| Xmp.Read | xmp/src/xmp.c:376-386 | pread of `size` bytes at the offset on fi->fh; the result is the count or minus errno, and only the bytes read are written |
| Xmp.ReadBuf | xmp/src/xmp.c:388-407 | out of memory gives -ENOMEM with *bufp untouched; otherwise *bufp is a fresh one-segment bufvec reading `size` bytes from fi->fh at the offset |
| Xmp.Write | xmp/src/xmp.c:409-419 | pwrite of exactly buf[0..size) at the offset on fi->fh; the result is the count or minus errno |
| Xmp.WriteBuf | xmp/src/xmp.c:421-432 | one buffer copy into fi->fh at the offset, of the source's size, non-blocking splice; its result is returned unchanged |
| Xmp.Statfs | xmp/src/xmp.c:434-443 | one statvfs call, reported as a status |
| Xmp.Flush | xmp/src/xmp.c:445-459 | issues dup(fi->fh) and then close on dup's result (close(-1) when dup failed); the status is that of the close |
| Xmp.FlushKeepsDescriptor | xmp/src/xmp.c:449-454 | a flush never closes the descriptor being flushed, provided dup gave a different one |
| Xmp.Release | xmp/src/xmp.c:461-466 | closes fi->fh and returns 0 whatever close reports |
| Xmp.Fsync | xmp/src/xmp.c:468-484 | one fsync on fi->fh, reported as a status |
| Xmp.FsyncIgnoresDataSync | xmp/src/xmp.c:472-479 | without fdatasync, the data-only flag makes no difference |
| Xmp.Fallocate | xmp/src/xmp.c:486-495 | a nonzero mode gives -EOPNOTSUPP with no call issued; otherwise posix_fallocate's return value, negated |
| Xmp.FallocateDecodes | xmp/src/xmp.c:494 | the negated posix_fallocate result decodes to success, or to the error number it returned |
| Xmp.Flock | xmp/src/xmp.c:540-549 | one flock on fi->fh with the operation, reported as a status |
| Passthru.AsPtr | src/lib.rs:11-31 | none becomes the null pointer and a reference becomes its address; nothing else is produced |
| Passthru.FromPtr | src/lib.rs:278 | a null pointer becomes none and an address becomes a reference to its target |
| Passthru.PtrRoundTrip | src/lib.rs:11-31 | the two conversions are inverse to each other |
| Passthru.Canonicalize | src/lib.rs:40-42 | the backing path is exactly "/tmp/fsdata" followed by the path; it panics exactly when the path holds a NUL byte |
| Passthru.Strip | src/lib.rs:40-42 | recovers a virtual path exactly from backing paths under the root |
| Passthru.StripCanonical | src/lib.rs:40-42 | stripping the root from a canonicalized path gives the path back |
| Passthru.CanonicalizeInjective | src/lib.rs:40-42 | distinct paths map to distinct backing paths |
| Passthru.CanonicalizeIsLiteral | src/lib.rs:40-42 | no separator is inserted and `..` is not collapsed; a NUL byte panics |
| Passthru.Getattr | src/lib.rs:46-59 | panics on a NUL byte in the path, then on a missing stbuf; otherwise the provider's getattr result on the backing path, with fi passed as nullable |
| Passthru.Readlink | src/lib.rs:61-69 | panics on a NUL byte before the size is used; otherwise passes the slice's length as the size and gives the provider's readlink result and writes |
| Passthru.Mknod | src/lib.rs:71-73 | panics on a NUL byte, otherwise the provider's mknod result on the backing path |
| Passthru.Mkdir | src/lib.rs:75-77 | panics on a NUL byte, otherwise the provider's mkdir result on the backing path |
| Passthru.Unlink | src/lib.rs:79-81 | panics on a NUL byte, otherwise the provider's unlink result on the backing path |
| Passthru.Rmdir | src/lib.rs:83-85 | panics on a NUL byte, otherwise the provider's rmdir result on the backing path |
| Passthru.Symlink | src/lib.rs:87-94 | both the link content and the link path are canonicalized; panics if either holds a NUL byte |
| Passthru.SymlinkRewritesContent | src/lib.rs:90 | the relative link content "t.txt" is stored as "/tmp/fsdatat.txt" |
| Passthru.SymlinkVerbatim | src/lib.rs:87-94 | the corrected symlink canonicalizes only the link path and passes the content as given |
| Passthru.SymlinkVerbatimKeepsContent | src/lib.rs:87-94 | the corrected symlink stores exactly the content it was given |
| Passthru.Rename | src/lib.rs:96-104 | both paths are canonicalized independently and the flags are forwarded unmodified; the provider's result is returned |
| Passthru.RenameWithFlagsRefused | src/lib.rs:96-104 | a rename with flags returns -EINVAL and issues no call |
| Passthru.Link | src/lib.rs:106-113 | both paths are canonicalized independently; the provider's link result is returned |
| Passthru.Chmod | src/lib.rs:115-117 | panics on a NUL byte, otherwise the provider's chmod result, with fi passed as nullable |
| Passthru.Chown | src/lib.rs:119-127 | panics on a NUL byte, otherwise the provider's chown result, with fi passed as nullable |
| Passthru.Truncate | src/lib.rs:129-136 | panics on a NUL byte, otherwise the provider's truncate result, with fi passed as nullable |
| Passthru.SubjectFollowsFileInfo | src/lib.rs:46-136 | for every argument, getattr, chmod, chown and truncate issue exactly one call, on the file-info's descriptor when one is given and on the backing path otherwise, with the other arguments passed through |
| Passthru.Open | src/lib.rs:138-140 | panics on a NUL byte; otherwise the provider's open result, with fi->fh written only on success; fi->flags never changes |
| Passthru.Read | src/lib.rs:142-158 | passes the slice's length as the size; the result is the byte count or minus errno, and only the bytes read are written |
| Passthru.Write | src/lib.rs:160-176 | writes the whole slice (its length is the size); the result is the byte count or minus errno |
| Passthru.Statfs | src/lib.rs:178-180 | panics on a NUL byte, otherwise the provider's statfs result, with stbuf passed as nullable |
| Passthru.Flush | src/lib.rs:182-184 | panics on a NUL byte, otherwise the provider's flush result |
| Passthru.Release | src/lib.rs:186-188 | panics on a NUL byte; otherwise forwards to the provider's release, which issues close(fi->fh), and returns its 0 |
| Passthru.Fsync | src/lib.rs:190-203 | panics on a NUL byte, otherwise the provider's fsync result |
| Passthru.Opendir | src/lib.rs:205-207 | panics on a NUL byte; otherwise -ENOMEM or minus errno with fi untouched, or 0 with a fresh cursor over a fresh stream, at offset 0 with nothing pending, whose address (what malloc returned) is in fi->fh |
| Passthru.Readdir | src/lib.rs:209-228 | panics on a NUL byte, then on a missing buffer, and leaves the cursor untouched; otherwise returns 0 and the cursor and filler move as one `Step`, with an entry pending exactly when the stream has more |
| Passthru.Releasedir | src/lib.rs:230-232 | forwards to the provider's release (not releasedir) and returns its 0 |
| Passthru.ReleasedirClosesCursorAddress | src/lib.rs:230-232 | releasing a directory issues only close() on the cursor's address and reports success |
| Passthru.ReleasedirFixed | src/lib.rs:230-232 | the corrected releasedir closes the directory stream and returns 0 |
| Passthru.Access | src/lib.rs:234-236 | panics on a NUL byte, otherwise the provider's access result |
| Passthru.Create | src/lib.rs:238-240 | panics on a NUL byte; otherwise the provider's create result, with fi->fh written only on success; fi->flags never changes |
| Passthru.WriteBuf | src/lib.rs:242-257 | panics on a NUL byte, otherwise the provider's write_buf result |
| Passthru.ReadBuf | src/lib.rs:259-281 | passes the slice's length as the size; a null result pointer panics before the slot index is checked; otherwise only slot 0 is overwritten, with the fresh bufvec |
| Passthru.ReadBufChecked | src/lib.rs:259-281 | the corrected read_buf returns -ENOMEM with the slice untouched, and otherwise behaves as written |
| Passthru.OutOfMemoryReadBuf | src/lib.rs:278 | out of memory, the bridge as written panics where the corrected one returns -ENOMEM |
| Passthru.Flock | src/lib.rs:283-285 | panics on a NUL byte, otherwise the provider's flock result |
| Passthru.Lock | src/lib.rs:287-296 | returns 0 for every argument; it reads nothing and changes nothing |

## Left out

- What system calls, fuse_buf_copy and fuse_buf_size do to storage is not modelled. They are oracle outcomes (`Native.Os`) or inputs.
- readdir, seekdir and telldir are modelled by `XmpDir.Dir` over a listing fixed when the directory is opened. telldir reports 0 at the start and otherwise the `d_off` of the previous entry. Entries added or removed while the stream is open are not modelled.
- XmpDir.ReadDir: the offset must be a value telldir reported for the stream (`XmpDir.IsCookie`). The C code accepts any offset, but seekdir to any other value (reachable by an lseek on the directory) is unspecified, so that case is not modelled.
- Passthru.Readdir: the same restriction on the offset, for the same reason.
- XmpDir.Dir.Read: readdir never fails in the model; it returns none only at the end of the listing. The C loop (xmp.c:162-164) takes a NULL from a failing readdir for the end of the stream and still returns 0. XmpDir.ReadDir, XmpDir.SessionIsContiguous and XmpDir.FreshListingIsComplete therefore hold only for streams whose readdir does not fail; an error part-way through would end the listing silently.
- The OS is assumed to follow its contracts. Outcomes such as pread and readlink return at most the bytes asked for (`Native.WithinBound`). Directory cookies are distinct (`XmpDir.Cookies`).
- A null `fi` where the C code dereferences it is excluded by a precondition, and so is a null bufvec in write_buf (`fuse_buf_size(buf)` dereferences it; Xmp.WriteBuf, Passthru.WriteBuf). In C this is undefined behaviour, not an error path.
- Memory allocation is an input: `mem` is what malloc returned. Freeing the cursor and the bufvec is not modelled, and neither are real addresses and pointer arithmetic.
- Passthru.Readlink: an empty slice is excluded when the path has no NUL byte. `size - 1` then underflows (size_t) and readlink may write past the buffer.
- Xmp.Read: the byte count is kept in a C `int`, so a count above 2^31-1 would be truncated; the model keeps the count unbounded.
- Xmp.Write: the same `int` truncation of the byte count is not modelled.
- Xmp.Readlink: the same `int` truncation of the length readlink returns is not modelled.
- Unbounded integers stand in for fi->fh (a uint64 passed where `int` descriptors are expected), `off_t`, `dev_t`, `uid_t` and `gid_t`; `mode_t` is a 32-bit bitvector. Truncation of fh to `int` and wrap-around of the fixed-width types are not modelled.
- Xmp.Init: no bridge callback calls `xmp_init`, so the configuration it sets is not reachable from the bridge. It is modelled on its own.
- Xmp.Fallocate: not compiled and not reachable from the bridge, because the build defines none of the HAVE_* macros and the bridge has no fallocate callback. It is modelled for its guard.
- The `fdatasync` branch of fsync and the `READDIR_PLUS`/fstatat branch of readdir are not modelled. Neither is compiled, since no HAVE_* macro is defined, so fill flags are always 0. The FreeBSD offset shift is also left out.
- xmp_lock (ulockmgr), the xattr operations, xmp_utimens, xmp_copy_file_range and xmp_lseek are left out. They are either not compiled or have no bridge callback.
- XmpDir.ReadDir: the stat handed to the filler carries only inode and mode, the only fields the code sets after zeroing the record.
- `Passthru::new`, registering the callback table, and src/main.rs (argument parsing, creating the directories, logging, mounting) are left out.
- Threading is left out; the bridge holds no state of its own.

## Findings

| source | as written | input that shows it | evidently intended | confidence | as-written member | corrected member |
|---|---|---|---|---|---|---|
| src/lib.rs:230-232 | releasedir forwards to `xmp_release`, which calls close() on fi->fh, the address of the cursor; the directory stream is never closed and the cursor is never freed | any releasedir after a successful opendir: fi->fh holds the cursor address `a`, and the only call issued is close(a) | forward to `xmp_releasedir`, which calls closedir on the stream | high (not executed) | Passthru.ReleasedirClosesCursorAddress | Passthru.ReleasedirFixed |
| src/lib.rs:278 | read_buf unwraps the pointer the provider left, even when the provider failed | malloc fails: the provider returns -ENOMEM and leaves the pointer null, so `unwrap` panics instead of answering -ENOMEM | return the provider's result unchanged, and relay a pointer only when one was produced | high (not executed) | Passthru.OutOfMemoryReadBuf | Passthru.ReadBufChecked |
| src/lib.rs:90 | symlink canonicalizes the link content as if it were a path in the mount | symlink("t.txt", "/l") stores the content "/tmp/fsdatat.txt" in place of "t.txt" | pass the link content verbatim and canonicalize only the link's own path | medium (not executed) | Passthru.SymlinkRewritesContent | Passthru.SymlinkVerbatim |
