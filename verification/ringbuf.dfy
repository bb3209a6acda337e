/** The abstract ring buffer: what one locked section of `rb_read` / `rb_write` does to a byte queue,
    and what a whole call does when no other task runs meanwhile. */
module RingTypes {
  type Byte = b: int | 0 <= b < 256

  const RB_DONE: int := -2
  const RB_ABORT: int := -3
  const RB_TIMEOUT: int := -4

  /** The state of a ring buffer as its users see it: the queued bytes, the flags, and the two binary semaphores. */
  datatype Ring = Ring(
    q: seq<Byte>, size: nat,
    done: bool, abortRead: bool, abortWrite: bool, unblock: bool,
    canRead: bool, canWrite: bool)

  /** A buffer as `rb_create` makes it and, up to the semaphores, as `rb_reset` leaves it. */
  function Cleared(v: Ring): Ring {
    Ring([], v.size, false, false, false, false, v.canRead, v.canWrite)
  }

  /** `n & 0xfffffffc`: the whole 4-byte words in `n` bytes. */
  function Words(n: nat): (w: nat)
    ensures w <= n < w + 4
  {
    if n < 4 then 0 else 4 + Words(n - 4)
  }

  lemma {:induction false} WordsIsTheMultipleBelow(n: nat)
    ensures Words(n) == n - n % 4
    ensures Words(n) % 4 == 0
  {
    if n >= 4 {
      WordsIsTheMultipleBelow(n - 4);
    }
  }

  /** The chunk `rb_read` takes under the lock: everything asked for if it is there, otherwise whole words,
      otherwise (only once writing is done) the ragged tail. */
  function ReadSize(fill: nat, want: nat, done: bool): nat {
    if want <= fill then want
    else if Words(fill) != 0 then Words(fill)
    else if done then fill
    else 0
  }

  function WriteSize(fill: nat, size: nat, want: nat): nat
    requires fill <= size
  {
    if want < size - fill then want else size - fill
  }

  /** What the chunks of one read add up to when nobody writes meanwhile. */
  function ReadReach(fill: nat, want: nat, done: bool): (n: nat)
    ensures n <= want && n <= fill
  {
    if want <= fill then want
    else if done then fill
    else Words(fill)
  }

  lemma ReadReachStep(fill: nat, want: nat, done: bool)
    ensures var n := ReadSize(fill, want, done);
            && n <= fill && n <= want
            && n + ReadReach(fill - n, want - n, done) == ReadReach(fill, want, done)
            && (n == 0 ==> ReadReach(fill, want, done) == 0)
  {
  }

  /** Bytes one `rb_read` call moves when nobody else touches the buffer. */
  function ReadTotal(v: Ring, len: nat): nat {
    ReadReach(|v.q|, len, v.done)
  }

  /** Whether such a call goes to wait on `can_read` before it gives up. */
  predicate ReadBlocks(v: Ring, len: nat) {
    ReadTotal(v, len) < len && !v.done && !v.abortRead && !v.unblock
  }

  function ReadReturn(v: Ring, len: nat): int {
    var n := ReadTotal(v, len);
    if n == len then n
    else if !v.done && v.abortRead then RB_ABORT
    else if 0 < n then n
    else if v.done then RB_DONE
    else RB_TIMEOUT
  }

  function ReadAfter(v: Ring, len: nat): Ring {
    var n := ReadTotal(v, len);
    v.(q := v.q[n..], unblock := false,
       canRead := v.canRead && !ReadBlocks(v, len),
       canWrite := v.canWrite || ReadBlocks(v, len) || 0 < n)
  }

  /** Bytes one `rb_write` call moves when nobody else touches the buffer. */
  function WriteTotal(v: Ring, len: nat): nat
    requires |v.q| <= v.size
  {
    WriteSize(|v.q|, v.size, len)
  }

  predicate WriteBlocks(v: Ring, len: nat)
    requires |v.q| <= v.size
  {
    WriteTotal(v, len) < len && !v.done && !v.abortWrite
  }

  function WriteReturn(v: Ring, len: nat): int
    requires |v.q| <= v.size
  {
    var n := WriteTotal(v, len);
    if n == len then n
    else if !v.done && v.abortWrite then RB_ABORT
    else if 0 < n then n
    else if v.done then RB_DONE
    else RB_TIMEOUT
  }

  function WriteAfter(v: Ring, xs: seq<Byte>): Ring
    requires |v.q| <= v.size
  {
    var n := WriteTotal(v, |xs|);
    v.(q := v.q + xs[..n],
       canRead := v.canRead || WriteBlocks(v, |xs|) || 0 < n,
       canWrite := v.canWrite && !WriteBlocks(v, |xs|))
  }

  /** How many chunks a read's loop copies. */
  function ReadChunks(fill: nat, want: nat, done: bool): nat
    decreases want
  {
    var n := ReadSize(fill, want, done);
    ReadReachStep(fill, want, done);
    if n == 0 then 0 else 1 + ReadChunks(fill - n, want - n, done)
  }

  /** A read with nobody else running copies twice exactly when it takes whole words first and a tail then. This
      is also when a pseudo read goes wrong: after its first chunk the advanced destination is no longer null, so
      its second chunk is copied to an address that nobody supplied. */
  lemma {:induction false} SplitInTwoChunks(fill: nat, want: nat, done: bool)
    ensures ReadChunks(fill, want, done) ==
      if ReadReach(fill, want, done) == 0 then 0
      else if done && fill < want && 4 <= fill && fill != Words(fill) then 2
      else 1
    decreases want
  {
    var n := ReadSize(fill, want, done);
    ReadReachStep(fill, want, done);
    if n > 0 {
      SplitInTwoChunks(fill - n, want - n, done);
    }
  }

  /** What a series of reads hands over. */
  function Drained(v: Ring, lens: seq<nat>): seq<Byte>
    decreases |lens|
  {
    if lens == [] then []
    else v.q[..ReadTotal(v, lens[0])] + Drained(ReadAfter(v, lens[0]), lens[1..])
  }

  function Sum(lens: seq<nat>): nat {
    if lens == [] then 0 else lens[0] + Sum(lens[1..])
  }

  /** Once writing is done, reads of any lengths hand over the queue in order and without a gap, the ragged
      tail included: after them exactly the first `Sum(lens)` bytes (or all of them) are out. */
  lemma {:induction false} DoneDrainsEverything(v: Ring, lens: seq<nat>)
    requires v.done
    ensures Drained(v, lens) == if Sum(lens) <= |v.q| then v.q[..Sum(lens)] else v.q
    decreases |lens|
  {
    if lens != [] {
      var n, rest := ReadTotal(v, lens[0]), Sum(lens[1..]);
      DoneDrainsEverything(ReadAfter(v, lens[0]), lens[1..]);
      if Sum(lens) <= |v.q| {
        assert v.q[..n] + v.q[n..][..rest] == v.q[..n + rest];
      } else {
        assert v.q == v.q[..n] + v.q[n..];
      }
    }
  }

  /** The value a read returns under-reports the bytes it moved exactly when it aborts after moving some. */
  lemma ReadReturnTellsBytesUnlessAborted(v: Ring, len: nat)
    requires ReadTotal(v, len) > 0
    ensures ReadReturn(v, len) == ReadTotal(v, len)
       <==> !(|v.q| < len && !v.done && v.abortRead)
    ensures ReadReturn(v, len) > 0 && ReadReturn(v, len) < len && !v.done ==> ReadReturn(v, len) % 4 == 0
  {
    WordsIsTheMultipleBelow(|v.q|);
  }

  /** The end of the stream is answered exactly when nothing can come any more; an abort exactly when the read would
      have had to wait but for it; otherwise a read that takes nothing has timed out. */
  lemma ReadReturnTellsWhy(v: Ring, len: nat)
    ensures ReadReturn(v, len) == RB_DONE <==> len > 0 && v.done && v.q == []
    ensures ReadReturn(v, len) == RB_ABORT <==> !v.done && v.abortRead && |v.q| < len
    ensures ReadReturn(v, len) == RB_TIMEOUT <==> !v.done && !v.abortRead && |v.q| < len && |v.q| < 4
    ensures ReadReturn(v, len) == 0 <==> len == 0
  {
    WordsIsTheMultipleBelow(|v.q|);
  }

  /** The value a write returns under-reports only then, too; in particular a write that fits returns its length. */
  lemma WriteReturnTellsBytesUnlessAborted(v: Ring, len: nat)
    requires |v.q| <= v.size
    ensures |v.q| + len <= v.size ==> WriteReturn(v, len) == len
    ensures |v.q| + len > v.size > |v.q| ==>
              WriteReturn(v, len) == if v.abortWrite && !v.done then RB_ABORT else v.size - |v.q|
    ensures WriteTotal(v, len) > 0 ==>
              (WriteReturn(v, len) == WriteTotal(v, len) <==> !(WriteTotal(v, len) < len && !v.done && v.abortWrite))
  {
  }

  /** When nothing could be written, though something was to be: the end if it has been declared, else an abort if there
      was one, else a time-out. */
  lemma WriteReturnTellsWhy(v: Ring, len: nat)
    requires |v.q| <= v.size
    ensures WriteReturn(v, len) == RB_DONE <==> len > 0 && |v.q| == v.size && v.done
    ensures WriteReturn(v, len) == RB_ABORT <==> |v.q| + len > v.size && !v.done && v.abortWrite
    ensures WriteReturn(v, len) == RB_TIMEOUT <==> len > 0 && |v.q| == v.size && !v.done && !v.abortWrite
    ensures WriteReturn(v, len) == 0 <==> len == 0
  {
  }

  /** A write followed by a read of everything queued returns the old bytes, then the new ones, in order. */
  lemma WriteThenReadIsFifo(v: Ring, xs: seq<Byte>)
    requires |v.q| <= v.size
    ensures var w := WriteAfter(v, xs);
            var n := WriteTotal(v, |xs|);
            && w.q == v.q + xs[..n]
            && ReadTotal(w, |v.q| + n) == |v.q| + n
            && ReadAfter(w, |v.q| + n).q == []
            && (|v.q| + |xs| <= v.size ==> w.q == v.q + xs)
  {
  }
}

/** `struct ringbuf`: a byte array used circularly. `r` and `w` are `p_r - p_o` and `p_w - p_o`; both may rest at
    `size` as well as at 0, because the wrap tests are strict. */
module RingBuffer {
  import opened RingTypes

  function Splice(d: seq<Byte>, at: nat, xs: seq<Byte>): (e: seq<Byte>)
    requires at + |xs| <= |d|
    ensures |e| == |d|
  {
    seq(|d|, i requires 0 <= i < |d| => if at <= i < at + |xs| then xs[i - at] else d[i])
  }

  lemma SpliceTwice(d: seq<Byte>, at: nat, xs: seq<Byte>, ys: seq<Byte>)
    requires at + |xs| + |ys| <= |d|
    ensures Splice(Splice(d, at, xs), at + |xs|, ys) == Splice(d, at, xs + ys)
  {
  }

  lemma SpliceNext(d: seq<Byte>, q: seq<Byte>, i: nat, n: nat)
    requires i + n <= |q|
    ensures q[i..][n..] == q[i + n..]
    ensures i + n <= |d| ==> Splice(Splice(d, 0, q[..i]), i, q[i..][..n]) == Splice(d, 0, q[..i + n])
  {
  }

  /** C's memcpy between two distinct arrays. */
  method Memcpy(dst: array<Byte>, at: nat, src: array<Byte>, from: nat, n: nat)
    requires dst != src
    requires at + n <= dst.Length && from + n <= src.Length
    modifies dst
    ensures dst[..] == Splice(old(dst[..]), at, src[..][from..from + n])
    ensures src[..] == old(src[..])
  {
    for i := 0 to n
      invariant forall k :: 0 <= k < dst.Length ==>
        dst[k] == if at <= k < at + i then src[from + (k - at)] else old(dst[k])
    {
      dst[at + i] := src[from + i];
    }
  }

  /** The `n` bytes of the circle `d` that start at position `p`. */
  function Arc(d: seq<Byte>, p: nat, n: nat): (s: seq<Byte>)
    requires p <= |d| && n <= |d|
    ensures |s| == n
  {
    seq(n, i requires 0 <= i < n => if p + i < |d| then d[p + i] else d[p + i - |d|])
  }

  function Advance(size: nat, p: nat, n: nat): (q: nat)
    requires p <= size && n <= size
    ensures q <= size
  {
    if p + n > size then p + n - size else p + n
  }

  /** Cutting an arc in two. */
  lemma ArcSplit(d: seq<Byte>, p: nat, m: nat, n: nat)
    requires p <= |d| && m + n <= |d|
    ensures Arc(d, p, m + n) == Arc(d, p, m) + Arc(d, Advance(|d|, p, m), n)
  {
  }

  /** The circle `d` with `xs` laid over it from position `w` on. */
  function Overwritten(d: seq<Byte>, w: nat, xs: seq<Byte>): (e: seq<Byte>)
    requires w <= |d| && |xs| <= |d|
    ensures |e| == |d|
  {
    if w + |xs| > |d| then
      var n1 := |d| - w;
      Splice(Splice(d, w, xs[..n1]), 0, xs[n1..])
    else
      Splice(d, w, xs)
  }

  lemma OverwrittenInside(d: seq<Byte>, w: nat, xs: seq<Byte>)
    requires w + |xs| <= |d|
    ensures Overwritten(d, w, xs) == Splice(d, w, xs)
  {
  }

  /** Writing into the free part of the circle leaves the queued part alone. */
  lemma ArcWritten(d: seq<Byte>, p: nat, m: nat, w: nat, xs: seq<Byte>)
    requires p <= |d| && w <= |d| && m + |xs| <= |d|
    requires w == p + m || w + |d| == p + m
    ensures Arc(Overwritten(d, w, xs), p, m) == Arc(d, p, m)
    ensures Arc(Overwritten(d, w, xs), Advance(|d|, p, m), |xs|) == xs
  {
  }

  /** Writing past the end is writing up to the end and then from the start. */
  lemma OverwrittenWraps(d: seq<Byte>, w: nat, xs: seq<Byte>, ys: seq<Byte>)
    requires w + |xs| == |d| && |ys| <= w
    ensures Overwritten(d, w, xs + ys) == Splice(Splice(d, w, xs), 0, ys)
  {
  }

  class RingBuf {
    const data: array<Byte>
    var r: nat
    var w: nat
    var fill: nat
    var done: bool
    var abortRead: bool
    var abortWrite: bool
    var unblock: bool
    var canRead: bool
    var canWrite: bool
    ghost var q: seq<Byte>  // the queued bytes, oldest first

    /** The write position is the read position plus the fill count, modulo the size, with 0 and `size` both
        allowed as positions. */
    ghost predicate Valid()
      reads this, data
    {
      && r <= data.Length && w <= data.Length && fill <= data.Length
      && (w == r + fill || w + data.Length == r + fill)
      && q == Arc(data[..], r, fill)
    }

    ghost function View(): Ring
      reads this
    {
      Ring(q, data.Length, done, abortRead, abortWrite, unblock, canRead, canWrite)
    }

    constructor (blockSize: nat, blocks: nat)
      requires 2 <= blockSize
      ensures Valid() && fresh(data)
      ensures View() == Ring([], blockSize * blocks, false, false, false, false, false, false)
    {
      data := new Byte[blockSize * blocks](_ => 0);
      r, w, fill, q := 0, 0, 0, [];
      done, abortRead, abortWrite, unblock := false, false, false, false;
      canRead, canWrite := false, false;
    }

    /** `rb_create` refuses blocks of fewer than two bytes. */
    static method Create(blockSize: int, blocks: nat) returns (rb: RingBuf?)
      ensures rb == null <==> blockSize < 2
      ensures rb != null ==> rb.Valid() && fresh(rb) && fresh(rb.data) && rb.View() == Cleared(rb.View())
                             && rb.data.Length == blockSize * blocks && !rb.canRead && !rb.canWrite
    {
      if blockSize < 2 {
        return null;
      }
      rb := new RingBuf(blockSize, blocks);
    }

    method Reset()
      modifies this
      ensures Valid()
      ensures View() == Ring([], data.Length, false, false, false, false, old(canRead), old(canWrite))
    {
      r, w, fill, q := 0, 0, 0, [];
      done, unblock, abortRead, abortWrite := false, false, false, false;
    }

    method BytesAvailable() returns (n: nat)
      requires Valid()
      ensures n == data.Length - |q|
    {
      n := data.Length - fill;
    }

    method Abort()
      requires Valid()
      modifies this
      ensures Valid()
      ensures View() == old(View()).(abortRead := true, abortWrite := true, canRead := true, canWrite := true)
    {
      abortRead, canRead := true, true;
      abortWrite, canWrite := true, true;
    }

    method DoneWrite()
      requires Valid()
      modifies this
      ensures Valid()
      ensures View() == old(View()).(done := true, canRead := true)
    {
      done, canRead := true, true;
    }

    method UnblockReader()
      requires Valid()
      modifies this
      ensures Valid()
      ensures View() == old(View()).(unblock := true, canRead := true)
    {
      unblock, canRead := true, true;
    }

    /** The reader's copy: one memcpy, or two when the bytes run past the end of the array. */
    method CopyOut(buf: array<Byte>, at: nat, n: nat)
      requires r <= data.Length && n <= data.Length
      requires buf != data && at + n <= buf.Length
      modifies buf
      ensures buf[..] == Splice(old(buf[..]), at, Arc(data[..], r, n))
    {
      ghost var b, d := buf[..], data[..];
      if r + n > data.Length {
        var n1 := data.Length - r;
        ghost var xs, ys := d[r..r + n1], d[0..n - n1];
        SpliceTwice(b, at, xs, ys);
        assert xs + ys == Arc(d, r, n);
        Memcpy(buf, at, data, r, n1);
        Memcpy(buf, at + n1, data, 0, n - n1);
      } else {
        assert d[r..r + n] == Arc(d, r, n);
        Memcpy(buf, at, data, r, n);
      }
    }

    /** The writer's copy. */
    method CopyIn(buf: array<Byte>, from: nat, n: nat)
      requires w <= data.Length && n <= data.Length
      requires buf != data && from + n <= buf.Length
      modifies data
      ensures data[..] == Overwritten(old(data[..]), w, buf[..][from..from + n])
      ensures buf[..] == old(buf[..])
    {
      ghost var b, d := buf[..], data[..];
      if w + n > data.Length {
        var n1 := data.Length - w;
        Memcpy(data, w, buf, from, n1);
        ghost var d1 := data[..];
        Memcpy(data, 0, buf, from + n1, n - n1);
        OverwrittenWraps(d, w, b[from..from + n1], b[from + n1..from + n]);
        assert b[from..from + n] == b[from..from + n1] + b[from + n1..from + n];
      } else {
        Memcpy(data, w, buf, from, n);
        OverwrittenInside(d, w, b[from..from + n]);
      }
    }

    /** The copy under the reader's lock: removes a prefix of the queue. */
    method TakeChunk(buf: array?<Byte>, at: nat, n: nat)
      requires Valid() && 0 < n <= fill
      requires buf != null ==> buf != data && at + n <= buf.Length
      modifies this`r, this`fill, this`q, buf
      ensures Valid()
      ensures View() == old(View()).(q := old(q)[n..])
      ensures buf != null ==> buf[..] == Splice(old(buf[..]), at, old(q)[..n])
    {
      ArcSplit(data[..], r, n, fill - n);
      if buf != null {
        CopyOut(buf, at, n);
      }
      r := Advance(data.Length, r, n);
      fill := fill - n;
      q := q[n..];
    }

    /** The copy under the writer's lock: appends to the queue. */
    method PutChunk(buf: array<Byte>, from: nat, n: nat)
      requires Valid() && 0 < n <= data.Length - fill
      requires buf != data && from + n <= buf.Length
      modifies this`w, this`fill, this`q, data
      ensures Valid()
      ensures View() == old(View()).(q := old(q) + buf[..][from..from + n])
      ensures buf[..] == old(buf[..])
    {
      ghost var d := data[..];
      CopyIn(buf, from, n);
      ArcWritten(d, r, fill, w, buf[..][from..from + n]);
      ArcSplit(data[..], r, fill, n);
      w := Advance(data.Length, w, n);
      fill := fill + n;
      q := q + buf[..][from..from + n];
    }

    /** One turn of `rb_read`'s loop, after `at` bytes of what was queued, `q0`, have been copied over `b0`: the locked
        section and, if it finds nothing to take and no reason to leave, the give and the wait. With nobody else
        running, the wait succeeds exactly when the token is there. */
    method TurnOfRead(buf: array?<Byte>, at: nat, want: nat, ghost q0: seq<Byte>, ghost b0: seq<Byte>)
      returns (n: nat, code: int)
      requires Valid() && 0 < want && at <= |q0| && q == q0[at..]
      requires buf != null ==> buf != data && at + want <= buf.Length == |b0| && buf[..] == Splice(b0, 0, q0[..at])
      modifies this`r, this`fill, this`q, this`canRead, this`canWrite, buf
      ensures Valid() && n == ReadSize(|q0| - at, want, done) && at + n <= |q0| && n <= want && q == q0[at + n..]
      ensures at + n + ReadReach(|q0| - (at + n), at + want - (at + n), done) == at + ReadReach(|q0| - at, want, done)
      ensures n == 0 ==> ReadReach(|q0| - at, want, done) == 0
      ensures buf != null ==> buf[..] == Splice(b0, 0, q0[..at + n])
      ensures n > 0 || done || abortRead || unblock ==> canRead == old(canRead) && canWrite == old(canWrite)
      ensures n > 0 ==> code == 0
      ensures n == 0 && (done || abortRead || unblock) ==>
        code == if done then RB_DONE else if abortRead then RB_ABORT else RB_TIMEOUT
      ensures n == 0 && !(done || abortRead || unblock) ==>
        canWrite && !canRead && code == if old(canRead) then 0 else RB_TIMEOUT
    {
      code := 0;
      n := ReadSize(fill, want, done);
      ReadReachStep(fill, want, done);
      SpliceNext(b0, q0, at, n);
      if n > 0 {
        TakeChunk(buf, at, n);
      } else if done {
        code := RB_DONE;
      } else if abortRead {
        code := RB_ABORT;
      } else if unblock {
        code := RB_TIMEOUT;
      } else {
        canWrite := true;
        if canRead { canRead := false; } else { code := RB_TIMEOUT; }
      }
    }

    /** The loop of `rb_read` with nobody else running; `waited` says whether it got as far as the wait. */
    method ReadLoop(buf: array?<Byte>, len: nat) returns (got: nat, code: int, ghost waited: bool)
      requires Valid()
      requires buf != null ==> buf != data && len <= buf.Length
      modifies this`r, this`fill, this`q, this`canRead, this`canWrite, buf
      ensures Valid() && got == ReadReach(|old(q)|, len, done)
      ensures q == old(q)[got..]
      ensures buf != null ==> buf[..] == Splice(old(buf[..]), 0, old(q)[..got])
      ensures waited <==> got < len && !done && !abortRead && !unblock
      ensures canRead == (old(canRead) && !waited) && canWrite == (old(canWrite) || waited)
      ensures code == if got == len then 0 else if done then RB_DONE else if abortRead then RB_ABORT else RB_TIMEOUT
    {
      got, code, waited := 0, 0, false;
      ghost var q0 := q;
      ghost var b0 := if buf == null then [] else buf[..];
      ghost var mustLeave := done || abortRead || unblock;
      ghost var reason := if done then RB_DONE else if abortRead then RB_ABORT else RB_TIMEOUT;
      while got < len && code == 0
        invariant Valid() && got <= |q0| && got <= len && q == q0[got..]
        invariant got + ReadReach(|q0| - got, len - got, done) == ReadReach(|q0|, len, done)
        invariant buf != null ==> buf[..] == Splice(b0, 0, q0[..got])
        invariant canRead == (old(canRead) && !waited) && canWrite == (old(canWrite) || waited)
        invariant waited || code != 0 ==> got == ReadReach(|q0|, len, done) < len
        invariant code == 0 || code == reason
        invariant if waited then !mustLeave else code != 0 ==> mustLeave
        decreases len - got, canRead, code == 0
      {
        var n;
        n, code := TurnOfRead(buf, got, len - got, q0, b0);
        waited := waited || !(n > 0 || mustLeave);
        got := got + n;
      }
    }

    /** `rb_read` while no other task touches the buffer; a null `buf` is the documented pseudo read. */
    method Read(buf: array?<Byte>, len: nat) returns (ret: int)
      requires Valid()
      requires buf != null ==> buf != data && len <= buf.Length
      modifies this, buf
      ensures Valid()
      ensures View() == ReadAfter(old(View()), len)
      ensures ret == ReadReturn(old(View()), len)
      ensures buf != null ==> buf[..] == Splice(old(buf[..]), 0, old(q)[..ReadTotal(old(View()), len)])
    {
      var got, code;
      ghost var waited;
      got, code, waited := ReadLoop(buf, len);
      if got > 0 { canWrite := true; }
      unblock := false;
      ret := if code == RB_ABORT then RB_ABORT else if got > 0 then got else code;
    }

    /** One turn of `rb_write`'s loop. */
    method TurnOfWrite(buf: array<Byte>, at: nat, want: nat) returns (n: nat, code: int)
      requires Valid() && 0 < want && buf != data && at + want <= buf.Length
      modifies this`w, this`fill, this`q, this`canRead, this`canWrite, data
      ensures Valid() && n == WriteSize(old(fill), data.Length, want)
      ensures q == old(q) + buf[..][at..at + n]
      ensures buf[..] == old(buf[..])
      ensures n > 0 || done || abortWrite ==> canRead == old(canRead) && canWrite == old(canWrite)
      ensures n > 0 ==> code == 0
      ensures n == 0 && (done || abortWrite) ==> code == if done then RB_DONE else RB_ABORT
      ensures n == 0 && !(done || abortWrite) ==>
        canRead && !canWrite && code == if old(canWrite) then 0 else RB_TIMEOUT
    {
      code := 0;
      n := BytesAvailable();
      if want < n {
        n := want;
      }
      if n > 0 {
        PutChunk(buf, at, n);
      } else if done {
        code := RB_DONE;
      } else if abortWrite {
        code := RB_ABORT;
      } else {
        canRead := true;
        if canWrite { canWrite := false; } else { code := RB_TIMEOUT; }
      }
    }

    /** The loop of `rb_write` with nobody else running. */
    method WriteLoop(buf: array<Byte>, len: nat) returns (sent: nat, code: int, ghost waited: bool)
      requires Valid() && buf != data && len <= buf.Length
      modifies this`w, this`fill, this`q, this`canRead, this`canWrite, data
      ensures Valid() && sent == WriteSize(old(fill), data.Length, len)
      ensures q == old(q) + buf[..][..sent]
      ensures buf[..] == old(buf[..])
      ensures waited <==> sent < len && !done && !abortWrite
      ensures canRead == (old(canRead) || waited) && canWrite == (old(canWrite) && !waited)
      ensures code == if sent == len then 0 else if done then RB_DONE else if abortWrite then RB_ABORT else RB_TIMEOUT
    {
      sent, code, waited := 0, 0, false;
      ghost var b0, q0 := buf[..], q;
      while sent < len && code == 0
        invariant Valid() && buf[..] == b0 && sent <= WriteSize(|q0|, data.Length, len)
        invariant q == q0 + b0[..sent]
        invariant canRead == (old(canRead) || waited) && canWrite == (old(canWrite) && !waited)
        invariant waited || code != 0 ==> sent == WriteSize(|q0|, data.Length, len) < len
        invariant waited ==> !done && !abortWrite
        invariant code != 0 ==> code == if done then RB_DONE else if abortWrite then RB_ABORT else RB_TIMEOUT
        invariant code != 0 && !waited ==> done || abortWrite
        decreases len - sent, canWrite, code == 0
      {
        var n;
        n, code := TurnOfWrite(buf, sent, len - sent);
        waited := waited || !(n > 0 || done || abortWrite);
        assert b0[..sent] + b0[sent..sent + n] == b0[..sent + n];
        sent := sent + n;
      }
    }

    /** `rb_write` while no other task touches the buffer. */
    method Write(buf: array<Byte>, len: nat) returns (ret: int)
      requires Valid() && buf != data && len <= buf.Length
      modifies this, data
      ensures Valid()
      ensures View() == WriteAfter(old(View()), buf[..][..len])
      ensures buf[..] == old(buf[..])
      ensures ret == WriteReturn(old(View()), len)
    {
      var sent, code;
      ghost var waited;
      sent, code, waited := WriteLoop(buf, len);
      assert buf[..][..len][..sent] == buf[..][..sent];
      if sent > 0 { canRead := true; }
      ret := if code == RB_ABORT then RB_ABORT else if sent > 0 then sent else code;
    }
  }
}
