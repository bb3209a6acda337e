/** Progress of the hand-off: one `rb_write` of some bytes against one `rb_read` of as many, waiting forever
    (no timeouts) and undisturbed by signals. */
module RingTransfer {
  import opened RingTypes
  import opened RingProtocol

  function Rest(s: Sys): seq<Byte> {
    match s.wr
    case WTop(rest, _) => rest
    case WGive(rest, _) => rest
    case WWait(rest, _) => rest
    case _ => []
  }

  function Left(s: Sys): nat {
    match s.rd
    case ROut => 0
    case RTop(left, _) => left
    case RHold(left, _, _) => left
    case RGive(left, _) => left
    case RWait(left, _) => left
    case REnd(left, _, _) => left
    case RClear(left, _, _) => left
  }

  const NO_FLAGS := Flags(false, false, false, false)
  const NO_SIGNALS := Signals(0, 0, 0, 0)

  /** Underway: of `xs`, a first part is out, a second part queued and a third still with the writer, and the reader
      wants precisely the last two. */
  ghost predicate Transfer(s: Sys, xs: seq<Byte>) {
    && Inv(s) && s.f == NO_FLAGS && s.g == NO_SIGNALS
    && s.b.out + s.b.q + Rest(s) == xs
    && Left(s) == |s.b.q| + |Rest(s)|
    && (s.rd.REnd? || s.rd.RClear? ==> s.rd.left == 0)
  }

  predicate ReaderReady(s: Sys) {
    ReadSize(|s.b.q|, Left(s), false) > 0
  }

  predicate Room(s: Sys) {
    |s.b.q| < s.b.size
  }

  function ReaderRank(s: Sys): nat {
    if Left(s) == 0 then
      (match s.rd case ROut => 0 case RClear(_, _, _) => 1 case REnd(_, _, _) => 2 case _ => 3)
    else if ReaderReady(s) then
      (match s.rd case RGive(_, _) => 2 case RWait(_, _) => 1 case _ => 0)
    else
      (match s.rd case RTop(_, _) => 3 case RHold(_, _, _) => 2 case RGive(_, _) => 1 case _ => 0)
      + (if s.canRead then 4 else 0) + (if s.wr.WGive? then 4 else 0)
  }

  function WriterRank(s: Sys): nat {
    if Rest(s) == [] then
      (match s.wr case WOut => 0 case WEnd(_, _) => 1 case _ => 2)
    else if Room(s) then
      (match s.wr case WGive(_, _) => 2 case WWait(_, _) => 1 case _ => 0)
    else
      (match s.wr case WTop(_, _) => 2 case WGive(_, _) => 1 case _ => 0)
      + (if s.canWrite then 3 else 0) + (if s.rd.RGive? then 3 else 0)
  }

  /** Steps still possible: bytes to move first, then positions in the loops and tokens that can drive another turn. */
  function Rank(s: Sys): nat {
    20 * (Left(s) + |Rest(s)|) + ReaderRank(s) + WriterRank(s)
  }

  lemma ReaderKeepsTransfer(s: Sys, xs: seq<Byte>)
    requires Transfer(s, xs) && ReaderEnabled(s)
    ensures Transfer(ReaderNext(s), xs)
  {
    StepKeepsInv(s, ReaderStep);
    if s.rd.RTop? {
      var n := ReadSize(|s.b.q|, s.rd.left, s.f.done);
      assert s.b.out + s.b.q[..n] + s.b.q[n..] == s.b.out + s.b.q;
    }
  }

  lemma WriterKeepsTransfer(s: Sys, xs: seq<Byte>)
    requires Transfer(s, xs) && WriterEnabled(s)
    ensures Transfer(WriterNext(s), xs)
  {
    StepKeepsInv(s, WriterStep);
    if s.wr.WTop? {
      var rest := s.wr.rest;
      var n := WriteSize(|s.b.q|, s.b.size, |rest|);
      assert s.b.out + (s.b.q + rest[..n]) + rest[n..] == s.b.out + s.b.q + rest;
    }
  }

  lemma RanksAreSmall(s: Sys, xs: seq<Byte>)
    requires Transfer(s, xs) && s.b.size >= 4
    ensures ReaderRank(s) + WriterRank(s) < 20
    ensures Left(s) > 0 && !ReaderReady(s) ==> Rest(s) != [] && Room(s)
  {
  }

  lemma ReaderLowersRank(s: Sys, xs: seq<Byte>)
    requires Transfer(s, xs) && s.b.size >= 4 && ReaderEnabled(s)
    ensures Rank(ReaderNext(s)) < Rank(s)
  {
    ReaderKeepsTransfer(s, xs);
    RanksAreSmall(s, xs);
    RanksAreSmall(ReaderNext(s), xs);
  }

  lemma WriterLowersRank(s: Sys, xs: seq<Byte>)
    requires Transfer(s, xs) && s.b.size >= 4 && WriterEnabled(s)
    ensures Rank(WriterNext(s)) < Rank(s)
  {
    WriterKeepsTransfer(s, xs);
    RanksAreSmall(s, xs);
    RanksAreSmall(WriterNext(s), xs);
  }

  ghost predicate OnlyTasks(ls: seq<Label>) {
    forall i :: 0 <= i < |ls| ==> ls[i] == ReaderStep || ls[i] == WriterStep
  }

  /** With a buffer of at least one word, every schedule of the two tasks comes to an end, and the only place where
      neither can move is after both calls have returned and the reader has all the bytes, in order. */
  lemma {:induction false} TransferCompletes(s: Sys, xs: seq<Byte>, ls: seq<Label>)
    requires Transfer(s, xs) && s.b.size >= 4
    requires Runs(s, ls) && OnlyTasks(ls)
    ensures |ls| <= Rank(s)
    ensures var e := After(s, ls);
            !ReaderEnabled(e) && !WriterEnabled(e) ==> e.rd.ROut? && e.wr.WOut? && e.b.out == xs
    decreases |ls|
  {
    if ls != [] {
      var t := Next(s, ls[0]);
      if ls[0] == ReaderStep {
        ReaderKeepsTransfer(s, xs);
        ReaderLowersRank(s, xs);
      } else {
        WriterKeepsTransfer(s, xs);
        WriterLowersRank(s, xs);
      }
      TransferCompletes(t, xs, ls[1..]);
    } else {
      RanksAreSmall(s, xs);
    }
  }

  /** Both calls just made on an empty buffer, with any tokens lying around. */
  function Started(size: nat, xs: seq<Byte>, canRead: bool, canWrite: bool): Sys {
    Sys(Store([], size, [], []), NO_FLAGS, canRead, canWrite, RTop(|xs|, 0), WTop(xs, 0), NO_SIGNALS)
  }

  lemma StartedIsTransfer(size: nat, xs: seq<Byte>, canRead: bool, canWrite: bool)
    ensures Transfer(Started(size, xs, canRead, canWrite), xs)
  {
  }

  /** A full buffer smaller than a word: the reader will not take a part of a word, the writer has no room. */
  ghost predicate PingPong(s: Sys) {
    && Inv(s) && s.f == NO_FLAGS && s.g == NO_SIGNALS
    && |s.b.q| == s.b.size < 4 && Left(s) > s.b.size && Rest(s) != []
    && (s.rd.RTop? || s.rd.RHold? || s.rd.RGive? || s.rd.RWait?)
    && (s.wr.WTop? || s.wr.WGive? || s.wr.WWait?)
  }

  lemma PingPongKept(s: Sys, l: Label)
    requires PingPong(s) && (l == ReaderStep || l == WriterStep) && Enabled(s, l)
    ensures PingPong(Next(s, l)) && Next(s, l).b == s.b
  {
    StepKeepsInv(s, l);
  }

  lemma {:induction false} PingPongForever(s: Sys, ls: seq<Label>)
    requires PingPong(s) && Runs(s, ls) && OnlyTasks(ls)
    ensures var e := After(s, ls); PingPong(e) && e.b == s.b && (ReaderEnabled(e) || WriterEnabled(e))
    decreases |ls|
  {
    if ls != [] {
      PingPongKept(s, ls[0]);
      PingPongForever(Next(s, ls[0]), ls[1..]);
    }
  }

  /** Below four bytes a transfer larger than the buffer can be caught: once the writer has filled it, the two tasks
      hand each other tokens for as long as they are scheduled and not one more byte moves. */
  lemma SmallRingNeverCompletes(size: nat, xs: seq<Byte>, canRead: bool, canWrite: bool, ls: seq<Label>)
    requires 0 < size < 4 && |xs| > size
    requires var t := WriterNext(Started(size, xs, canRead, canWrite)); Runs(t, ls) && OnlyTasks(ls)
    ensures var t := WriterNext(Started(size, xs, canRead, canWrite));
            var e := After(t, ls);
            e.b == t.b && e.b.out == [] && (ReaderEnabled(e) || WriterEnabled(e))
  {
    var s := Started(size, xs, canRead, canWrite);
    StepKeepsInv(s, WriterStep);
    PingPongForever(WriterNext(s), ls);
  }
}
