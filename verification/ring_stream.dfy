/** A whole stream: one side writes chunk after chunk and then declares the end, the other reads, with any lengths,
    until it is told so; both wait as long as it takes. */
module RingStream {
  import opened RingTypes
  import opened RingProtocol
  import RingTransfer

  /** `todo` is what is still to be written, call by call; `ended` is whether a read has returned RB_DONE without a
      byte; `saw` is whether the section in which that was decided began with the end declared. */
  datatype Stream = Stream(s: Sys, todo: seq<seq<Byte>>, ended: bool, saw: bool)

  function Flat(todo: seq<seq<Byte>>): seq<Byte> {
    if todo == [] then [] else todo[0] + Flat(todo[1..])
  }

  predicate CanStep(t: Stream, l: Label) {
    match l
    case CallRead(n) => t.s.rd.ROut? && !t.ended && n > 0
    case CallWrite(xs) => t.s.wr.WOut? && t.todo != [] && xs == t.todo[0]
    case ReaderStep => ReaderEnabled(t.s)
    case WriterStep => WriterEnabled(t.s)
    case SetDone => t.s.wr.WOut? && t.todo == [] && !t.s.f.done
    case GiveSignal => t.s.g.sig > 0
    case _ => false
  }

  function Take(t: Stream, l: Label): Stream
    requires CanStep(t, l) && |t.s.b.q| <= t.s.b.size
  {
    Stream(Next(t.s, l),
           if l.CallWrite? then t.todo[1..] else t.todo,
           t.ended || (l == ReaderStep && t.s.rd.RClear? && t.s.rd.code == RB_DONE && t.s.rd.got == 0),
           if l == ReaderStep && t.s.rd.RHold? then t.s.rd.sawDone else t.saw)
  }

  // ---- what always holds ----

  /** At the end of the stream: writing is done, at most three bytes are left, none if the reader saw the end. */
  predicate AtEnd(t: Stream) {
    t.s.f.done && |t.s.b.q| <= 3 && (t.saw ==> t.s.b.q == [])
  }

  predicate ReaderFits(t: Stream) {
    match t.s.rd
    case ROut => t.ended ==> AtEnd(t)
    case RTop(left, got) => !t.ended && (left > 0 || got > 0)
    case REnd(_, got, code) => !t.ended && (if code == 0 then got > 0 else code == RB_DONE && AtEnd(t))
    case RClear(_, got, code) => !t.ended && (if code == 0 then got > 0 else code == RB_DONE && AtEnd(t))
    case _ => !t.ended
  }

  predicate Calm(s: Sys) {
    && !s.f.abortRead && !s.f.abortWrite && !s.f.unblock
    && s.g.ab1 == 0 && s.g.ab2 == 0 && s.g.ab3 == 0 && s.g.sig <= 1 && (s.g.sig > 0 ==> s.f.done)
  }

  /** Every byte is out, queued, with the writer or in a call not made yet. */
  predicate Accounts(t: Stream, all: seq<Byte>) {
    t.s.b.out + t.s.b.q + (RingTransfer.Rest(t.s) + Flat(t.todo)) == all
  }

  predicate Fits(t: Stream) {
    Calm(t.s) && ReaderFits(t) && (t.s.f.done ==> t.todo == [] && t.s.wr.WOut?)
  }

  ghost predicate Flowing(t: Stream, all: seq<Byte>) {
    Inv(t.s) && Fits(t) && Accounts(t, all)
  }

  lemma StepFits(t: Stream, l: Label)
    requires Conserved(t.s) && ReaderOk(t.s) && Fits(t) && CanStep(t, l)
    ensures Fits(Take(t, l))
  {
  }

  lemma Moved(out: seq<Byte>, q: seq<Byte>, tail: seq<Byte>, n: nat)
    requires n <= |q|
    ensures (out + q[..n]) + q[n..] + tail == out + q + tail
  {
    assert out + q[..n] + q[n..] == out + q;
  }

  lemma Joined(head: seq<Byte>, q: seq<Byte>, rest: seq<Byte>, tail: seq<Byte>, n: nat)
    requires n <= |rest|
    ensures head + (q + rest[..n]) + (rest[n..] + tail) == head + q + (rest + tail)
  {
    assert rest == rest[..n] + rest[n..];
  }

  lemma StepAccounts(t: Stream, l: Label, all: seq<Byte>)
    requires |t.s.b.q| <= t.s.b.size && Fits(t) && Accounts(t, all) && CanStep(t, l)
    ensures Accounts(Take(t, l), all)
  {
    var s, tail := t.s, Flat(t.todo);
    if l == ReaderStep && s.rd.RTop? {
      Moved(s.b.out, s.b.q, RingTransfer.Rest(s) + tail, ReadSize(|s.b.q|, s.rd.left, s.f.done));
    } else if l == WriterStep && s.wr.WTop? {
      var n := WriteSize(|s.b.q|, s.b.size, |s.wr.rest|);
      Joined(s.b.out, s.b.q, s.wr.rest, tail, n);
    } else if l.CallWrite? {
      assert [] + tail == t.todo[0] + Flat(t.todo[1..]);
    }
  }

  lemma StepFlows(t: Stream, l: Label, all: seq<Byte>)
    requires Flowing(t, all) && CanStep(t, l)
    ensures Flowing(Take(t, l), all)
  {
    StepKeepsInv(t.s, l);
    StepFits(t, l);
    StepAccounts(t, l, all);
  }

  // ---- it comes to an end ----

  predicate Ready(s: Sys) {
    ReadSize(|s.b.q|, RingTransfer.Left(s), s.f.done) > 0
  }

  predicate Room(s: Sys) {
    |s.b.q| < s.b.size
  }

  function ReadyRank(r: Reader): nat {
    if r.RHold? then 11 else if r.RGive? then 10 else if r.RWait? then 9 else 8
  }

  function EndRank(r: Reader): nat {
    if r.RGive? then 10 else if r.RWait? then 9 else if r.RTop? then 8 else 7
  }

  function TurnRank(r: Reader): nat {
    if r.RTop? then 11 else if r.RHold? then 10 else if r.RGive? then 9 else 8
  }

  /** Where a read has got to, if it has nothing yet; a read that has something comes before the next one. */
  function CallRank(s: Sys): nat {
    if s.rd.RClear? then 1
    else if s.rd.REnd? then (if s.rd.got > 0 then 6 else 2)
    else if RingTransfer.Left(s) == 0 then 7
    else if Ready(s) then ReadyRank(s.rd)
    else if s.f.done then EndRank(s.rd)
    else TurnRank(s.rd) + (if s.canRead then 4 else 0) + (if s.wr.WGive? then 4 else 0)
  }

  function Got(s: Sys): nat {
    match s.rd
    case ROut => 0
    case RTop(_, got) => got
    case RHold(_, got, _) => got
    case RGive(_, got) => got
    case RWait(_, got) => got
    case REnd(_, got, _) => got
    case RClear(_, got, _) => got
  }

  function ReaderRank(t: Stream): nat {
    if t.s.rd.ROut? then (if t.ended then 0 else 40) else (if Got(t.s) > 0 then 45 else 0) + CallRank(t.s)
  }

  function RoomRank(w: Writer): nat {
    if w.WGive? then 10 else if w.WWait? then 9 else 8
  }

  function FullRank(w: Writer): nat {
    if w.WTop? then 10 else if w.WGive? then 9 else 8
  }

  function WriterRank(s: Sys): nat {
    if s.wr.WOut? then 0
    else if s.wr.WEnd? then (if s.wr.sent > 0 then 6 else 1)
    else if RingTransfer.Rest(s) == [] then 7
    else if Room(s) then RoomRank(s.wr)
    else FullRank(s.wr) + (if s.canWrite then 3 else 0) + (if s.rd.RGive? then 3 else 0)
  }

  /** Bytes and calls still to come, those not yet in the buffer twice. */
  function Ahead(t: Stream): nat {
    2 * (|RingTransfer.Rest(t.s)| + |Flat(t.todo)|) + |t.s.b.q| + |t.todo| + (if t.s.f.done then 0 else 1)
  }

  function Turns(t: Stream): nat {
    ReaderRank(t) + WriterRank(t.s) + 5 * t.s.g.sig
  }

  function Rank(t: Stream): nat {
    100 * Ahead(t) + Turns(t)
  }

  ghost predicate Lower(t: Stream, l: Label)
    requires CanStep(t, l) && |t.s.b.q| <= t.s.b.size
  {
    var u := Take(t, l);
    Ahead(u) < Ahead(t) || (Ahead(u) == Ahead(t) && Turns(u) < Turns(t))
  }

  lemma TurnsAreFew(t: Stream)
    requires Calm(t.s)
    ensures Turns(t) < 100
  {
  }

  lemma TestLowers(t: Stream)
    requires Conserved(t.s) && Fits(t) && t.s.rd.RTop?
    ensures Lower(t, ReaderStep)
  {
  }

  lemma ReadLowers(t: Stream)
    requires Conserved(t.s) && ReaderOk(t.s) && Fits(t) && t.s.b.size >= 4 && ReaderEnabled(t.s)
    ensures Lower(t, ReaderStep)
  {
    if t.s.rd.RTop? {
      TestLowers(t);
    }
  }

  lemma WriteLowers(t: Stream)
    requires Conserved(t.s) && WriterOk(t.s) && Fits(t) && t.s.b.size >= 4 && WriterEnabled(t.s)
    ensures Lower(t, WriterStep)
  {
  }

  lemma CallLowers(t: Stream, l: Label)
    requires Conserved(t.s) && Fits(t) && CanStep(t, l) && l != ReaderStep && l != WriterStep
    ensures Lower(t, l)
  {
  }

  lemma StepLowers(t: Stream, l: Label, all: seq<Byte>)
    requires Flowing(t, all) && t.s.b.size >= 4 && CanStep(t, l)
    ensures Rank(Take(t, l)) < Rank(t)
  {
    if l == ReaderStep {
      ReadLowers(t);
    } else if l == WriterStep {
      WriteLowers(t);
    } else {
      CallLowers(t, l);
    }
    StepFits(t, l);
    TurnsAreFew(t);
    TurnsAreFew(Take(t, l));
  }

  /** The only place where nobody can move. */
  predicate Over(t: Stream) {
    t.ended && t.s.rd.ROut? && t.s.wr.WOut? && t.todo == [] && t.s.f.done && t.s.g.sig == 0
  }

  lemma SomebodyCan(t: Stream, all: seq<Byte>) returns (l: Label)
    requires Flowing(t, all) && t.s.b.size >= 4 && !Over(t)
    ensures CanStep(t, l)
  {
    if ReaderEnabled(t.s) {
      l := ReaderStep;
    } else if WriterEnabled(t.s) {
      l := WriterStep;
    } else if t.s.g.sig > 0 {
      l := GiveSignal;
    } else if t.s.rd.ROut? && !t.ended {
      l := CallRead(1);
    } else if t.todo != [] {
      l := CallWrite(t.todo[0]);
    } else {
      l := SetDone;
    }
  }

  predicate Streams(t: Stream, ls: seq<Label>)
    decreases |ls|
  {
    ls != [] ==> |t.s.b.q| <= t.s.b.size && CanStep(t, ls[0]) && Streams(Take(t, ls[0]), ls[1..])
  }

  function After(t: Stream, ls: seq<Label>): Stream
    requires Streams(t, ls)
    decreases |ls|
  {
    if ls == [] then t else After(Take(t, ls[0]), ls[1..])
  }

  /** With a buffer of at least one word every schedule comes to an end, and at the end the reader has been told so. It
      has read every byte in order but the last few that are still queued: at most three, and none if writing was done
      when the section in which it found nothing began. */
  lemma {:induction false} StreamCompletes(t: Stream, all: seq<Byte>, ls: seq<Label>)
    requires Flowing(t, all) && t.s.b.size >= 4 && Streams(t, ls)
    ensures |ls| <= Rank(t)
    ensures var e := After(t, ls);
            (forall l: Label :: !CanStep(e, l)) ==>
              Over(e) && e.s.b.out + e.s.b.q == all && |e.s.b.q| <= 3 && (e.saw ==> e.s.b.out == all)
    decreases |ls|
  {
    if ls != [] {
      StepFlows(t, ls[0], all);
      StepLowers(t, ls[0], all);
      StreamCompletes(Take(t, ls[0]), all, ls[1..]);
    } else if !Over(t) {
      var l := SomebodyCan(t, all);
    }
  }

  /** A stream about to begin, on an empty buffer with any tokens lying around. */
  function Beginning(size: nat, todo: seq<seq<Byte>>, canRead: bool, canWrite: bool): Stream {
    Stream(Sys(Store([], size, [], []), RingTransfer.NO_FLAGS, canRead, canWrite, ROut, WOut, RingTransfer.NO_SIGNALS),
           todo, false, false)
  }

  lemma BeginningFlows(size: nat, todo: seq<seq<Byte>>, canRead: bool, canWrite: bool)
    ensures Flowing(Beginning(size, todo, canRead, canWrite), Flat(todo))
  {
    assert [] + [] + ([] + Flat(todo)) == Flat(todo);
  }

  /** From the beginning on, with no more steps than the stream is long, in proportion. */
  lemma WholeStream(size: nat, todo: seq<seq<Byte>>, canRead: bool, canWrite: bool, ls: seq<Label>)
    requires size >= 4 && Streams(Beginning(size, todo, canRead, canWrite), ls)
    ensures |ls| < 100 * (2 * |Flat(todo)| + |todo| + 2)
    ensures var e := After(Beginning(size, todo, canRead, canWrite), ls);
            (forall l: Label :: !CanStep(e, l)) ==>
              Over(e) && e.s.b.out + e.s.b.q == Flat(todo) && |e.s.b.q| <= 3 && (e.saw ==> e.s.b.out == Flat(todo))
  {
    var t := Beginning(size, todo, canRead, canWrite);
    BeginningFlows(size, todo, canRead, canWrite);
    StreamCompletes(t, Flat(todo), ls);
    TurnsAreFew(t);
  }
}
