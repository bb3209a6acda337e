/** What `rb_abort`, `rb_unblock_reader` and `rb_done_write` are for: they get a waiting task out of its call. */
module RingSignals {
  import opened RingTypes
  import opened RingProtocol

  // ---- the answer ----

  /** The code a reader leaves with that finds nothing to take after a signal. */
  function Answer(l: Label): int {
    if l.SetDone? then RB_DONE else if l.AbortSetRead? then RB_ABORT else RB_TIMEOUT
  }

  predicate IsSignal(l: Label) {
    l == SetDone || l == SetUnblock || l == AbortSetRead
  }

  function GiveOf(l: Label): Label {
    if l == AbortSetRead then AbortGiveRead else GiveSignal
  }

  /** No signal that weighs more has been given before: done weighs most, then an abort, then unblocking. */
  predicate Weighs(f: Flags, l: Label) {
    l == SetDone || (!f.done && (l == AbortSetRead || !f.abortRead))
  }

  /** A reader waiting with nothing to take is out of its loop three steps after the signal and its give. */
  lemma SignalAnswersReader(s: Sys, l: Label)
    requires Inv(s) && s.rd.RWait? && IsSignal(l) && Weighs(s.f, l)
    requires ReadSize(|s.b.q|, s.rd.left, s.f.done || l == SetDone) == 0
    ensures var ls := [l, GiveOf(l), ReaderStep, ReaderStep, ReaderStep];
            && Runs(s, ls)
            && After(s, ls).rd == REnd(s.rd.left, s.rd.got, Answer(l)) && After(s, ls).b == s.b
  {
    var s1 := Next(s, l);
    var s2 := Next(s1, GiveOf(l));
    var s3 := Next(s2, ReaderStep);
    var s4 := Next(s3, ReaderStep);
    var s5 := Next(s4, ReaderStep);
    assert s5.rd == REnd(s.rd.left, s.rd.got, Answer(l));
    RunStep(s4, [ReaderStep]);
    RunStep(s3, [ReaderStep, ReaderStep]);
    RunStep(s2, [ReaderStep, ReaderStep, ReaderStep]);
    RunStep(s1, [GiveOf(l), ReaderStep, ReaderStep, ReaderStep]);
    RunStep(s, [l, GiveOf(l), ReaderStep, ReaderStep, ReaderStep]);
  }

  /** Likewise a writer waiting on a full buffer, two steps after the second half of an abort. */
  lemma AbortAnswersWriter(s: Sys)
    requires Inv(s) && s.wr.WWait? && |s.b.q| == s.b.size && !s.f.done && s.g.ab2 > 0 && !s.rd.RHold?
    ensures var ls := [AbortSetWrite, AbortGiveWrite, WriterStep, WriterStep];
            Runs(s, ls) && After(s, ls).wr == WEnd(s.wr.sent, RB_ABORT) && After(s, ls).b == s.b
  {
    var s1 := Next(s, AbortSetWrite);
    var s2 := Next(s1, AbortGiveWrite);
    var s3 := Next(s2, WriterStep);
    var s4 := Next(s3, WriterStep);
    assert s4.wr == WEnd(s.wr.sent, RB_ABORT);
    RunStep(s3, [WriterStep]);
    RunStep(s2, [WriterStep, WriterStep]);
    RunStep(s1, [AbortGiveWrite, WriterStep, WriterStep]);
    RunStep(s, [AbortSetWrite, AbortGiveWrite, WriterStep, WriterStep]);
  }

  lemma AbortHalf(s: Sys)
    requires Conserved(s)
    ensures Enabled(Next(s, AbortSetRead), AbortGiveRead)
    ensures Next(Next(s, AbortSetRead), AbortGiveRead) ==
            s.(f := s.f.(abortRead := true), canRead := true, g := s.g.(ab2 := s.g.ab2 + 1))
  {
  }

  /** The four sections of an abort follow one another, whatever the two tasks are at, and leave both flags and both
      tokens set. */
  lemma AbortRunsThrough(s: Sys)
    requires Conserved(s)
    ensures var ls := [AbortSetRead, AbortGiveRead, AbortSetWrite, AbortGiveWrite];
            && Runs(s, ls)
            && After(s, ls) == s.(f := s.f.(abortRead := true, abortWrite := true), canRead := true, canWrite := true)
  {
    AbortHalf(s);
    var s2 := s.(f := s.f.(abortRead := true), canRead := true, g := s.g.(ab2 := s.g.ab2 + 1));
    var s3 := s2.(f := s2.f.(abortWrite := true), g := s.g.(ab3 := s.g.ab3 + 1));
    assert Next(s2, AbortSetWrite) == s3;
    assert Next(s3, AbortGiveWrite) ==
           s.(f := s.f.(abortRead := true, abortWrite := true), canRead := true, canWrite := true);
    RunStep(s3, [AbortGiveWrite]);
    RunStep(s2, [AbortSetWrite, AbortGiveWrite]);
    RunStep(Next(s, AbortSetRead), [AbortGiveRead, AbortSetWrite, AbortGiveWrite]);
    RunStep(s, [AbortSetRead, AbortGiveRead, AbortSetWrite, AbortGiveWrite]);
  }

  // ---- whatever else is going on ----

  predicate ReaderOut(s: Sys) {
    s.rd.ROut? || s.rd.REnd? || s.rd.RClear?
  }

  predicate WriterOut(s: Sys) {
    s.wr.WOut? || s.wr.WEnd?
  }

  /** The reader will not go to wait again. */
  predicate ReaderCalled(s: Sys) {
    s.f.done || s.f.abortRead || s.f.unblock
  }

  predicate WriterCalled(s: Sys) {
    s.f.done || s.f.abortWrite
  }

  /** How many steps of its own the reader is from the end of its loop, once called. */
  function ReaderLeft(s: Sys): nat {
    match s.rd
    case RGive(left, _) => left + 4
    case RWait(left, _) => left + 3
    case RTop(left, _) => left + 2
    case RHold(_, _, _) => 1
    case _ => 0
  }

  function WriterLeft(s: Sys): nat {
    match s.wr
    case WGive(rest, _) => |rest| + 3
    case WWait(rest, _) => |rest| + 2
    case WTop(rest, _) => |rest| + 1
    case _ => 0
  }

  /** At the start or after some step of the run the reader is past its loop. */
  ghost predicate ReaderComesOut(s: Sys, ls: seq<Label>)
    requires Runs(s, ls)
    decreases |ls|
  {
    ReaderOut(s) || (ls != [] && ReaderComesOut(Next(s, ls[0]), ls[1..]))
  }

  ghost predicate WriterComesOut(s: Sys, ls: seq<Label>)
    requires Runs(s, ls)
    decreases |ls|
  {
    WriterOut(s) || (ls != [] && WriterComesOut(Next(s, ls[0]), ls[1..]))
  }

  /** How often a label occurs in a run. */
  function Count(ls: seq<Label>, l: Label): nat {
    if ls == [] then 0 else (if ls[0] == l then 1 else 0) + Count(ls[1..], l)
  }

  lemma CalledReaderNears(s: Sys, l: Label)
    requires Inv(s) && ReaderCalled(s) && !ReaderOut(s) && Enabled(s, l)
    ensures var t := Next(s, l);
            && ReaderCalled(t)
            && (ReaderOut(t) || ReaderLeft(t) + (if l == ReaderStep then 1 else 0) <= ReaderLeft(s))
  {
  }

  lemma {:induction false} CalledReaderLeaves(s: Sys, ls: seq<Label>)
    requires Inv(s) && ReaderCalled(s) && Runs(s, ls) && ReaderLeft(s) <= Count(ls, ReaderStep)
    ensures ReaderComesOut(s, ls)
    decreases |ls|
  {
    if !ReaderOut(s) {
      StepKeepsInv(s, ls[0]);
      CalledReaderNears(s, ls[0]);
      if !ReaderOut(Next(s, ls[0])) {
        CalledReaderLeaves(Next(s, ls[0]), ls[1..]);
      }
    }
  }

  lemma CalledWriterNears(s: Sys, l: Label)
    requires Inv(s) && WriterCalled(s) && !WriterOut(s) && Enabled(s, l)
    ensures var t := Next(s, l);
            && WriterCalled(t)
            && (WriterOut(t) || WriterLeft(t) + (if l == WriterStep then 1 else 0) <= WriterLeft(s))
  {
  }

  lemma {:induction false} CalledWriterLeaves(s: Sys, ls: seq<Label>)
    requires Inv(s) && WriterCalled(s) && Runs(s, ls) && WriterLeft(s) <= Count(ls, WriterStep)
    ensures WriterComesOut(s, ls)
    decreases |ls|
  {
    if !WriterOut(s) {
      StepKeepsInv(s, ls[0]);
      CalledWriterNears(s, ls[0]);
      if !WriterOut(Next(s, ls[0])) {
        CalledWriterLeaves(Next(s, ls[0]), ls[1..]);
      }
    }
  }

  /** Once one of the three signals has been given, whatever anybody does, the reader is out of its loop after at most
      as many steps of its own as it has bytes to go and four; and it is never held up but by a give on its way. */
  lemma SignalFreesReader(s: Sys, l: Label, ls: seq<Label>)
    requires Inv(s) && IsSignal(l) && Runs(Next(s, l), ls)
    ensures ReaderLeft(Next(s, l)) <= Count(ls, ReaderStep) ==> ReaderComesOut(Next(s, l), ls)
    ensures var t := Next(s, l); !ReaderOut(t) ==> ReaderEnabled(t) || OwesReader(t)
  {
    StepKeepsInv(s, l);
    if ReaderLeft(Next(s, l)) <= Count(ls, ReaderStep) {
      CalledReaderLeaves(Next(s, l), ls);
    }
  }

  /** The second half of an abort does the same for the writer, which may also have to wait for the reader to release
      the lock. */
  lemma AbortFreesWriter(s: Sys, ls: seq<Label>)
    requires Inv(s) && s.g.ab2 > 0 && Runs(Next(s, AbortSetWrite), ls)
    ensures WriterLeft(Next(s, AbortSetWrite)) <= Count(ls, WriterStep) ==> WriterComesOut(Next(s, AbortSetWrite), ls)
    ensures var t := Next(s, AbortSetWrite); !WriterOut(t) ==> WriterEnabled(t) || t.rd.RHold? || OwesWriter(t)
  {
    StepKeepsInv(s, AbortSetWrite);
    if WriterLeft(Next(s, AbortSetWrite)) <= Count(ls, WriterStep) {
      CalledWriterLeaves(Next(s, AbortSetWrite), ls);
    }
  }

  // ---- a reset takes all of it back ----

  /** After a reset the flags are forgotten and so are the bytes: the next read finds nothing and goes to wait. */
  lemma ResetReaderWaits(s: Sys, n: nat)
    requires Quiet(s) && |s.b.q| <= s.b.size && n > 0
    ensures var ls := [Reset, CallRead(n), ReaderStep, ReaderStep];
            Runs(s, ls) && After(s, ls).rd == RGive(n, 0)
  {
    var s1 := Next(s, Reset);
    var s2 := Next(s1, CallRead(n));
    var s3 := Next(s2, ReaderStep);
    assert s3.rd == RHold(n, 0, false);
    RunStep(s3, [ReaderStep]);
    RunStep(s2, [ReaderStep, ReaderStep]);
    RunStep(s1, [CallRead(n), ReaderStep, ReaderStep]);
    RunStep(s, [Reset, CallRead(n), ReaderStep, ReaderStep]);
  }

  /** And a write larger than the buffer fills it whole and goes to wait. */
  lemma ResetWriterWaits(s: Sys, xs: seq<Byte>)
    requires Quiet(s) && |s.b.q| <= s.b.size && |xs| > s.b.size > 0
    ensures var ls := [Reset, CallWrite(xs), WriterStep, WriterStep];
            && Runs(s, ls)
            && After(s, ls).wr == WGive(xs[s.b.size..], s.b.size) && After(s, ls).b.q == xs[..s.b.size]
  {
    var s1 := Next(s, Reset);
    var s2 := Next(s1, CallWrite(xs));
    var s3 := Next(s2, WriterStep);
    assert s3.b.q == xs[..s.b.size] && s3.wr == WTop(xs[s.b.size..], s.b.size);
    RunStep(s3, [WriterStep]);
    RunStep(s2, [WriterStep, WriterStep]);
    RunStep(s1, [CallWrite(xs), WriterStep, WriterStep]);
    RunStep(s, [Reset, CallWrite(xs), WriterStep, WriterStep]);
  }

  /** An unblocking ends with the call it unblocks: the next one starts with the flag down. */
  lemma UnblockIsForOneCall(s: Sys)
    requires Inv(s) && s.rd.RClear?
    ensures ReaderEnabled(s) && ReaderNext(s).rd.ROut? && !ReaderNext(s).f.unblock
    ensures ReaderNext(s).f == s.f.(unblock := false)
  {
  }
}
