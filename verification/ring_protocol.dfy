/** The hand-off between one reader task, one writer task and any number of signalling tasks, as a labelled
    transition system. Every section under the buffer's lock is one step; the lock is dropped between chunks,
    and so is the step. */
module RingProtocol {
  import opened RingTypes

  /** Where the reader is inside `rb_read`: `left` bytes are still wanted, `got` have been copied out. */
  datatype Reader =
    | ROut                                                // not inside a call
    | RTop(left: nat, got: nat)                           // at the loop test
    | RHold(left: nat, got: nat, sawDone: bool)           // holds the lock, found nothing to take
    | RGive(left: nat, got: nat)                          // lock dropped, about to give can_write
    | RWait(left: nat, got: nat)                          // waiting for can_read
    | REnd(left: nat, got: nat, code: int)                // past the loop
    | RClear(left: nat, got: nat, code: int)              // about to clear the unblock flag and return

  /** Where the writer is inside `rb_write`: `rest` is still to be copied in, `sent` bytes have been. */
  datatype Writer =
    | WOut
    | WTop(rest: seq<Byte>, sent: nat)
    | WGive(rest: seq<Byte>, sent: nat)
    | WWait(rest: seq<Byte>, sent: nat)
    | WEnd(sent: nat, code: int)

  /** `sig` calls of `rb_done_write` or `rb_unblock_reader` have set their flag and owe their give of can_read.
      `ab1`, `ab2`, `ab3` calls of `rb_abort` are about to give can_read, to set abort_write, to give can_write.
      `inp` and `out` are all bytes copied in and out since the last reset. */
  datatype Store = Store(q: seq<Byte>, size: nat, inp: seq<Byte>, out: seq<Byte>)
  datatype Flags = Flags(done: bool, abortRead: bool, abortWrite: bool, unblock: bool)
  datatype Signals = Signals(sig: nat, ab1: nat, ab2: nat, ab3: nat)
  datatype Sys = Sys(b: Store, f: Flags, canRead: bool, canWrite: bool, rd: Reader, wr: Writer, g: Signals)

  datatype Label =
    | CallRead(n: nat) | CallWrite(xs: seq<Byte>)
    | ReaderStep | WriterStep | ReaderTimeout | WriterTimeout
    | SetDone | SetUnblock | GiveSignal
    | AbortSetRead | AbortGiveRead | AbortSetWrite | AbortGiveWrite
    | Reset

  predicate Quiet(s: Sys) {
    s.rd.ROut? && s.wr.WOut? && s.g.sig == 0 && s.g.ab1 == 0 && s.g.ab2 == 0 && s.g.ab3 == 0
  }

  predicate ReaderEnabled(s: Sys) {
    !s.rd.ROut? && (s.rd.RWait? ==> s.canRead)
  }

  /** The writer's section needs the lock, which a reader in `RHold` has. */
  predicate WriterEnabled(s: Sys) {
    !s.wr.WOut? && (s.wr.WWait? ==> s.canWrite) && (s.wr.WTop? && s.wr.rest != [] ==> !s.rd.RHold?)
  }

  predicate Enabled(s: Sys, l: Label) {
    match l
    case CallRead(_) => s.rd.ROut?
    case CallWrite(_) => s.wr.WOut?
    case ReaderStep => ReaderEnabled(s)
    case WriterStep => WriterEnabled(s)
    case ReaderTimeout => s.rd.RWait? && !s.canRead
    case WriterTimeout => s.wr.WWait? && !s.canWrite
    case SetDone => true
    case SetUnblock => true
    case GiveSignal => s.g.sig > 0
    case AbortSetRead => true
    case AbortGiveRead => s.g.ab1 > 0
    case AbortSetWrite => s.g.ab2 > 0
    case AbortGiveWrite => s.g.ab3 > 0
    case Reset => Quiet(s)
  }

  function ReaderNext(s: Sys): Sys
    requires ReaderEnabled(s)
  {
    match s.rd
    case RTop(left, got) =>
      var n := ReadSize(|s.b.q|, left, s.f.done);
      if left == 0 then s.(rd := REnd(0, got, 0))
      else if n == 0 then s.(rd := RHold(left, got, s.f.done))
      else s.(rd := RTop(left - n, got + n), b := s.b.(q := s.b.q[n..], out := s.b.out + s.b.q[..n]))
    case RHold(left, got, _) =>
      if s.f.done then s.(rd := REnd(left, got, RB_DONE))
      else if s.f.abortRead then s.(rd := REnd(left, got, RB_ABORT))
      else if s.f.unblock then s.(rd := REnd(left, got, RB_TIMEOUT))
      else s.(rd := RGive(left, got))
    case RGive(left, got) => s.(rd := RWait(left, got), canWrite := true)
    case RWait(left, got) => s.(rd := RTop(left, got), canRead := false)
    case REnd(left, got, code) => s.(rd := RClear(left, got, code), canWrite := s.canWrite || got > 0)
    case RClear(_, _, _) => s.(rd := ROut, f := s.f.(unblock := false))
  }

  function WriterNext(s: Sys): Sys
    requires WriterEnabled(s) && |s.b.q| <= s.b.size
  {
    match s.wr
    case WTop(rest, sent) =>
      var n := WriteSize(|s.b.q|, s.b.size, |rest|);
      if rest == [] then s.(wr := WEnd(sent, 0))
      else if n > 0 then
        s.(wr := WTop(rest[n..], sent + n), b := s.b.(q := s.b.q + rest[..n], inp := s.b.inp + rest[..n]))
      else if s.f.done then s.(wr := WEnd(sent, RB_DONE))
      else if s.f.abortWrite then s.(wr := WEnd(sent, RB_ABORT))
      else s.(wr := WGive(rest, sent))
    case WGive(rest, sent) => s.(wr := WWait(rest, sent), canRead := true)
    case WWait(rest, sent) => s.(wr := WTop(rest, sent), canWrite := false)
    case WEnd(sent, _) => s.(wr := WOut, canRead := s.canRead || sent > 0)
  }

  function Next(s: Sys, l: Label): Sys
    requires Enabled(s, l) && |s.b.q| <= s.b.size
  {
    match l
    case CallRead(n) => s.(rd := RTop(n, 0))
    case CallWrite(xs) => s.(wr := WTop(xs, 0))
    case ReaderStep => ReaderNext(s)
    case WriterStep => WriterNext(s)
    case ReaderTimeout => s.(rd := REnd(s.rd.left, s.rd.got, RB_TIMEOUT))
    case WriterTimeout => s.(wr := WEnd(s.wr.sent, RB_TIMEOUT))
    case SetDone => s.(f := s.f.(done := true), g := s.g.(sig := s.g.sig + 1))
    case SetUnblock => s.(f := s.f.(unblock := true), g := s.g.(sig := s.g.sig + 1))
    case GiveSignal => s.(canRead := true, g := s.g.(sig := s.g.sig - 1))
    case AbortSetRead => s.(f := s.f.(abortRead := true), g := s.g.(ab1 := s.g.ab1 + 1))
    case AbortGiveRead => s.(canRead := true, g := s.g.(ab1 := s.g.ab1 - 1, ab2 := s.g.ab2 + 1))
    case AbortSetWrite => s.(f := s.f.(abortWrite := true), g := s.g.(ab2 := s.g.ab2 - 1, ab3 := s.g.ab3 + 1))
    case AbortGiveWrite => s.(canWrite := true, g := s.g.(ab3 := s.g.ab3 - 1))
    case Reset => s.(b := Store([], s.b.size, [], []), f := Flags(false, false, false, false))
  }

  function Created(size: nat): Sys {
    Sys(Store([], size, [], []), Flags(false, false, false, false), false, false, ROut, WOut, Signals(0, 0, 0, 0))
  }

  // ---- What a parked task can expect ----

  predicate ReaderParked(s: Sys) {
    s.rd.RGive? || s.rd.RWait?
  }

  predicate WriterParked(s: Sys) {
    s.wr.WGive? || s.wr.WWait?
  }

  /** The reader's next locked section would take something or leave the loop. */
  predicate ReaderCouldGo(s: Sys)
    requires ReaderParked(s)
  {
    ReadSize(|s.b.q|, s.rd.left, s.f.done) > 0 || s.f.done || s.f.abortRead || s.f.unblock
  }

  /** The writer's next locked section would find room, or leave the loop on an abort. */
  predicate WriterCouldGo(s: Sys) {
    |s.b.q| < s.b.size || s.f.abortWrite
  }

  /** Somebody who is not waiting still has to give can_read. */
  predicate OwesReader(s: Sys) {
    || s.g.sig > 0 || s.g.ab1 > 0
    || s.wr.WGive?
    || (s.wr.WTop? && s.wr.sent > 0)
    || (s.wr.WEnd? && s.wr.sent > 0)
  }

  /** Somebody who is not waiting still has to give can_write. */
  predicate OwesWriter(s: Sys) {
    || s.g.ab3 > 0
    || s.rd.RGive?
    || ((s.rd.RTop? || s.rd.RHold? || s.rd.REnd?) && s.rd.got > 0)
  }

  /** Conservation: everything copied in has been copied out or is still queued, in order. */
  ghost predicate Conserved(s: Sys) {
    |s.b.q| <= s.b.size && s.b.inp == s.b.out + s.b.q
  }

  /** Bytes come out in whole words until the request is met or writing is done. */
  ghost predicate ReaderOk(s: Sys) {
    match s.rd
    case ROut => true
    case RTop(left, got) => Words(got) == got || left == 0 || s.f.done
    case RHold(left, got, saw) =>
      && left > 0 && (Words(got) == got || s.f.done)
      && |s.b.q| < 4 && |s.b.q| < left && (saw ==> s.f.done && s.b.q == [])
    case RGive(left, got) => left > 0 && (Words(got) == got || s.f.done)
    case RWait(left, got) => left > 0 && (Words(got) == got || s.f.done)
    case REnd(left, got, code) => Words(got) == got || left == 0 || s.f.done
    case RClear(left, got, code) => Words(got) == got || left == 0 || s.f.done
  }

  ghost predicate WriterOk(s: Sys) {
    WriterParked(s) ==> s.wr.rest != []
  }

  /** No wake-up of the reader is lost. */
  ghost predicate ReaderWakes(s: Sys) {
    ReaderParked(s) && ReaderCouldGo(s) ==> s.canRead || OwesReader(s)
  }

  /** No wake-up of the writer for room or an abort is lost. */
  ghost predicate WriterWakes(s: Sys) {
    WriterParked(s) && WriterCouldGo(s) ==> s.canWrite || OwesWriter(s)
  }

  /** The last of the two tasks to park has left the other a token. */
  ghost predicate OneToken(s: Sys) {
    s.rd.RWait? && s.wr.WWait? ==> s.canRead || s.canWrite
  }

  ghost predicate Inv(s: Sys) {
    Conserved(s) && ReaderOk(s) && WriterOk(s) && ReaderWakes(s) && WriterWakes(s) && OneToken(s)
  }

  lemma WordsAdd(m: nat, n: nat)
    requires Words(m) == m
    ensures Words(m + Words(n)) == m + Words(n)
  {
    WordsIsTheMultipleBelow(m);
    WordsIsTheMultipleBelow(n);
    WordsIsTheMultipleBelow(m + Words(n));
  }

  lemma ConservedKept(s: Sys, l: Label)
    requires Conserved(s) && Enabled(s, l)
    ensures Conserved(Next(s, l))
  {
    if l == ReaderStep && s.rd.RTop? {
      var n := ReadSize(|s.b.q|, s.rd.left, s.f.done);
      assert s.b.out + s.b.q[..n] + s.b.q[n..] == s.b.out + s.b.q;
    } else if l == WriterStep && s.wr.WTop? {
      var n := WriteSize(|s.b.q|, s.b.size, |s.wr.rest|);
      assert s.b.out + (s.b.q + s.wr.rest[..n]) == s.b.out + s.b.q + s.wr.rest[..n];
    }
  }

  lemma ReaderOkKept(s: Sys, l: Label)
    requires Conserved(s) && ReaderOk(s) && Enabled(s, l)
    ensures ReaderOk(Next(s, l))
  {
    if l == ReaderStep && s.rd.RTop? && Words(s.rd.got) == s.rd.got {
      WordsAdd(s.rd.got, |s.b.q|);
    }
  }

  lemma ReaderWakesKept(s: Sys, l: Label)
    requires Conserved(s) && ReaderOk(s) && ReaderWakes(s) && Enabled(s, l)
    ensures ReaderWakes(Next(s, l))
  {
  }

  lemma WriterWakesKept(s: Sys, l: Label)
    requires Conserved(s) && WriterOk(s) && WriterWakes(s) && OneToken(s) && Enabled(s, l)
    ensures WriterOk(Next(s, l)) && WriterWakes(Next(s, l)) && OneToken(Next(s, l))
  {
  }

  lemma StepKeepsInv(s: Sys, l: Label)
    requires Inv(s) && Enabled(s, l)
    ensures Inv(Next(s, l))
  {
    ConservedKept(s, l);
    ReaderOkKept(s, l);
    ReaderWakesKept(s, l);
    WriterWakesKept(s, l);
  }

  /** What `rb_read` and `rb_write` make of the bytes moved and the code their loop ended with. */
  function Returned(total: nat, code: int): int {
    if code == RB_ABORT then code else if total > 0 then total else code
  }

  // ---- Whole runs ----

  ghost predicate Runs(s: Sys, ls: seq<Label>)
    decreases |ls|
  {
    ls != [] ==> |s.b.q| <= s.b.size && Enabled(s, ls[0]) && Runs(Next(s, ls[0]), ls[1..])
  }

  ghost function After(s: Sys, ls: seq<Label>): Sys
    requires Runs(s, ls)
    decreases |ls|
  {
    if ls == [] then s else After(Next(s, ls[0]), ls[1..])
  }

  lemma {:induction false} RunKeepsInv(s: Sys, ls: seq<Label>)
    requires Inv(s) && Runs(s, ls)
    ensures Inv(After(s, ls))
    decreases |ls|
  {
    if ls != [] {
      StepKeepsInv(s, ls[0]);
      RunKeepsInv(Next(s, ls[0]), ls[1..]);
    }
  }

  /** Every state any interleaving reaches from a new buffer of any size conserves the stream, and in it a task
      parked without a token either has nothing to do or is owed a give by someone who is not waiting. */
  lemma EveryRunIsSafe(size: nat, ls: seq<Label>)
    requires Runs(Created(size), ls)
    ensures var s := After(Created(size), ls);
            && Inv(s)
            && s.b.inp == s.b.out + s.b.q
            && (s.rd.RWait? && !s.canRead && !OwesReader(s) ==>
                  !s.f.done && !s.f.abortRead && !s.f.unblock && |s.b.q| < s.rd.left && |s.b.q| < 4)
            && (s.wr.WWait? && !s.canWrite && !OwesWriter(s) ==> |s.b.q| == s.b.size && !s.f.abortWrite)
            && !(s.rd.RWait? && s.wr.WWait? && !s.canRead && !s.canWrite)
  {
    RunKeepsInv(Created(size), ls);
  }

  /** How far a moving writer is from the give it owes the reader. */
  function WriterDistance(s: Sys): nat
    requires !s.wr.WOut?
  {
    if s.wr.WTop? then 2 + |s.wr.rest| else 1
  }

  /** A give owed by a moving writer does arrive while the reader is parked: each of the writer's own next steps
      either makes the token appear or brings it closer, and none of them can be held up. */
  lemma OwedReadGiveArrives(s: Sys)
    requires Inv(s) && ReaderParked(s)
    requires s.wr.WGive? || ((s.wr.WTop? || s.wr.WEnd?) && s.wr.sent > 0)
    ensures WriterEnabled(s)
    ensures var t := WriterNext(s);
            || t.canRead
            || ((t.wr.WGive? || ((t.wr.WTop? || t.wr.WEnd?) && t.wr.sent > 0)) && WriterDistance(t) < WriterDistance(s))
  {
  }

  function ReaderDistance(s: Sys): nat
    requires !s.rd.ROut?
  {
    match s.rd
    case RTop(left, _) => 3 + left
    case RHold(_, _, _) => 2
    case _ => 1
  }

  lemma OwedWriteGiveArrives(s: Sys)
    requires Inv(s)
    requires s.rd.RGive? || ((s.rd.RTop? || s.rd.RHold? || s.rd.REnd?) && s.rd.got > 0)
    ensures ReaderEnabled(s)
    ensures var t := ReaderNext(s);
            || t.canWrite
            || ((t.rd.RGive? || ((t.rd.RTop? || t.rd.RHold? || t.rd.REnd?) && t.rd.got > 0))
                && ReaderDistance(t) < ReaderDistance(s))
  {
  }

  // ---- What a read reports ----

  /** A short read without an abort, while writing is not done, hands over whole words. */
  lemma ShortReadIsWholeWords(s: Sys)
    requires Inv(s) && (s.rd.REnd? || s.rd.RClear?) && s.rd.left > 0 && !s.f.done
    ensures s.rd.got % 4 == 0
  {
    WordsIsTheMultipleBelow(s.rd.got);
  }

  /** A read decides for RB_DONE only under the lock with nothing it could take: on an empty queue if writing was
      done when the section began, and with at most three bytes left if it became done during the section. */
  lemma DoneMeansDrained(s: Sys, l: Label)
    requires Inv(s) && Enabled(s, l)
    requires Next(s, l).rd.REnd? && Next(s, l).rd.code == RB_DONE && !s.rd.REnd?
    ensures l == ReaderStep && s.rd.RHold? && s.f.done
    ensures |s.b.q| <= 3 && (s.rd.sawDone ==> s.b.q == [])
  {
  }

  /** The three bytes of the bound above can really be left behind. */
  lemma DoneCanLeaveThree(size: nat, x: Byte)
    requires 3 <= size
    ensures exists ls: seq<Label> ::
              && Runs(Created(size), ls)
              && var s := After(Created(size), ls);
                 s.rd.REnd? && s.rd.code == RB_DONE && |s.b.q| == 3
  {
    var s0 := Created(size);
    var ls := [CallWrite([x, x, x]), WriterStep, CallRead(4), ReaderStep, SetDone, ReaderStep];
    var s1 := Next(s0, ls[0]);
    var s2 := Next(s1, ls[1]);
    var s3 := Next(s2, ls[2]);
    var s4 := Next(s3, ls[3]);
    var s5 := Next(s4, ls[4]);
    var s6 := Next(s5, ls[5]);
    assert s2.b.q == [x, x, x];
    assert s4.rd == RHold(4, 0, false);
    RunStep(s5, ls[5..]);
    RunStep(s4, ls[4..]);
    RunStep(s3, ls[3..]);
    RunStep(s2, ls[2..]);
    RunStep(s1, ls[1..]);
    RunStep(s0, ls);
  }

  lemma RunStep(s: Sys, ls: seq<Label>)
    requires ls != [] && |s.b.q| <= s.b.size && Enabled(s, ls[0]) && Runs(Next(s, ls[0]), ls[1..])
    ensures Runs(s, ls) && After(s, ls) == After(Next(s, ls[0]), ls[1..])
  {
  }

  // ---- The writer and the done flag ----

  /** The writer waits without a token, nobody owes it one, and yet its next section would not park again. */
  predicate Stranded(s: Sys) {
    && s.wr.WWait? && !s.canWrite && !OwesWriter(s)
    && (|s.b.q| < s.b.size || s.f.done || s.f.abortWrite)
  }

  /** `rb_done_write` gives can_read only. A waiting writer misses exactly that news. */
  lemma StrandedOnlyByDone(s: Sys)
    requires Inv(s) && s.wr.WWait? && !s.canWrite && !OwesWriter(s)
    ensures Stranded(s) <==> s.f.done
  {
  }

  lemma DoneStrandsTheWriter(size: nat, xs: seq<Byte>)
    requires |xs| > size > 0
    ensures exists ls: seq<Label> ::
              && Runs(Created(size), ls)
              && var s := After(Created(size), ls); Stranded(s) && s.g == Signals(0, 0, 0, 0)
  {
    var s0 := Created(size);
    var ls := [CallWrite(xs), WriterStep, WriterStep, WriterStep, SetDone, GiveSignal];
    var s1 := Next(s0, ls[0]);
    var s2 := Next(s1, ls[1]);
    assert |s2.b.q| == size && s2.wr.rest == xs[size..];
    var s3 := Next(s2, ls[2]);
    var s4 := Next(s3, ls[3]);
    var s5 := Next(s4, ls[4]);
    RunStep(s5, ls[5..]);
    RunStep(s4, ls[4..]);
    RunStep(s3, ls[3..]);
    RunStep(s2, ls[2..]);
    RunStep(s1, ls[1..]);
    RunStep(s0, ls);
  }

  // ---- Progress ----

  /** With room for a word, two waiting tasks are never both stuck: one of them has a token (or a signal is on its
      way) and its next section moves bytes or leaves. */
  lemma ParkedPairCanMove(s: Sys)
    requires Inv(s) && s.b.size >= 4 && s.rd.RWait? && s.wr.WWait? && s.g == Signals(0, 0, 0, 0)
    ensures (s.canRead && ReaderCouldGo(s)) || (s.canWrite && WriterCouldGo(s))
  {
  }
}
