/** The interleaved reader and writer, each left alone, do what the sequential `Read` and `Write` are proved to do. */
module RingSolo {
  import opened RingTypes
  import opened RingProtocol

  function RingOf(s: Sys): Ring {
    Ring(s.b.q, s.b.size, s.f.done, s.f.abortRead, s.f.abortWrite, s.f.unblock, s.canRead, s.canWrite)
  }

  predicate MustLeave(s: Sys) {
    s.f.done || s.f.abortRead || s.f.unblock
  }

  function LeaveCode(s: Sys): int {
    if s.f.done then RB_DONE else if s.f.abortRead then RB_ABORT else RB_TIMEOUT
  }

  /** The state at the end of the loop, from the state at its top. */
  function LoopEnd(s: Sys, want: nat, got: nat): Sys {
    EndWith(s, want, got, ReadReach(|s.b.q|, want, s.f.done))
  }

  /** The same, with the number of bytes it takes. */
  function EndWith(s: Sys, want: nat, got: nat, n: nat): Sys
    requires n <= want && n <= |s.b.q|
  {
    var waits := n < want && !MustLeave(s);
    Sys(Store(s.b.q[n..], s.b.size, s.b.inp, s.b.out + s.b.q[..n]), s.f,
        s.canRead && !waits, s.canWrite || waits,
        REnd(want - n, got + n, if n == want then 0 else LeaveCode(s)), s.wr, s.g)
  }

  ghost predicate Leads(s: Sys, t: Sys) {
    exists ls :: Runs(s, ls) && After(s, ls) == t
  }

  lemma LeadsByStep(s: Sys, l: Label, t: Sys)
    requires |s.b.q| <= s.b.size && Enabled(s, l) && Leads(Next(s, l), t)
    ensures Leads(s, t)
  {
    var ls :| Runs(Next(s, l), ls) && After(Next(s, l), ls) == t;
    RunStep(s, [l] + ls);
  }

  lemma LeadsNowhere(s: Sys)
    ensures Leads(s, s)
  {
    assert Runs(s, []) && After(s, []) == s;
  }

  lemma TopWithNothing(s: Sys, want: nat, got: nat)
    requires Conserved(s) && s.rd == RTop(want, got) && want > 0 && ReadSize(|s.b.q|, want, s.f.done) == 0
    ensures ReaderNext(s) == s.(rd := RHold(want, got, s.f.done))
    ensures MustLeave(s) ==> ReaderNext(ReaderNext(s)) == s.(rd := REnd(want, got, LeaveCode(s)))
    ensures !MustLeave(s) ==>
      && ReaderNext(ReaderNext(s)) == s.(rd := RGive(want, got))
      && ReaderNext(s.(rd := RGive(want, got))) == s.(rd := RWait(want, got), canWrite := true)
  {
  }

  /** The loop, left alone, runs to its end. */
  ghost predicate Completes(s: Sys, want: nat, got: nat) {
    Leads(s, LoopEnd(s, want, got))
  }

  lemma {:induction false} LoopAlone(s: Sys, want: nat, got: nat)
    requires Conserved(s) && s.rd == RTop(want, got)
    ensures Completes(s, want, got)
    decreases want, s.canRead
  {
    var n := ReadSize(|s.b.q|, want, s.f.done);
    if want == 0 {
      NothingWanted(s, got);
    } else if n > 0 {
      var t := TakesChunk(s, want, got, n);
      LoopAlone(t, want - n, got + n);
      ChunkThenRest(s, t, want, got, n);
    } else {
      if !MustLeave(s) && s.canRead {
        LoopAlone(s.(canRead := false, canWrite := true), want, got);
      }
      NothingThenRest(s, want, got);
    }
  }

  lemma NothingWanted(s: Sys, got: nat)
    requires Conserved(s) && s.rd == RTop(0, got)
    ensures Completes(s, 0, got)
  {
    var e := LoopEnd(s, 0, got);
    LeadsNowhere(e);
    assert s.b.q[0..] == s.b.q && s.b.out + s.b.q[..0] == s.b.out;
    LeadsByStep(s, ReaderStep, e);
  }

  lemma TakesChunk(s: Sys, want: nat, got: nat, n: nat) returns (t: Sys)
    requires Conserved(s) && s.rd == RTop(want, got) && want > 0 && 0 < n == ReadSize(|s.b.q|, want, s.f.done)
    ensures n <= want && n <= |s.b.q| && t == ReaderNext(s) && Conserved(t) && t.rd == RTop(want - n, got + n)
  {
    ReadReachStep(|s.b.q|, want, s.f.done);
    ConservedKept(s, ReaderStep);
    t := ReaderNext(s);
  }

  lemma NothingThenRest(s: Sys, want: nat, got: nat)
    requires Conserved(s) && s.rd == RTop(want, got) && want > 0 && ReadSize(|s.b.q|, want, s.f.done) == 0
    requires var t := s.(canRead := false, canWrite := true);
             !MustLeave(s) && s.canRead ==> Completes(t, want, got)
    ensures Completes(s, want, got)
  {
    ReadReachStep(|s.b.q|, want, s.f.done);
    var e := LoopEnd(s, want, got);
    assert s.b.q[0..] == s.b.q && s.b.out + s.b.q[..0] == s.b.out;
    TopWithNothing(s, want, got);
    var s1 := ReaderNext(s);
    var s2 := ReaderNext(s1);
    if MustLeave(s) {
      LeadsNowhere(e);
    } else {
      var s3 := ReaderNext(s2);
      if s.canRead {
        LeadsByStep(s3, ReaderStep, e);
      } else {
        LeadsNowhere(e);
        LeadsByStep(s3, ReaderTimeout, e);
      }
      LeadsByStep(s2, ReaderStep, e);
    }
    LeadsByStep(s1, ReaderStep, e);
    LeadsByStep(s, ReaderStep, e);
  }

  lemma ChunkThenRest(s: Sys, t: Sys, want: nat, got: nat, n: nat)
    requires Conserved(s) && s.rd == RTop(want, got) && want > 0 && 0 < n == ReadSize(|s.b.q|, want, s.f.done)
    requires n <= |s.b.q| && n <= want && t == ReaderNext(s) && Completes(t, want - n, got + n)
    ensures Completes(s, want, got)
  {
    ChunkSameEnd(s, t, want, got, n);
    LeadsByStep(s, ReaderStep, LoopEnd(s, want, got));
  }

  lemma ChunkSameEnd(s: Sys, t: Sys, want: nat, got: nat, n: nat)
    requires Conserved(s) && s.rd == RTop(want, got) && want > 0 && 0 < n == ReadSize(|s.b.q|, want, s.f.done)
    requires n <= |s.b.q| && n <= want && t == ReaderNext(s)
    ensures LoopEnd(t, want - n, got + n) == LoopEnd(s, want, got)
  {
    ReadReachStep(|s.b.q|, want, s.f.done);
    EndsAgree(s, t, want, got, n, ReadReach(|s.b.q| - n, want - n, s.f.done));
  }

  lemma EndsAgree(s: Sys, t: Sys, want: nat, got: nat, n: nat, m: nat)
    requires n + m <= want && n + m <= |s.b.q|
    requires t == s.(rd := t.rd, b := s.b.(q := s.b.q[n..], out := s.b.out + s.b.q[..n]))
    ensures EndWith(t, want - n, got + n, m) == EndWith(s, want, got, n + m)
  {
    SlicesJoin(s.b.q, s.b.out, n, m);
  }

  lemma SlicesJoin(q: seq<Byte>, out: seq<Byte>, n: nat, m: nat)
    requires n + m <= |q|
    ensures q[n..][m..] == q[n + m..]
    ensures out + q[..n] + q[n..][..m] == out + q[..n + m]
  {
    assert q[..n] + q[n..][..m] == q[..n + m];
    assert out + q[..n] + q[n..][..m] == out + (q[..n] + q[n..][..m]);
  }

  /** From a quiet buffer, a call of `rb_read` run alone reaches a state with precisely the contents, flags and
      tokens the sequential specification gives, has copied out the bytes it gives, and is back outside. */
  lemma ReadAlone(s: Sys, len: nat)
    requires Conserved(s) && s.rd.ROut?
    ensures exists t :: Leads(s, t) && t.rd.ROut? && t.wr == s.wr && t.g == s.g
                     && RingOf(t) == ReadAfter(RingOf(s), len)
                     && t.b.out == s.b.out + s.b.q[..ReadTotal(RingOf(s), len)]
    ensures exists e :: Leads(s, e) && e.rd.REnd? && Returned(e.rd.got, e.rd.code) == ReadReturn(RingOf(s), len)
  {
    var s1 := Next(s, CallRead(len));
    var e := LoopEnd(s1, len, 0);
    LoopAlone(s1, len, 0);
    var t := ReaderNext(ReaderNext(e));
    LeadsThen(s1, e, t);
    LeadsByStep(s, CallRead(len), t);
    LeadsByStep(s, CallRead(len), e);
  }

  lemma LeadsThen(s: Sys, e: Sys, t: Sys)
    requires Leads(s, e) && e.rd.REnd? && |e.b.q| <= e.b.size && t == ReaderNext(ReaderNext(e))
    ensures Leads(s, t)
  {
    var ls :| Runs(s, ls) && After(s, ls) == e;
    LeadsNowhere(t);
    LeadsByStep(ReaderNext(e), ReaderStep, t);
    LeadsByStep(e, ReaderStep, t);
    LeadsAppend(s, ls, t);
  }

  lemma {:induction false} LeadsAppend(s: Sys, ls: seq<Label>, t: Sys)
    requires Runs(s, ls) && Leads(After(s, ls), t)
    ensures Leads(s, t)
    decreases |ls|
  {
    if ls != [] {
      LeadsAppend(Next(s, ls[0]), ls[1..], t);
      LeadsByStep(s, ls[0], t);
    }
  }

  // ---- the writer ----

  predicate MustGiveUp(s: Sys) {
    s.f.done || s.f.abortWrite
  }

  function GiveUpCode(s: Sys): int {
    if s.f.done then RB_DONE else if s.f.abortWrite then RB_ABORT else RB_TIMEOUT
  }

  /** The state at the end of the writer's loop, from the state at its top. */
  function WriteEnd(s: Sys, rest: seq<Byte>, sent: nat): Sys
    requires |s.b.q| <= s.b.size
  {
    var n := WriteSize(|s.b.q|, s.b.size, |rest|);
    var waits := n < |rest| && !MustGiveUp(s);
    Sys(Store(s.b.q + rest[..n], s.b.size, s.b.inp + rest[..n], s.b.out), s.f,
        s.canRead || waits, s.canWrite && !waits,
        s.rd, WEnd(sent + n, if n == |rest| then 0 else GiveUpCode(s)), s.g)
  }

  ghost predicate WriteCompletes(s: Sys, rest: seq<Byte>, sent: nat)
    requires |s.b.q| <= s.b.size
  {
    Leads(s, WriteEnd(s, rest, sent))
  }

  lemma FullTop(s: Sys, rest: seq<Byte>, sent: nat)
    requires Conserved(s) && s.rd.ROut? && s.wr == WTop(rest, sent) && rest != [] && |s.b.q| == s.b.size
    ensures MustGiveUp(s) ==> WriterNext(s) == s.(wr := WEnd(sent, GiveUpCode(s)))
    ensures !MustGiveUp(s) ==>
      && WriterNext(s) == s.(wr := WGive(rest, sent))
      && WriterNext(s.(wr := WGive(rest, sent))) == s.(wr := WWait(rest, sent), canRead := true)
  {
  }

  lemma {:induction false} WriteLoopAlone(s: Sys, rest: seq<Byte>, sent: nat)
    requires Conserved(s) && s.rd.ROut? && s.wr == WTop(rest, sent)
    ensures WriteCompletes(s, rest, sent)
    decreases |rest|, s.canWrite
  {
    var n := WriteSize(|s.b.q|, s.b.size, |rest|);
    if rest == [] {
      NothingToWrite(s, sent);
    } else if n > 0 {
      var t := PutsChunk(s, rest, sent, n);
      WriteLoopAlone(t, rest[n..], sent + n);
      WriteChunkThenRest(s, t, rest, sent, n);
    } else {
      if !MustGiveUp(s) && s.canWrite {
        WriteLoopAlone(s.(canWrite := false, canRead := true), rest, sent);
      }
      FullThenRest(s, rest, sent);
    }
  }

  lemma NothingToWrite(s: Sys, sent: nat)
    requires Conserved(s) && s.wr == WTop([], sent)
    ensures WriteCompletes(s, [], sent)
  {
    var e := WriteEnd(s, [], sent);
    LeadsNowhere(e);
    assert s.b.q + [] == s.b.q && s.b.inp + [] == s.b.inp;
    LeadsByStep(s, WriterStep, e);
  }

  lemma PutsChunk(s: Sys, rest: seq<Byte>, sent: nat, n: nat) returns (t: Sys)
    requires Conserved(s) && s.rd.ROut? && s.wr == WTop(rest, sent) && rest != []
    requires 0 < n == WriteSize(|s.b.q|, s.b.size, |rest|)
    ensures n <= |rest| && t == WriterNext(s) && Conserved(t) && t.rd == s.rd && t.wr == WTop(rest[n..], sent + n)
    ensures t == s.(wr := t.wr, b := s.b.(q := s.b.q + rest[..n], inp := s.b.inp + rest[..n]))
  {
    ConservedKept(s, WriterStep);
    t := WriterNext(s);
  }

  lemma WriteChunkThenRest(s: Sys, t: Sys, rest: seq<Byte>, sent: nat, n: nat)
    requires Conserved(s) && s.rd.ROut? && s.wr == WTop(rest, sent) && rest != []
    requires 0 < n == WriteSize(|s.b.q|, s.b.size, |rest|) && n <= |rest| && t == WriterNext(s) && Conserved(t)
    requires t == s.(wr := t.wr, b := s.b.(q := s.b.q + rest[..n], inp := s.b.inp + rest[..n]))
    requires WriteCompletes(t, rest[n..], sent + n)
    ensures WriteCompletes(s, rest, sent)
  {
    WriteEndsAgree(s, t, rest, sent, n);
    LeadsByStep(s, WriterStep, WriteEnd(s, rest, sent));
  }

  /** One chunk takes all that fits, so a second one takes nothing. */
  lemma WriteEndsAgree(s: Sys, t: Sys, rest: seq<Byte>, sent: nat, n: nat)
    requires |s.b.q| <= s.b.size && 0 < n == WriteSize(|s.b.q|, s.b.size, |rest|) && n <= |rest|
    requires t == s.(wr := t.wr, b := s.b.(q := s.b.q + rest[..n], inp := s.b.inp + rest[..n]))
    ensures |t.b.q| <= t.b.size && WriteEnd(t, rest[n..], sent + n) == WriteEnd(s, rest, sent)
  {
    assert WriteSize(|t.b.q|, t.b.size, |rest| - n) == 0;
    assert s.b.q + rest[..n] + rest[n..][..0] == s.b.q + rest[..n];
    assert s.b.inp + rest[..n] + rest[n..][..0] == s.b.inp + rest[..n];
  }

  lemma FullThenRest(s: Sys, rest: seq<Byte>, sent: nat)
    requires Conserved(s) && s.rd.ROut? && s.wr == WTop(rest, sent) && rest != [] && |s.b.q| == s.b.size
    requires var t := s.(canWrite := false, canRead := true);
             !MustGiveUp(s) && s.canWrite ==> WriteCompletes(t, rest, sent)
    ensures WriteCompletes(s, rest, sent)
  {
    var e := WriteEnd(s, rest, sent);
    assert s.b.q + rest[..0] == s.b.q && s.b.inp + rest[..0] == s.b.inp;
    FullTop(s, rest, sent);
    var s1 := WriterNext(s);
    if MustGiveUp(s) {
      LeadsNowhere(e);
    } else {
      var s2 := WriterNext(s1);
      if s.canWrite {
        LeadsByStep(s2, WriterStep, e);
      } else {
        LeadsNowhere(e);
        LeadsByStep(s2, WriterTimeout, e);
      }
      LeadsByStep(s1, WriterStep, e);
    }
    LeadsByStep(s, WriterStep, e);
  }

  /** The same of `rb_write`: with nobody inside `rb_read`, it reaches the contents, flags and tokens the sequential
      specification gives, and is back outside. */
  lemma WriteAlone(s: Sys, xs: seq<Byte>)
    requires Conserved(s) && s.rd.ROut? && s.wr.WOut?
    ensures exists t :: Leads(s, t) && t.wr.WOut? && t.rd == s.rd && t.g == s.g
                     && RingOf(t) == WriteAfter(RingOf(s), xs)
                     && t.b.inp == s.b.inp + xs[..WriteTotal(RingOf(s), |xs|)]
    ensures exists e :: Leads(s, e) && e.wr.WEnd? && Returned(e.wr.sent, e.wr.code) == WriteReturn(RingOf(s), |xs|)
  {
    var s1 := Next(s, CallWrite(xs));
    var e := WriteEnd(s1, xs, 0);
    WriteLoopAlone(s1, xs, 0);
    var t := WriterNext(e);
    WriteReturns(s1, e, t);
    LeadsByStep(s, CallWrite(xs), t);
    LeadsByStep(s, CallWrite(xs), e);
  }

  lemma WriteReturns(s: Sys, e: Sys, t: Sys)
    requires Leads(s, e) && e.wr.WEnd? && |e.b.q| <= e.b.size && t == WriterNext(e)
    ensures Leads(s, t)
  {
    var ls :| Runs(s, ls) && After(s, ls) == e;
    LeadsNowhere(t);
    LeadsByStep(e, WriterStep, t);
    LeadsAppend(s, ls, t);
  }
}
