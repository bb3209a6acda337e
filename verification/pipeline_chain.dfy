/** What the linker keeps: each element's output is the first buffer it hosts, and buffers in use are hosted by
    elements in use. */
module PipelineChain {
  import opened AudioTypes
  import opened RingTypes
  import opened PipelineSpec

  predicate DistinctEls(els: seq<Elem>) {
    forall i, j :: 0 <= i < j < |els| ==> els[i].el != els[j].el
  }

  predicate DistinctRbs(rbs: seq<Item>) {
    forall i, j :: 0 <= i < j < |rbs| ==> rbs[i].rb != rbs[j].rb
  }

  /** Element `e` owns item `j`: it is its output, and no earlier item is hosted by it. */
  predicate Owns(e: Elem, rbs: seq<Item>, j: nat) {
    && j < |rbs|
    && Get(e.out) == Some(rbs[j].rb)
    && rbs[j].host == Some(e.el)
    && rbs[j].linked
    && rbs[j].kept == e.kept
    && FindHost(rbs, e.el) == j
  }

  predicate ElemOk(e: Elem, rbs: seq<Item>) {
    && (Get(e.out) != None ==> (e.linked || e.kept) && Owns(e, rbs, FindHost(rbs, e.el)))
    && (e.kept ==> !e.linked && Get(e.out) != None)
    && (e.linked ==> rbs != [])
  }

  /** A kept buffer is the output of its host, which is itself kept. */
  predicate HostOk(e: Elem, it: Item) {
    it.host == Some(e.el) && it.kept ==> e.kept && Get(e.out) == Some(it.rb)
  }

  predicate UseOk(e: Elem, it: Item) {
    it.host == Some(e.el) && it.linked ==> e.linked || e.kept
  }

  predicate AllElemOk(els: seq<Elem>, rbs: seq<Item>) {
    forall i {:trigger ElemOk(els[i], rbs)} :: 0 <= i < |els| ==> ElemOk(els[i], rbs)
  }

  predicate AllHostOk(els: seq<Elem>, rbs: seq<Item>) {
    forall i, j {:trigger HostOk(els[i], rbs[j])} :: 0 <= i < |els| && 0 <= j < |rbs| ==> HostOk(els[i], rbs[j])
  }

  predicate AllUseOk(els: seq<Elem>, rbs: seq<Item>) {
    forall i, j {:trigger UseOk(els[i], rbs[j])} :: 0 <= i < |els| && 0 <= j < |rbs| ==> UseOk(els[i], rbs[j])
  }

  /** What holds throughout, also in the middle of a breakup. */
  predicate Sound(els: seq<Elem>, rbs: seq<Item>) {
    DistinctEls(els) && DistinctRbs(rbs) && AllElemOk(els, rbs) && AllHostOk(els, rbs)
  }

  /** What holds between calls. */
  predicate Good(p: Pipe) {
    Sound(p.els, p.rbs) && AllUseOk(p.els, p.rbs) && (!p.linked ==> Idle(p))
  }

  /** While the pipeline is not linked no element is, and nothing is in use except what is kept. */
  predicate Idle(p: Pipe) {
    && (forall i :: 0 <= i < |p.els| ==> !p.els[i].linked)
    && (forall j :: 0 <= j < |p.rbs| && p.rbs[j].linked ==> p.rbs[j].kept)
  }

  /** Changing items outside `j` without giving them to `e` does not touch what `e` owns. */
  lemma OwnsStable(e: Elem, rbs: seq<Item>, rbs': seq<Item>, j: nat)
    requires Owns(e, rbs, j) && |rbs| <= |rbs'| && rbs'[j] == rbs[j]
    requires forall m :: 0 <= m < j ==> rbs'[m].host == rbs[m].host || rbs'[m].host != Some(e.el)
    ensures Owns(e, rbs', j)
  {
  }

  // ---- breakup ----

  lemma OutputIsFound(els: seq<Elem>, rbs: seq<Item>, i: nat)
    requires Sound(els, rbs) && i < |els| && Get(els[i].out) != None
    ensures Owns(els[i], rbs, FindHost(rbs, els[i].el))
    ensures FindRb(rbs, Get(els[i].out)) == FindHost(rbs, els[i].el)
  {
    assert ElemOk(els[i], rbs);
  }

  /** Replacing one element by one without an output, and item `j` (which nobody else owns) by an unkept one. */
  lemma LetGo(els: seq<Elem>, rbs: seq<Item>, i: nat, e: Elem, rbs': seq<Item>)
    requires Sound(els, rbs) && i < |els| && e.el == els[i].el && !els[i].kept
    requires Get(e.out) == None && !e.kept && !e.linked
    requires |rbs'| == |rbs|
    requires forall m :: 0 <= m < |rbs| ==> (
               || rbs'[m] == rbs[m]
               || (rbs[m].host == Some(e.el) && rbs'[m] == rbs[m].(host := None, linked := false, kept := false)))
    ensures Sound(els[i := e], rbs')
  {
    var els' := els[i := e];
    forall m | 0 <= m < |els'|
      ensures ElemOk(els'[m], rbs')
    {
      assert ElemOk(els[m], rbs);
      if m != i && Get(els[m].out) != None {
        OwnsStable(els[m], rbs, rbs', FindHost(rbs, els[m].el));
      }
    }
    forall m, j | 0 <= m < |els'| && 0 <= j < |rbs'|
      ensures HostOk(els'[m], rbs'[j])
    {
      assert HostOk(els[m], rbs[j]);
    }
  }

  lemma DropKeepsSound(p: Pipe, i: nat)
    requires Sound(p.els, p.rbs) && i < |p.els| && p.els[i].linked
    ensures var q := DropElem(p, i);
            && Sound(q.els, q.rbs)
            && q == p.(els := p.els[i := q.els[i]], rbs := q.rbs)
            && SameElem(p.els[i], q.els[i]) && SamePorts(p.els[i], q.els[i])
            && !q.els[i].linked && !q.els[i].kept && Get(q.els[i].inp) == None && q.els[i].state == Init
            && (forall j :: 0 <= j < |p.rbs| ==> SameItem(p.rbs[j], q.rbs[j]))
  {
    var q := DropElem(p, i);
    assert ElemOk(p.els[i], p.rbs);
    if Get(p.els[i].out) != None {
      OutputIsFound(p.els, p.rbs, i);
    }
    LetGo(p.els, p.rbs, i, q.els[i], q.rbs);
  }

  /** Flagging an element and its output as kept. */
  lemma Retain(els: seq<Elem>, rbs: seq<Item>, i: nat, e: Elem)
    requires Sound(els, rbs) && i < |els| && els[i].linked && Get(els[i].out) != None
    requires e.el == els[i].el && e.out == els[i].out && e.kept && !e.linked
    ensures var j := FindHost(rbs, e.el);
            j < |rbs| && Sound(els[i := e], rbs[j := rbs[j].(kept := true)])
  {
    OutputIsFound(els, rbs, i);
    var j := FindHost(rbs, e.el);
    var els', rbs' := els[i := e], rbs[j := rbs[j].(kept := true)];
    assert Owns(e, rbs', j);
    forall m | 0 <= m < |els'|
      ensures ElemOk(els'[m], rbs')
    {
      assert ElemOk(els[m], rbs);
      if m != i && Get(els[m].out) != None {
        OwnsStable(els[m], rbs, rbs', FindHost(rbs, els[m].el));
      }
    }
    forall m, k | 0 <= m < |els'| && 0 <= k < |rbs'|
      ensures HostOk(els'[m], rbs'[k])
    {
      assert HostOk(els[m], rbs[k]);
    }
  }

  /** At work, also when paused. */
  predicate Working(e: Elem) {
    e.state == Running || e.state == Paused
  }

  lemma KeepKeepsSound(p: Pipe, i: nat)
    requires Sound(p.els, p.rbs) && i < |p.els| && p.els[i].linked
    ensures var q := KeepElem(p, i);
            && Sound(q.els, q.rbs)
            && q == p.(els := p.els[i := q.els[i]], rbs := q.rbs)
            && SameElem(p.els[i], q.els[i]) && !q.els[i].linked && q.els[i].state == p.els[i].state
            && SamePorts(p.els[i], q.els[i])
            && (q.els[i].kept <==> Get(p.els[i].out) != None && Working(p.els[i]))
            && (q.els[i].kept ==> q.els[i].out == p.els[i].out)
            && Get(q.els[i].inp) == (if Get(p.els[i].out) != None then None else Get(p.els[i].inp))
            && (forall j :: 0 <= j < |p.rbs| ==> SameItem(p.rbs[j], q.rbs[j]))
    ensures FindRb(p.rbs, Get(p.els[i].out)) < |p.rbs| <==> Get(p.els[i].out) != None
  {
    var e, q := p.els[i], KeepElem(p, i);
    assert ElemOk(e, p.rbs);
    if Get(e.out) != None {
      OutputIsFound(p.els, p.rbs, i);
    }
    if Get(e.out) != None && Working(e) {
      Retain(p.els, p.rbs, i, q.els[i]);
    } else {
      LetGo(p.els, p.rbs, i, q.els[i], q.rbs);
    }
  }

  /** The same buffer with the same bytes; a kept one stays kept. */
  predicate SameItem(it: Item, jt: Item) {
    it.rb == jt.rb && it.buf == jt.buf && (it.kept ==> jt == it)
  }

  /** Which linked elements a breakup considers keeping: those up to the first with an output, and the one the caller
      names. The others it lets go. */
  predicate Considered(els: seq<Elem>, keptEl: Option<El>, keep: bool, i: nat, k: nat)
    requires i <= k < |els|
  {
    els[k].linked && (Some(els[k].el) == keptEl || (keep && NoOutputBetween(els, i, k)))
  }

  /** Which elements a breakup keeps: of those, the working ones with an output. */
  predicate Chosen(els: seq<Elem>, keptEl: Option<El>, keep: bool, i: nat, k: nat)
    requires i <= k < |els|
  {
    Considered(els, keptEl, keep, i, k) && Get(els[k].out) != None && Working(els[k])
  }

  predicate NoOutputBetween(els: seq<Elem>, i: nat, k: nat)
    requires i <= k <= |els|
  {
    forall m :: i <= m < k && els[m].linked ==> Get(els[m].out) == None
  }

  /** Which elements come out of a breakup still holding their input. */
  predicate Overlooked(els: seq<Elem>, keptEl: Option<El>, keep: bool, i: nat, k: nat)
    requires i <= k < |els|
  {
    Considered(els, keptEl, keep, i, k) && Get(els[k].out) == None && Get(els[k].inp) != None
  }

  /** A callback stays one, and nothing else becomes one. */
  predicate SamePorts(e: Elem, f: Elem) {
    (f.inp.Callback? <==> e.inp.Callback?) && (f.out.Callback? <==> e.out.Callback?)
  }

  /** What a breakup makes of element `k` when it has got as far as element `i`. */
  predicate BrokenElem(els: seq<Elem>, keptEl: Option<El>, keep: bool, i: nat, k: nat, f: Elem)
    requires i <= k < |els|
  {
    && SameElem(els[k], f) && !f.linked && SamePorts(els[k], f)
    && (if !els[k].linked then f == els[k] else
          && (f.kept <==> Chosen(els, keptEl, keep, i, k))
          && (f.kept ==> f.out == els[k].out)
          && f.state == (if Considered(els, keptEl, keep, i, k) then els[k].state else Init)
          && Get(f.inp) == (if Overlooked(els, keptEl, keep, i, k) then Get(els[k].inp) else None))
  }

  predicate Broken(p: Pipe, q: Pipe, keptEl: Option<El>, keep: bool, i: nat)
    requires i <= |p.els|
  {
    && q == p.(els := q.els, rbs := q.rbs) && |q.els| == |p.els| && |q.rbs| == |p.rbs|
    && (forall k :: 0 <= k < i ==> q.els[k] == p.els[k])
    && (forall k {:trigger q.els[k]} :: i <= k < |p.els| ==> BrokenElem(p.els, keptEl, keep, i, k, q.els[k]))
    && (forall j :: 0 <= j < |p.rbs| ==> SameItem(p.rbs[j], q.rbs[j]))
  }

  lemma BreakCompose(p: Pipe, p1: Pipe, q: Pipe, keptEl: Option<El>, keep: bool, keep1: bool, i: nat)
    requires i < |p.els| && |p1.els| == |p.els| && |p1.rbs| == |p.rbs|
    requires p1 == p.(els := p.els[i := p1.els[i]], rbs := p1.rbs)
    requires forall j :: 0 <= j < |p.rbs| ==> SameItem(p.rbs[j], p1.rbs[j])
    requires BrokenElem(p.els, keptEl, keep, i, i, p1.els[i])
    requires keep1 == (keep && (p.els[i].linked ==> Get(p.els[i].out) == None))
    requires Broken(p1, q, keptEl, keep1, i + 1)
    ensures Broken(p, q, keptEl, keep, i)
  {
    forall k | i < k < |p.els|
      ensures BrokenElem(p.els, keptEl, keep, i, k, q.els[k])
    {
      assert BrokenElem(p1.els, keptEl, keep1, i + 1, k, q.els[k]);
      NoOutputExtend(p.els, p1.els, i, k);
    }
  }

  lemma NoOutputExtend(els: seq<Elem>, els1: seq<Elem>, i: nat, k: nat)
    requires i < k < |els| && |els1| == |els| && forall m :: i < m < |els| ==> els1[m] == els[m]
    ensures NoOutputBetween(els, i, k) <==>
              NoOutputBetween(els1, i + 1, k) && (els[i].linked ==> Get(els[i].out) == None)
  {
    if NoOutputBetween(els, i, k) {
      forall m | i + 1 <= m < k && els1[m].linked
        ensures Get(els1[m].out) == None
      {
        assert els1[m] == els[m];
      }
    }
    if NoOutputBetween(els1, i + 1, k) {
      forall m | i < m < k && els[m].linked
        ensures Get(els[m].out) == None
      {
        assert els1[m] == els[m];
      }
    }
  }

  /** What a breakup does, element by element, to a sound pipeline. */
  lemma {:induction false} BreakIsSound(p: Pipe, keptEl: Option<El>, keep: bool, i: nat)
    requires Sound(p.els, p.rbs) && i <= |p.els|
    ensures var q := BreakFrom(p, keptEl, keep, i); Sound(q.els, q.rbs) && Broken(p, q, keptEl, keep, i)
    decreases |p.els| - i
  {
    if i < |p.els| {
      var p1, keep1 := BreakTurn(p, keptEl, keep, i);
      BreakIsSound(p1, keptEl, keep1, i + 1);
      BreakCompose(p, p1, BreakFrom(p1, keptEl, keep1, i + 1), keptEl, keep, keep1, i);
    }
  }

  /** One turn of the loop of breakup. */
  lemma BreakTurn(p: Pipe, keptEl: Option<El>, keep: bool, i: nat) returns (p1: Pipe, keep1: bool)
    requires Sound(p.els, p.rbs) && i < |p.els|
    ensures Sound(p1.els, p1.rbs) && |p1.els| == |p.els| && |p1.rbs| == |p.rbs|
    ensures BreakFrom(p, keptEl, keep, i) == BreakFrom(p1, keptEl, keep1, i + 1)
    ensures p1 == p.(els := p.els[i := p1.els[i]], rbs := p1.rbs)
    ensures forall j :: 0 <= j < |p.rbs| ==> SameItem(p.rbs[j], p1.rbs[j])
    ensures BrokenElem(p.els, keptEl, keep, i, i, p1.els[i])
    ensures keep1 == (keep && (p.els[i].linked ==> Get(p.els[i].out) == None))
  {
    if !p.els[i].linked {
      p1, keep1 := p, keep;
    } else if !keep && Some(p.els[i].el) != keptEl {
      DropKeepsSound(p, i);
      p1, keep1 := DropElem(p, i), keep;
    } else {
      KeepKeepsSound(p, i);
      p1, keep1 := KeepElem(p, i), keep && Get(p.els[i].out) == None;
    }
  }

  /** What a reset of a buffer does not touch: its size and its tokens. */
  predicate SameShell(v: Ring, w: Ring) {
    w.size == v.size && w.canRead == v.canRead && w.canWrite == v.canWrite
  }

  /** Breakup keeps exactly the working elements with an output that come first in registration order or are named
      by the caller, with their buffers and bytes; the rest is unused and empty; and no linked element is left. */
  lemma BreakupKeeps(p: Pipe, keptEl: Option<El>)
    requires Good(p)
    ensures var q := Breakup(p, keptEl);
            && Good(q) && q == p.(els := q.els, rbs := q.rbs, linked := false, state := Init)
            && |q.els| == |p.els| && |q.rbs| == |p.rbs|
            && (forall k {:trigger q.els[k]} :: 0 <= k < |p.els| ==> BrokenElem(p.els, keptEl, true, 0, k, q.els[k]))
            && (forall j {:trigger q.rbs[j]} :: 0 <= j < |p.rbs| ==>
                  && q.rbs[j].rb == p.rbs[j].rb
                  && (q.rbs[j].kept ==> q.rbs[j].buf == p.rbs[j].buf)
                  && (!q.rbs[j].kept ==> EmptyAndClear(q.rbs[j].buf) && !q.rbs[j].linked)
                  && SameShell(p.rbs[j].buf, q.rbs[j].buf))
  {
    BreakIsSound(p, keptEl, true, 0);
    var b := BreakFrom(p, keptEl, true, 0);
    ReleaseIsGood(b.els, b.rbs);
  }

  lemma ReleaseIsGood(els: seq<Elem>, rbs: seq<Item>)
    requires Sound(els, rbs) && forall k :: 0 <= k < |els| ==> !els[k].linked
    ensures Sound(els, ReleaseAll(rbs)) && AllUseOk(els, ReleaseAll(rbs))
  {
    var rbs' := ReleaseAll(rbs);
    forall m | 0 <= m < |els|
      ensures ElemOk(els[m], rbs')
    {
      assert ElemOk(els[m], rbs);
      if Get(els[m].out) != None {
        OwnsStable(els[m], rbs, rbs', FindHost(rbs, els[m].el));
      }
    }
    forall m, j | 0 <= m < |els| && 0 <= j < |rbs'|
      ensures HostOk(els[m], rbs'[j]) && UseOk(els[m], rbs'[j])
    {
      assert HostOk(els[m], rbs[j]);
    }
  }

  /** The first buffer may have lost its host; no other has. */
  predicate HostsStay(rbs: seq<Item>, rbs': seq<Item>) {
    && |rbs'| == |rbs|
    && forall j :: 0 <= j < |rbs| ==> rbs'[j].host == rbs[j].host || (j == 0 && rbs'[j].host == None)
  }

  lemma {:induction false} BreakHosts(p: Pipe, keptEl: Option<El>, keep: bool, i: nat)
    requires i <= |p.els|
    ensures HostsStay(p.rbs, BreakFrom(p, keptEl, keep, i).rbs)
    decreases |p.els| - i
  {
    if i < |p.els| {
      if !p.els[i].linked {
        BreakHosts(p, keptEl, keep, i + 1);
      } else if !keep && Some(p.els[i].el) != keptEl {
        BreakHosts(DropElem(p, i), keptEl, keep, i + 1);
      } else {
        var keep1 := keep && FindRb(p.rbs, Get(p.els[i].out)) == |p.rbs|;
        BreakHosts(KeepElem(p, i), keptEl, keep1, i + 1);
      }
    }
  }

  /** After a breakup every buffer but the first is still hosted as before, used or not, so that a relink passes it over
      once before it can be had. */
  lemma BreakupLeavesHosts(p: Pipe, keptEl: Option<El>)
    ensures HostsStay(p.rbs, Breakup(p, keptEl).rbs)
  {
    BreakHosts(p, keptEl, true, 0);
  }

  lemma {:induction false} NothingToBreak(p: Pipe, keptEl: Option<El>, i: nat)
    requires p.rbs == [] && i <= |p.els|
    ensures BreakFrom(p, keptEl, true, i) == p
    decreases |p.els| - i
  {
    if i < |p.els| {
      NothingToBreak(p, keptEl, i + 1);
    }
  }

  /** An element that is let go with an output that is not the first buffer of the list loses both ports all the same,
      and the flag exactly if there is a second turn to find them gone. */
  lemma DropLooksAtFirst(p: Pipe, i: nat)
    requires i < |p.els| && p.rbs != [] && Get(p.els[i].out) != None && Get(p.els[i].out) != Some(p.rbs[0].rb)
    ensures var q := DropElem(p, i);
            && q == p.(els := q.els) && q.els[i].state == Init
            && Get(q.els[i].inp) == Get(q.els[i].out) == None
            && q.els[i].linked == (p.els[i].linked && |p.rbs| == 1)
  {
  }

  /** Without buffers, as after linking a single tag, a breakup changes no element: what was linked stays flagged so. */
  lemma BreakupWithoutBuffers(p: Pipe, keptEl: Option<El>)
    requires p.rbs == []
    ensures Breakup(p, keptEl) == p.(linked := false, state := Init)
  {
    NothingToBreak(p, keptEl, 0);
    assert ReleaseAll([]) == [];
  }

  // ---- what the documentation of breakup says ----

  /** Element `k` is working, linked and has an output to keep. */
  predicate Keepable(e: Elem) {
    e.linked && Get(e.out) != None && Working(e)
  }

  /** No linked element before `k` has an output. */
  predicate First(els: seq<Elem>, k: nat)
    requires k < |els|
  {
    els[k].linked && Get(els[k].out) != None && NoOutputBetween(els, 0, k)
  }

  /** Documented: without a `kept_ctx_el` no element is kept. The code does so exactly if the first linked element with
      an output is not at work. */
  lemma NullKeepsNoneIff(p: Pipe)
    requires Good(p)
    ensures var q := Breakup(p, None);
            && |q.els| == |p.els|
            && ((forall k :: 0 <= k < |p.els| && p.els[k].linked ==> !q.els[k].kept)
                <==> (forall k :: 0 <= k < |p.els| && First(p.els, k) ==> !Working(p.els[k])))
  {
    BreakupKeeps(p, None);
    var q := Breakup(p, None);
    forall k | 0 <= k < |p.els| && p.els[k].linked
      ensures q.els[k].kept <==> First(p.els, k) && Working(p.els[k])
    {
      assert BrokenElem(p.els, None, true, 0, k, q.els[k]);
    }
  }

  /** Documented: the working elements up to and including `kept_ctx_el` are kept. For the linked element `m` the code
      does so exactly if no working element with an output stands before it except the first with an output, and that
      one does not stand behind it at work. */
  lemma KeptRuleIff(p: Pipe, m: nat)
    requires Good(p) && m < |p.els| && p.els[m].linked
    ensures var q := Breakup(p, Some(p.els[m].el));
            && |q.els| == |p.els|
            && ((forall k :: 0 <= k < |p.els| && p.els[k].linked ==> (q.els[k].kept <==> Keepable(p.els[k]) && k <= m))
                <==> (forall k :: 0 <= k < |p.els| && k != m && Keepable(p.els[k]) ==> (First(p.els, k) <==> k < m)))
  {
    BreakupKeeps(p, Some(p.els[m].el));
    var q := Breakup(p, Some(p.els[m].el));
    forall k | 0 <= k < |p.els| && p.els[k].linked
      ensures q.els[k].kept <==> Keepable(p.els[k]) && (k == m || First(p.els, k))
    {
      assert BrokenElem(p.els, Some(p.els[m].el), true, 0, k, q.els[k]);
    }
  }
}
