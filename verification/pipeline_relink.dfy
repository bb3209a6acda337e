/** Relinking a broken-up pipeline. */
module PipelineRelink {
  import opened AudioTypes
  import opened RingTypes
  import opened PipelineSpec
  import opened PipelineChain

  predicate IdsBelow(rbs: seq<Item>, next: nat) {
    forall j :: 0 <= j < |rbs| ==> rbs[j].rb < next
  }

  /** How the search for a buffer may change an item, for the sake of element `el`. */
  predicate Touched(it: Item, jt: Item, el: El) {
    && jt.rb == it.rb
    && (it.linked || it.kept ==> jt == it)
    && (!it.linked && !it.kept ==>
          && !jt.kept && (jt.host == None || jt.host == it.host || jt.host == Some(el))
          && (jt.linked ==> jt.host == Some(el)))
  }

  /** Bringing an unused element into use keeps everything sound. */
  lemma Rehost(els: seq<Elem>, rbs: seq<Item>, i: nat, e: Elem, rbs': seq<Item>)
    requires Sound(els, rbs) && AllUseOk(els, rbs)
    requires i < |els| && !els[i].linked && !els[i].kept && e.el == els[i].el && e.linked && !e.kept
    requires 0 < |rbs'| && |rbs| <= |rbs'| && DistinctRbs(rbs')
    requires forall m :: 0 <= m < |rbs| ==> Touched(rbs[m], rbs'[m], e.el)
    requires forall m :: |rbs| <= m < |rbs'| ==> rbs'[m].host == Some(e.el) && !rbs'[m].kept
    requires Get(e.out) != None ==> Owns(e, rbs', FindHost(rbs', e.el))
    ensures Sound(els[i := e], rbs') && AllUseOk(els[i := e], rbs')
  {
    var els' := els[i := e];
    forall m | 0 <= m < |els'|
      ensures ElemOk(els'[m], rbs')
    {
      assert ElemOk(els[m], rbs);
      if m != i && Get(els[m].out) != None {
        OwnsStable(els[m], rbs, rbs', FindHost(rbs, els[m].el));
      }
    }
    forall m, j | 0 <= m < |els'| && 0 <= j < |rbs'|
      ensures HostOk(els'[m], rbs'[j]) && UseOk(els'[m], rbs'[j])
    {
      if j < |rbs| {
        assert HostOk(els[m], rbs[j]) && UseOk(els[m], rbs[j]);
      }
    }
  }

  /** Bringing a kept element back into use, with the buffer it hosts. */
  lemma Resume(els: seq<Elem>, rbs: seq<Item>, i: nat, e: Elem)
    requires Sound(els, rbs) && AllUseOk(els, rbs)
    requires i < |els| && els[i].kept && e.el == els[i].el && Get(e.out) == Get(els[i].out) && e.linked && !e.kept
    ensures var j := FindHost(rbs, e.el);
            && j < |rbs| && Get(e.out) == Some(rbs[j].rb)
            && var rbs' := rbs[j := rbs[j].(linked := true, kept := false)];
               Sound(els[i := e], rbs') && AllUseOk(els[i := e], rbs')
  {
    assert ElemOk(els[i], rbs);
    var j := FindHost(rbs, e.el);
    var els', rbs' := els[i := e], rbs[j := rbs[j].(linked := true, kept := false)];
    assert Owns(e, rbs', j);
    forall m | 0 <= m < |els'|
      ensures ElemOk(els'[m], rbs')
    {
      assert ElemOk(els[m], rbs);
      if m != i && Get(els[m].out) != None {
        OwnsStable(els[m], rbs, rbs', FindHost(rbs, els[m].el));
      }
    }
    forall m, k | 0 <= m < |els'| && 0 <= k < |rbs'|
      ensures HostOk(els'[m], rbs'[k]) && UseOk(els'[m], rbs'[k])
    {
      assert HostOk(els[m], rbs[k]) && UseOk(els[m], rbs[k]);
    }
  }

  /** The buffer the search finds, and a new one at the end otherwise, is the first its element hosts. */
  lemma ClaimIsFirst(els: seq<Elem>, rbs: seq<Item>, i: nat)
    requires AllHostOk(els, rbs) && AllUseOk(els, rbs) && i < |els| && !els[i].linked && !els[i].kept
    ensures var (rbs', j) := Claim(rbs, els[i].el);
            && (forall m :: 0 <= m < j ==> rbs'[m].host != Some(els[i].el))
            && (forall m :: 0 <= m < |rbs| ==> Touched(rbs[m], rbs'[m], els[i].el))
  {
    var (rbs', j) := Claim(rbs, els[i].el);
    forall m | 0 <= m < j
      ensures rbs'[m].host != Some(els[i].el)
    {
      assert HostOk(els[i], rbs[m]) && UseOk(els[i], rbs[m]);
    }
  }

  lemma FirstIs(rbs: seq<Item>, el: El, j: nat)
    requires j < |rbs| && rbs[j].host == Some(el)
    requires forall m :: 0 <= m < j ==> rbs[m].host != Some(el)
    ensures FindHost(rbs, el) == j
  {
  }

  /** The buffer behind an element's output. */
  function OutBuf(e: Elem, rbs: seq<Item>): Option<Ring> {
    var j := FindRb(rbs, Get(e.out));
    if j < |rbs| then Some(rbs[j].buf) else None
  }

  lemma OutBufIs(e: Elem, rbs: seq<Item>, j: nat)
    requires DistinctRbs(rbs) && j < |rbs| && Get(e.out) == Some(rbs[j].rb)
    ensures FindRb(rbs, Get(e.out)) == j
    ensures OutBuf(e, rbs) == Some(rbs[j].buf)
  {
  }

  /** The promise about one relinked element, `e` before and `f` after: a kept one has its buffer back with all its
      bytes, any other has an empty buffer with all flags clear. */
  predicate Relinked(e: Elem, rbs: seq<Item>, f: Elem, rbs': seq<Item>) {
    && OutBuf(f, rbs') != None
    && (if e.kept then Get(f.out) == Get(e.out) && OutBuf(f, rbs') == OutBuf(e, rbs)
        else EmptyAndClear(OutBuf(f, rbs').value))
  }

  predicate InUse(p: Pipe) {
    Sound(p.els, p.rbs) && AllUseOk(p.els, p.rbs) && IdsBelow(p.rbs, p.book.next)
  }

  /** What relinking one element does to the rest of the pipeline and to its own ports. */
  predicate RelinkStep(p: Pipe, q: Pipe, i: nat, first: bool, last: bool)
    requires i < |p.els|
  {
    && |q.els| == |p.els| && q == p.(els := p.els[i := q.els[i]], rbs := q.rbs, book := q.book, memo := q.memo)
    && SameElem(p.els[i], q.els[i]) && q.els[i].linked && !q.els[i].kept && q.els[i].state == p.els[i].state
    && |q.rbs| >= |p.rbs| && q.rbs != []
    && (forall j :: 0 <= j < |p.rbs| ==> Frame(p.rbs[j], q.rbs[j], p.els[i].el))
    && (first ==> q.els[i].inp == p.els[i].inp)
    && (!first && p.memo != None ==> Get(q.els[i].inp) == p.memo)
    && (!last ==> Get(q.els[i].out) == q.memo && Relinked(p.els[i], p.rbs, q.els[i], q.rbs))
    && (last ==> q.memo == p.memo && q.els[i].out == p.els[i].out)
  }

  lemma RelinkKept(p: Pipe, i: nat, first: bool, last: bool)
    requires InUse(p) && i < |p.els| && p.els[i].kept
    requires !(last && first)
    ensures var q := RelinkOne(p, i, first, last); InUse(q) && RelinkStep(p, q, i, first, last)
  {
    var e, q := p.els[i], RelinkOne(p, i, first, last);
    assert ElemOk(e, p.rbs);
    assert q.els == p.els[i := q.els[i]];
    Resume(p.els, p.rbs, i, q.els[i]);
    assert ElemOk(q.els[i], q.rbs);
    var j := FindHost(p.rbs, e.el);
    OutBufIs(e, p.rbs, j);
    OutBufIs(q.els[i], q.rbs, j);
  }

  lemma RelinkLastUnused(p: Pipe, i: nat)
    requires InUse(p) && i < |p.els| && !p.els[i].linked && !p.els[i].kept && p.rbs != []
    ensures var q := RelinkOne(p, i, false, true); InUse(q) && RelinkStep(p, q, i, false, true)
  {
    var e, q := p.els[i], RelinkOne(p, i, false, true);
    assert ElemOk(e, p.rbs);
    assert q.els == p.els[i := q.els[i]];
    ClaimIsFirst(p.els, p.rbs, i);
    Rehost(p.els, p.rbs, i, q.els[i], q.rbs);
  }

  /** An unused element in a non-last position ends up with item `j` of the list: the one found, or a new one. */
  predicate UnusedShape(p: Pipe, q: Pipe, i: nat, j: nat)
    requires i < |p.els|
  {
    var e := p.els[i];
    && |q.els| == |p.els| && q.els == p.els[i := q.els[i]]
    && q.els[i].el == e.el && q.els[i].linked && !q.els[i].kept && Get(q.els[i].out) == q.memo
    && |p.rbs| <= |q.rbs| <= |p.rbs| + 1 && j < |q.rbs| && (|p.rbs| < |q.rbs| ==> j == |p.rbs|)
    && q.rbs[j].host == Some(e.el) && q.rbs[j].linked && !q.rbs[j].kept
    && EmptyAndClear(q.rbs[j].buf) && q.memo == Some(q.rbs[j].rb)
    && (j == |p.rbs| ==> q.rbs[j].rb == p.book.next && q.book.next == p.book.next + 1)
    && (j < |p.rbs| ==> q.book == p.book)
    && (forall m :: 0 <= m < |p.rbs| ==> Touched(p.rbs[m], q.rbs[m], e.el))
    && (forall m :: 0 <= m < j ==> q.rbs[m].host != Some(e.el))
  }

  lemma RelinkUnusedShape(p: Pipe, i: nat, first: bool)
    requires AllHostOk(p.els, p.rbs) && AllUseOk(p.els, p.rbs)
    requires i < |p.els| && !p.els[i].linked && !p.els[i].kept && p.els[i].rbSize >= 2
    ensures UnusedShape(p, RelinkOne(p, i, first, false), i, Claim(p.rbs, p.els[i].el).1)
  {
    var q := RelinkOne(p, i, first, false);
    var (rbs', j) := Claim(p.rbs, p.els[i].el);
    ClaimIsFirst(p.els, p.rbs, i);
    assert q.els == p.els[i := q.els[i]];
    assert forall m :: 0 <= m < |p.rbs| ==> q.rbs[m] == rbs'[m];
  }

  lemma RelinkUnused(p: Pipe, i: nat, first: bool)
    requires InUse(p) && i < |p.els| && !p.els[i].linked && !p.els[i].kept && p.els[i].rbSize >= 2
    ensures var q := RelinkOne(p, i, first, false); InUse(q) && RelinkStep(p, q, i, first, false)
  {
    var q, j := RelinkOne(p, i, first, false), Claim(p.rbs, p.els[i].el).1;
    RelinkUnusedShape(p, i, first);
    FirstIs(q.rbs, p.els[i].el, j);
    RehostShape(p, q, i, j);
    UnusedStep(p, q, i, first, j);
  }

  lemma RehostShape(p: Pipe, q: Pipe, i: nat, j: nat)
    requires InUse(p) && i < |p.els| && !p.els[i].linked && !p.els[i].kept
    requires UnusedShape(p, q, i, j) && FindHost(q.rbs, p.els[i].el) == j
    ensures InUse(q)
  {
    assert Owns(q.els[i], q.rbs, j);
    Rehost(p.els, p.rbs, i, q.els[i], q.rbs);
  }

  lemma UnusedStep(p: Pipe, q: Pipe, i: nat, first: bool, j: nat)
    requires i < |p.els| && q == RelinkOne(p, i, first, false) && j < |q.rbs|
    requires |q.els| == |p.els| && q.els == p.els[i := q.els[i]] && |p.rbs| <= |q.rbs| && !p.els[i].kept
    requires p.els[i].rbSize >= 2
    requires FindHost(q.rbs, p.els[i].el) == j && q.memo == Some(q.rbs[j].rb)
    requires q.rbs[j].linked && !q.rbs[j].kept && EmptyAndClear(q.rbs[j].buf)
    requires forall m :: 0 <= m < |p.rbs| ==> Touched(p.rbs[m], q.rbs[m], p.els[i].el)
    requires DistinctRbs(q.rbs)
    ensures RelinkStep(p, q, i, first, false)
  {
    OutBufIs(q.els[i], q.rbs, j);
  }

  lemma RelinkOneIsGood(p: Pipe, i: nat, first: bool, last: bool)
    requires InUse(p) && i < |p.els| && !p.els[i].linked
    requires last ==> !first && p.rbs != []
    requires !last ==> p.els[i].rbSize >= 2
    ensures var q := RelinkOne(p, i, first, last); InUse(q) && RelinkStep(p, q, i, first, last)
  {
    if p.els[i].kept {
      RelinkKept(p, i, first, last);
    } else if last {
      RelinkLastUnused(p, i);
    } else {
      RelinkUnused(p, i, first);
    }
  }

  /** An item in use by someone else is left alone. */
  predicate Frame(it: Item, jt: Item, el: El) {
    it.rb == jt.rb && ((it.linked || it.kept) && it.host != Some(el) ==> jt == it)
  }

  // ---- the whole chain ----

  /** At least two distinct registered elements, those with a successor having an output size a buffer can have. */
  predicate Chainable(els: seq<Elem>, ix: seq<nat>) {
    && 2 <= |ix|
    && (forall k :: 0 <= k < |ix| ==> ix[k] < |els|)
    && (forall k, l :: 0 <= k < l < |ix| ==> ix[k] != ix[l])
    && (forall k :: 0 <= k < |ix| - 1 ==> els[ix[k]].rbSize >= 2)
  }

  /** Consecutive elements share a buffer. */
  predicate Joined(p: Pipe, i: nat, j: nat)
    requires i < |p.els| && j < |p.els|
  {
    Get(p.els[i].out) != None && Get(p.els[j].inp) == Get(p.els[i].out)
  }

  /** The state in which the helper is called for position `k`. */
  predicate Ready(p: Pipe, ix: seq<nat>, k: nat) {
    && InUse(p) && Chainable(p.els, ix) && k <= |ix|
    && (forall m :: k <= m < |ix| ==> !p.els[ix[m]].linked)
    && (k > 0 ==> p.rbs != [] && p.memo != None)
  }

  /** Relinking another element leaves an element, its output and its bytes alone. */
  lemma OtherUntouched(p: Pipe, q: Pipe, i0: nat, first: bool, last: bool, i: nat)
    requires InUse(p) && InUse(q) && i0 < |p.els| && RelinkStep(p, q, i0, first, last)
    requires i < |p.els| && i != i0
    ensures q.els[i] == p.els[i]
    ensures Get(p.els[i].out) != None ==>
              OutBuf(p.els[i], p.rbs) != None && OutBuf(q.els[i], q.rbs) == OutBuf(p.els[i], p.rbs)
  {
    var e := p.els[i];
    if Get(e.out) != None {
      assert ElemOk(e, p.rbs);
      var j := FindHost(p.rbs, e.el);
      OutBufIs(e, p.rbs, j);
      OutBufIs(e, q.rbs, j);
    }
  }

  predicate TrailStep(p: Pipe, q: Pipe, ix: seq<nat>, k: nat)
    requires k < |ix|
  {
    && ix[k] < |p.els| && InUse(p) && InUse(q)
    && RelinkStep(p, q, ix[k], k == 0, k == |ix| - 1)
  }

  /** The states between the positions, from position `a` on. */
  ghost predicate Trail(ps: seq<Pipe>, ix: seq<nat>, a: nat) {
    && |ps| == |ix| + 1 && a <= |ix|
    && (forall k: nat {:trigger StepAt(ps, ix, k)} :: a <= k < |ix| ==> StepAt(ps, ix, k))
  }

  predicate StepAt(ps: seq<Pipe>, ix: seq<nat>, k: nat)
    requires k < |ix| == |ps| - 1
  {
    TrailStep(ps[k], ps[k + 1], ix, k)
  }

  /** Element `i`, its output and the bytes behind it are the same in both. */
  predicate Keeps(p: Pipe, q: Pipe, i: nat) {
    && i < |p.els| && |q.els| == |p.els| && q.els[i] == p.els[i]
    && (Get(p.els[i].out) != None ==> OutBuf(q.els[i], q.rbs) == OutBuf(p.els[i], p.rbs))
  }

  lemma {:induction false} KeepsThrough(ps: seq<Pipe>, a: nat, b: nat, i: nat)
    requires a <= b < |ps| && i < |ps[a].els|
    requires forall k {:trigger ps[k]} :: a <= k < b && i < |ps[k].els| ==> Keeps(ps[k], ps[k + 1], i)
    ensures Keeps(ps[a], ps[b], i)
  {
    if a < b {
      KeepsThrough(ps, a, b - 1, i);
      assert Keeps(ps[b - 1], ps[b], i);
    }
  }

  lemma StepKeeps(p: Pipe, q: Pipe, ix: seq<nat>, k: nat, i: nat)
    requires k < |ix| && TrailStep(p, q, ix, k) && i < |p.els| && ix[k] != i
    ensures Keeps(p, q, i)
  {
    OtherUntouched(p, q, ix[k], k == 0, k == |ix| - 1, i);
  }

  /** From a trail that begins at `c`. */
  lemma BetweenUntouched(ps: seq<Pipe>, ix: seq<nat>, c: nat, a: nat, b: nat, i: nat)
    requires Trail(ps, ix, c) && c <= a && a <= b <= |ix| && i < |ps[a].els|
    requires forall m :: a <= m < b ==> ix[m] != i
    ensures Keeps(ps[a], ps[b], i)
  {
    forall k | a <= k < b && i < |ps[k].els|
      ensures Keeps(ps[k], ps[k + 1], i)
    {
      assert StepAt(ps, ix, k);
      StepKeeps(ps[k], ps[k + 1], ix, k, i);
    }
    KeepsThrough(ps, a, b, i);
  }

  /** What position `m` had before its turn it had at the start, and what it gets it still has at the end. */
  lemma PositionRelinked(ps: seq<Pipe>, ix: seq<nat>, m: nat)
    requires Trail(ps, ix, 0) && Chainable(ps[0].els, ix) && m < |ix| - 1
    ensures var (p, q, i) := (ps[0], ps[|ix|], ix[m]);
            && |q.els| == |p.els|
            && Relinked(p.els[i], p.rbs, q.els[i], q.rbs)
            && Get(q.els[i].out) == ps[m + 1].memo != None
  {
    var i := ix[m];
    assert StepAt(ps, ix, m);
    BetweenUntouched(ps, ix, 0, 0, m, i);
    BetweenUntouched(ps, ix, 0, m + 1, |ix|, i);
    RelinkedThrough(ps[0], ps[m], ps[m + 1], ps[|ix|], i, m == 0);
  }

  lemma RelinkedThrough(p: Pipe, p1: Pipe, q1: Pipe, q: Pipe, i: nat, first: bool)
    requires InUse(p1) && Keeps(p, p1, i) && i < |p1.els| && RelinkStep(p1, q1, i, first, false) && Keeps(q1, q, i)
    ensures Relinked(p.els[i], p.rbs, q.els[i], q.rbs) && Get(q.els[i].out) == q1.memo != None
  {
    assert ElemOk(p1.els[i], p1.rbs);
  }

  lemma PositionInput(ps: seq<Pipe>, ix: seq<nat>, m: nat)
    requires Trail(ps, ix, 0) && Chainable(ps[0].els, ix) && 0 < m < |ix| && ps[m].memo != None
    ensures |ps[|ix|].els| == |ps[0].els| && Get(ps[|ix|].els[ix[m]].inp) == ps[m].memo
  {
    assert StepAt(ps, ix, m);
    BetweenUntouched(ps, ix, 0, 0, m, ix[m]);
    BetweenUntouched(ps, ix, 0, m + 1, |ix|, ix[m]);
  }

  lemma OutputsDiffer(p: Pipe, i: nat, j: nat)
    requires Sound(p.els, p.rbs) && i < |p.els| && j < |p.els| && i != j
    requires Get(p.els[i].out) != None && Get(p.els[j].out) != None
    ensures Get(p.els[i].out) != Get(p.els[j].out)
  {
    assert ElemOk(p.els[i], p.rbs) && ElemOk(p.els[j], p.rbs);
  }

  // ---- from tags to elements ----

  lemma {:induction false} FindTagStable(els: seq<Elem>, els': seq<Elem>, tag: string, k: nat)
    requires SameElems(els, els') && k <= |els|
    ensures FindTag(els', tag, k) == FindTag(els, tag, k)
    decreases |els| - k
  {
    if k < |els| {
      FindTagStable(els, els', tag, k + 1);
    }
  }

  /** The same letter, once large and once small. */
  predicate OtherCase(c: char, d: char) {
    ('A' <= c <= 'Z' && d as int - c as int == 32) || ('A' <= d <= 'Z' && c as int - d as int == 32)
  }

  /** Tags are the same exactly if they differ in the case of letters at most. */
  lemma SameTagIff(a: string, b: string)
    ensures SameTag(a, b) <==> |a| == |b| && forall i :: 0 <= i < |a| ==> a[i] == b[i] || OtherCase(a[i], b[i])
  {
  }

  /** The elements that tags stand for. */
  function Resolve(els: seq<Elem>, tags: seq<string>): (ix: seq<nat>)
    ensures |ix| == |tags|
    ensures forall k :: 0 <= k < |tags| ==> ix[k] == FindTag(els, tags[k])
  {
    seq(|tags|, k requires 0 <= k < |tags| => FindTag(els, tags[k]))
  }

  lemma ResolveStable(els: seq<Elem>, els': seq<Elem>, tags: seq<string>)
    requires SameElems(els, els')
    ensures Resolve(els', tags) == Resolve(els, tags)
  {
    forall k | 0 <= k < |tags|
      ensures FindTag(els', tags[k]) == FindTag(els, tags[k])
    {
      FindTagStable(els, els', tags[k], 0);
    }
  }

  /** No element is flagged kept and no buffer is lying idle, as after an unlink. */
  predicate Clean(p: Pipe) {
    && (forall i :: 0 <= i < |p.els| ==> !p.els[i].kept)
    && (forall j :: 0 <= j < |p.rbs| ==> p.rbs[j].linked)
  }

  /** What a chain needs of its helper, if need be only when it starts `clean`. */
  predicate HelperStep(h: Helper, clean: bool, p: Pipe, ix: seq<nat>, k: nat)
    requires k < |ix|
  {
    Ready(p, ix, k) && (clean ==> Clean(p)) ==>
      var (q, err) := h(p, ix[k], k == 0, k == |ix| - 1);
      && err == Ok && SameElems(p.els, q.els)
      && Ready(q, ix, k + 1) && TrailStep(p, q, ix, k) && (clean ==> Clean(q))
  }

  ghost predicate HelperOk(h: Helper, clean: bool) {
    forall p, ix, k {:trigger HelperStep(h, clean, p, ix, k)} :: 0 <= k < |ix| ==> HelperStep(h, clean, p, ix, k)
  }

  lemma RelinkHelperOk()
    ensures HelperOk(RELINK_HELPER, false)
  {
    forall p, ix, k | 0 <= k < |ix| && Ready(p, ix, k)
      ensures HelperStep(RELINK_HELPER, false, p, ix, k)
    {
      RelinkOneIsGood(p, ix[k], k == 0, k == |ix| - 1);
      StepMakesReady(p, RelinkOne(p, ix[k], k == 0, k == |ix| - 1), ix, k);
    }
  }

  lemma StepMakesReady(p: Pipe, q: Pipe, ix: seq<nat>, k: nat)
    requires k < |ix| && Ready(p, ix, k) && InUse(q) && RelinkStep(p, q, ix[k], k == 0, k == |ix| - 1)
    ensures SameElems(p.els, q.els) && Ready(q, ix, k + 1) && TrailStep(p, q, ix, k)
  {
  }

  lemma {:induction false} MakeTrail(h: Helper, clean: bool, p: Pipe, tags: seq<string>, ix: seq<nat>, k: nat)
    returns (ps: seq<Pipe>)
    requires HelperOk(h, clean) && ix == Resolve(p.els, tags) && Ready(p, ix, k) && (clean ==> Clean(p))
    ensures Trail(ps, ix, k) && ps[k] == p && InUse(ps[|ix|])
    ensures ChainFrom(h, p, tags, k) == (ps[|ix|].(linked := true), Ok)
    decreases |ix| - k
  {
    if k == |ix| {
      ps := seq(|ix| + 1, _ => p);
    } else {
      assert HelperStep(h, clean, p, ix, k);
      var q := h(p, ix[k], k == 0, k == |ix| - 1).0;
      ResolveStable(p.els, q.els, tags);
      var rest := MakeTrail(h, clean, q, tags, ix, k + 1);
      ps := rest[k := p];
      TrailCons(p, rest, ix, k);
    }
  }

  lemma TrailCons(p: Pipe, rest: seq<Pipe>, ix: seq<nat>, k: nat)
    requires k < |ix| && Trail(rest, ix, k + 1) && TrailStep(p, rest[k + 1], ix, k)
    ensures Trail(rest[k := p], ix, k)
  {
    var ps := rest[k := p];
    forall m: nat | k <= m < |ix|
      ensures StepAt(ps, ix, m)
    {
      if m > k {
        assert StepAt(rest, ix, m);
      }
    }
  }

  /** The chain that a relink makes of `p`, element by element. */
  ghost predicate ChainRestored(p: Pipe, q: Pipe, ix: seq<nat>)
    requires |q.els| == |p.els| && Chainable(p.els, ix)
  {
    && q.els[ix[0]].inp == p.els[ix[0]].inp && q.els[ix[|ix| - 1]].out == p.els[ix[|ix| - 1]].out
    && (forall m :: 0 <= m < |ix| - 1 ==> Relinked(p.els[ix[m]], p.rbs, q.els[ix[m]], q.rbs))
    && (forall m :: 0 <= m < |ix| - 1 ==> Joined(q, ix[m], ix[m + 1]))
    && (forall m, l :: 0 <= m < l < |ix| - 1 ==> Get(q.els[ix[m]].out) != Get(q.els[ix[l]].out))
  }

  lemma LinkRestored(ps: seq<Pipe>, ix: seq<nat>, m: nat)
    requires Trail(ps, ix, 0) && Chainable(ps[0].els, ix) && m < |ix| - 1
    ensures var (p, q) := (ps[0], ps[|ix|]);
            && |q.els| == |p.els|
            && Relinked(p.els[ix[m]], p.rbs, q.els[ix[m]], q.rbs)
            && Joined(q, ix[m], ix[m + 1])
  {
    PositionRelinked(ps, ix, m);
    PositionInput(ps, ix, m + 1);
  }

  /** The chain begins and ends where it did. */
  lemma EndsUntouched(ps: seq<Pipe>, ix: seq<nat>)
    requires Trail(ps, ix, 0) && Chainable(ps[0].els, ix)
    ensures var (p, q, n) := (ps[0], ps[|ix|], |ix| - 1);
            && |q.els| == |p.els|
            && q.els[ix[0]].inp == p.els[ix[0]].inp && q.els[ix[n]].out == p.els[ix[n]].out
  {
    var n := |ix| - 1;
    assert StepAt(ps, ix, 0);
    BetweenUntouched(ps, ix, 0, 1, |ix|, ix[0]);
    BetweenUntouched(ps, ix, 0, 0, n, ix[n]);
    assert StepAt(ps, ix, n);
  }

  lemma JoinedDistinctly(q: Pipe, ix: seq<nat>)
    requires InUse(q) && forall k :: 0 <= k < |ix| ==> ix[k] < |q.els|
    requires forall k, l :: 0 <= k < l < |ix| ==> ix[k] != ix[l]
    requires forall m :: 0 <= m < |ix| - 1 ==> Joined(q, ix[m], ix[m + 1])
    ensures forall m, l :: 0 <= m < l < |ix| - 1 ==> Get(q.els[ix[m]].out) != Get(q.els[ix[l]].out)
  {
    forall m, l | 0 <= m < l < |ix| - 1
      ensures Get(q.els[ix[m]].out) != Get(q.els[ix[l]].out)
    {
      assert Joined(q, ix[m], ix[m + 1]) && Joined(q, ix[l], ix[l + 1]);
      OutputsDiffer(q, ix[m], ix[l]);
    }
  }

  lemma TrailRestoresChain(ps: seq<Pipe>, ix: seq<nat>)
    requires Trail(ps, ix, 0) && Chainable(ps[0].els, ix) && InUse(ps[|ix|])
    ensures |ps[|ix|].els| == |ps[0].els| && ChainRestored(ps[0], ps[|ix|], ix)
  {
    var p, q := ps[0], ps[|ix|];
    LinkRestored(ps, ix, 0);
    forall m | 0 <= m < |ix| - 1
      ensures Relinked(p.els[ix[m]], p.rbs, q.els[ix[m]], q.rbs) && Joined(q, ix[m], ix[m + 1])
    {
      LinkRestored(ps, ix, m);
    }
    JoinedDistinctly(q, ix);
    EndsUntouched(ps, ix);
  }

  lemma ChainGivesGood(h: Helper, clean: bool, p: Pipe, tags: seq<string>)
    requires HelperOk(h, clean) && (clean ==> Clean(p)) && Ready(p, Resolve(p.els, tags), 0)
    ensures var (q, err) := ChainFrom(h, p, tags, 0);
            && err == Ok && q.linked && q.rbs != [] && InUse(q)
            && |q.els| == |p.els| && ChainRestored(p, q, Resolve(p.els, tags))
  {
    var ix := Resolve(p.els, tags);
    var ps := MakeTrail(h, clean, p, tags, ix, 0);
    TrailRestoresChain(ps, ix);
    assert Relinked(p.els[ix[0]], p.rbs, ps[|ix|].els[ix[0]], ps[|ix|].rbs);
  }

  lemma ReadyAtStart(p: Pipe, tags: seq<string>, stale: Option<Rb>)
    requires Good(p) && !p.linked && IdsBelow(p.rbs, p.book.next) && Chainable(p.els, Resolve(p.els, tags))
    ensures Ready(p.(memo := stale), Resolve(p.els, tags), 0)
  {
  }

  /** Relinking a pipeline that is not linked joins the elements in the order of the tags through distinct buffers.
      An element flagged kept in a non-last position has its own buffer back with precisely its pending bytes;
      every other link starts empty with all flags clear. Nothing depends on the carried static. */
  lemma RelinkRestoresKept(p: Pipe, tags: seq<string>, stale: Option<Rb>)
    requires Good(p) && !p.linked && IdsBelow(p.rbs, p.book.next) && Chainable(p.els, Resolve(p.els, tags))
    ensures var (q, err) := Relink(p, tags, stale);
            && err == Ok && q.linked && q.rbs != [] && Good(q) && IdsBelow(q.rbs, q.book.next)
            && |q.els| == |p.els|
            && ChainRestored(p, q, Resolve(p.els, tags))
  {
    RelinkHelperOk();
    ReadyAtStart(p, tags, stale);
    ChainGivesGood(RELINK_HELPER, false, p.(memo := stale), tags);
  }
}
