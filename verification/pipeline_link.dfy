/** Linking, unlinking and the ownership of buffers over any sequence of calls. */
module PipelineLink {
  import opened AudioTypes
  import opened RingTypes
  import opened PipelineSpec
  import opened PipelineChain
  import opened PipelineRelink

  // ---- link builds a chain, from any state ----

  function NewItem(p: Pipe, i: nat, b: Rb): Item
    requires i < |p.els| && p.els[i].rbSize >= 2
  {
    Item(b, NewRing(p.els[i].rbSize), Some(p.els[i].el), true, false)
  }

  /** A buffer made for an element that asks for `size` bytes: of that size, empty, every flag clear and both tokens
      gone; in use, and hosted by the element. */
  predicate NewFor(it: Item, el: El, size: int) {
    && it.host == Some(el) && it.linked && !it.kept
    && it.buf.size == size && it.buf.q == []
    && !it.buf.done && !it.buf.abortRead && !it.buf.abortWrite && !it.buf.unblock
    && !it.buf.canRead && !it.buf.canWrite
  }

  /** What linking one element does. */
  predicate LinkStep(p: Pipe, q: Pipe, i: nat, first: bool, last: bool)
    requires i < |p.els|
  {
    && |q.els| == |p.els| && q.els == p.els[i := q.els[i]] && SameElem(p.els[i], q.els[i])
    && q.els[i].linked && !q.els[i].kept && q.els[i].state == p.els[i].state && q.state == p.state
    && (if first then q.els[i].inp == p.els[i].inp else Get(q.els[i].inp) == p.memo)
    && (last ==> q.els[i].out == p.els[i].out)
    && (if last then q.rbs == p.rbs && q.book == p.book else
          && p.els[i].rbSize >= 2
          && q.rbs == p.rbs + [NewItem(p, i, p.book.next)]
          && q.book == p.book.(next := p.book.next + 1)
          && q.memo == Some(p.book.next) == Get(q.els[i].out))
  }

  predicate LinkPromise(h: Helper, p: Pipe, i: nat, first: bool, last: bool) {
    i < |p.els| && (!last ==> p.els[i].rbSize >= 2) && !(first && last) ==>
      h(p, i, first, last).1 == Ok && LinkStep(p, h(p, i, first, last).0, i, first, last)
  }

  ghost predicate Links(h: Helper) {
    forall p: Pipe, i: nat, first: bool, last: bool {:trigger LinkPromise(h, p, i, first, last)} ::
      LinkPromise(h, p, i, first, last)
  }

  lemma LinkOneLinks(p: Pipe, i: nat, first: bool, last: bool)
    requires i < |p.els| && (!last ==> p.els[i].rbSize >= 2) && !(first && last)
    ensures LinkOne(p, i, first, last).1 == Ok && LinkStep(p, LinkOne(p, i, first, last).0, i, first, last)
  {
  }

  lemma LinkHelperLinks()
    ensures Links(LINK_HELPER)
  {
    forall p: Pipe, i: nat, first: bool, last: bool
      ensures LinkPromise(LINK_HELPER, p, i, first, last)
    {
      if i < |p.els| && (!last ==> p.els[i].rbSize >= 2) && !(first && last) {
        LinkOneLinks(p, i, first, last);
      }
    }
  }

  /** The link from position `m` to the next: a new buffer with the next handle. */
  predicate ChainedAt(p: Pipe, q: Pipe, ix: seq<nat>, k: nat, m: nat)
    requires Chainable(p.els, ix) && k <= m < |ix| - 1
  {
    var b := p.book.next + m - k;
    && |p.rbs| + m - k < |q.rbs| && |q.els| == |p.els|
    && q.rbs[|p.rbs| + m - k].rb == b
    && NewFor(q.rbs[|p.rbs| + m - k], p.els[ix[m]].el, p.els[ix[m]].rbSize)
    && Get(q.els[ix[m]].out) == Some(b)
    && Get(q.els[ix[m + 1]].inp) == Some(b)
  }

  /** The chain that linking makes from position `k` on. */
  predicate Chained(p: Pipe, q: Pipe, ix: seq<nat>, k: nat)
    requires Chainable(p.els, ix) && k < |ix|
  {
    && SameElems(p.els, q.els) && q.linked && q.state == p.state
    && |q.rbs| == |p.rbs| + |ix| - 1 - k && p.rbs <= q.rbs
    && q.book == p.book.(next := p.book.next + |ix| - 1 - k)
    && (if k > 0 then Get(q.els[ix[k]].inp) == p.memo else q.els[ix[0]].inp == p.els[ix[0]].inp)
    && q.els[ix[|ix| - 1]].out == p.els[ix[|ix| - 1]].out
    && (forall m {:trigger ix[m]} :: k <= m < |ix| ==> q.els[ix[m]].linked && !q.els[ix[m]].kept)
    && (forall m {:trigger ChainedAt(p, q, ix, k, m)} :: k <= m < |ix| - 1 ==> ChainedAt(p, q, ix, k, m))
    && (forall i {:trigger Outside(ix, k, i)} :: 0 <= i < |p.els| && Outside(ix, k, i) ==> q.els[i] == p.els[i])
  }

  predicate Outside(ix: seq<nat>, k: nat, i: nat) {
    forall m :: k <= m < |ix| ==> ix[m] != i
  }

  /** The states between the positions, from position `k` on. */
  ghost predicate LinkTrail(ps: seq<Pipe>, ix: seq<nat>, k: nat) {
    && |ps| == |ix| + 1 && k <= |ix|
    && (forall m: nat {:trigger LinkAt(ps, ix, m)} :: k <= m < |ix| ==> LinkAt(ps, ix, m))
  }

  predicate LinkAt(ps: seq<Pipe>, ix: seq<nat>, m: nat)
    requires m < |ix| == |ps| - 1
  {
    LinkedAt(ps[m], ps[m + 1], ix, m)
  }

  predicate LinkedAt(p: Pipe, q: Pipe, ix: seq<nat>, m: nat)
    requires m < |ix|
  {
    Chainable(p.els, ix) && Chainable(q.els, ix) && LinkStep(p, q, ix[m], m == 0, m == |ix| - 1)
  }

  lemma {:induction false} LinkTrailExists(h: Helper, p: Pipe, tags: seq<string>, ix: seq<nat>, k: nat)
    returns (ps: seq<Pipe>)
    requires Links(h) && ix == Resolve(p.els, tags) && Chainable(p.els, ix) && k <= |ix|
    ensures LinkTrail(ps, ix, k) && ps[k] == p
    ensures ChainFrom(h, p, tags, k) == (ps[|ix|].(linked := true), Ok)
    decreases |ix| - k
  {
    if k == |ix| {
      ps := seq(|ix| + 1, _ => p);
    } else {
      var q := LinkUnrolled(h, p, tags, ix, k);
      var rest := LinkTrailExists(h, q, tags, ix, k + 1);
      ps := LinkTrailCons(p, rest, ix, k);
    }
  }

  lemma LinkTrailCons(p: Pipe, rest: seq<Pipe>, ix: seq<nat>, k: nat) returns (ps: seq<Pipe>)
    requires k < |ix| && LinkTrail(rest, ix, k + 1) && LinkedAt(p, rest[k + 1], ix, k)
    ensures LinkTrail(ps, ix, k) && ps[k] == p && ps[|ix|] == rest[|ix|]
  {
    ps := rest[k := p];
    forall m: nat | k <= m < |ix|
      ensures LinkAt(ps, ix, m)
    {
      if m > k {
        assert LinkAt(rest, ix, m);
      }
    }
  }

  lemma LinkUnrolled(h: Helper, p: Pipe, tags: seq<string>, ix: seq<nat>, k: nat) returns (q: Pipe)
    requires Links(h) && ix == Resolve(p.els, tags) && Chainable(p.els, ix) && k < |ix|
    ensures LinkedAt(p, q, ix, k)
    ensures ix == Resolve(q.els, tags)
    ensures ChainFrom(h, p, tags, k) == ChainFrom(h, q, tags, k + 1)
  {
    q := h(p, ix[k], k == 0, k == |ix| - 1).0;
    assert LinkPromise(h, p, ix[k], k == 0, k == |ix| - 1);
    ResolveStable(p.els, q.els, tags);
  }

  lemma {:induction false} TrailIsChained(ps: seq<Pipe>, ix: seq<nat>, k: nat)
    requires LinkTrail(ps, ix, k) && k < |ix|
    ensures LinkedAt(ps[k], ps[k + 1], ix, k) && Chained(ps[k], ps[|ix|].(linked := true), ix, k)
    decreases |ix| - k
  {
    assert LinkAt(ps, ix, k);
    if k == |ix| - 1 {
      ChainedLast(ps[k], ps[k + 1], ix, k);
    } else {
      TrailIsChained(ps, ix, k + 1);
      ChainedCons(ps[k], ps[k + 1], ps[|ix|].(linked := true), ix, k);
    }
  }

  lemma ChainedLast(p: Pipe, q: Pipe, ix: seq<nat>, k: nat)
    requires Chainable(p.els, ix) && k == |ix| - 1 && LinkStep(p, q, ix[k], false, true)
    ensures Chained(p, q.(linked := true), ix, k)
  {
  }

  lemma ChainedCons(p: Pipe, q: Pipe, r: Pipe, ix: seq<nat>, k: nat)
    requires Chainable(p.els, ix) && k < |ix| - 1
    requires LinkStep(p, q, ix[k], k == 0, false) && Chained(q, r, ix, k + 1)
    ensures Chained(p, r, ix, k)
  {
    assert Outside(ix, k + 1, ix[k]);
    forall i | 0 <= i < |p.els| && Outside(ix, k, i)
      ensures r.els[i] == p.els[i]
    {
      assert Outside(ix, k + 1, i);
    }
    forall m | k <= m < |ix| - 1
      ensures ChainedAt(p, r, ix, k, m)
    {
      ChainedAtCons(p, q, r, ix, k, m);
    }
  }

  lemma ChainedAtCons(p: Pipe, q: Pipe, r: Pipe, ix: seq<nat>, k: nat, m: nat)
    requires Chainable(p.els, ix) && k <= m < |ix| - 1
    requires LinkStep(p, q, ix[k], k == 0, false) && Chained(q, r, ix, k + 1)
    ensures ChainedAt(p, r, ix, k, m)
  {
    if m > k {
      assert ChainedAt(q, r, ix, k + 1, m);
    } else {
      assert Outside(ix, k + 1, ix[k]);
      assert r.rbs[|p.rbs|] == q.rbs[|p.rbs|];
    }
  }

  /** Linking at least two distinct registered elements, whatever the state of the pipeline and of the static: the
      output of each is the input of the next, through buffers that did not exist before, are distinct, empty and
      clear, of the size the element asks for, and hosted by it. The input of the first and the output of the last are
      left as they are. */
  lemma LinkBuildsChain(p: Pipe, tags: seq<string>, stale: Option<Rb>)
    requires Chainable(p.els, Resolve(p.els, tags))
    ensures var (q, err) := Link(p, tags, stale);
            err == Ok && Chained(Unlink(p), q, Resolve(p.els, tags), 0)
  {
    var u, ix := Unlink(p).(memo := stale), Resolve(p.els, tags);
    UnlinkSameElems(p);
    ResolveStable(p.els, u.els, tags);
    LinkHelperLinks();
    var ps := LinkTrailExists(LINK_HELPER, u, tags, ix, 0);
    TrailIsChained(ps, ix, 0);
    ChainedIgnoresMemo(Unlink(p), u, ps[|ix|].(linked := true), ix);
  }

  lemma ChainedIgnoresMemo(p: Pipe, u: Pipe, q: Pipe, ix: seq<nat>)
    requires Chainable(p.els, ix) && u == p.(memo := u.memo) && Chained(u, q, ix, 0)
    ensures Chained(p, q, ix, 0)
  {
    forall m | 0 <= m < |ix| - 1
      ensures ChainedAt(p, q, ix, 0, m)
    {
      assert ChainedAt(u, q, ix, 0, m);
    }
  }

  lemma UnlinkSameElems(p: Pipe)
    ensures SameElems(p.els, Unlink(p).els)
  {
  }

  /** With a single tag the element gets whatever buffer the previous call happened to leave in the static. */
  lemma SingleLinkIsStale(p: Pipe, tag: string, stale: Option<Rb>)
    requires FindTag(p.els, tag) < |p.els|
    ensures var q := Link(p, [tag], stale).0;
            var i := FindTag(p.els, tag);
            && |q.els| == |p.els| && q.linked && q.rbs == Unlink(p).rbs
            && Get(q.els[i].inp) == stale
  {
    var u := Unlink(p).(memo := stale);
    UnlinkSameElems(p);
    FindTagStable(p.els, u.els, tag, 0);
    var q := LINK_HELPER(u, FindTag(u.els, tag), true, true).0;
    assert ChainFrom(LINK_HELPER, q, [tag], 1) == (q.(linked := true), Ok);
  }

  // ---- when link and relink fail ----

  /** Position `m` of the tags is no obstacle: the tag is known, and, if sizes matter, the element asks for a size a
      buffer can have unless it is the last. */
  predicate Linkable(els: seq<Elem>, tags: seq<string>, sized: bool, m: nat)
    requires m < |tags|
  {
    var i := FindTag(els, tags[m]);
    i < |els| && (sized && m < |tags| - 1 ==> els[i].rbSize >= 2)
  }

  /** The first position from `k` on that is one, and what is answered for it. */
  predicate FailsAt(els: seq<Elem>, tags: seq<string>, sized: bool, k: nat, m: nat, err: Err) {
    && k <= m < |tags| && !Linkable(els, tags, sized, m)
    && (forall l :: k <= l < m ==> Linkable(els, tags, sized, l))
    && err == if FindTag(els, tags[m]) == |els| then Fail else NoMem
  }

  /** How the loop from position `k` on ends. */
  ghost predicate EndsAs(els: seq<Elem>, tags: seq<string>, sized: bool, k: nat, err: Err) {
    && (err == Ok <==> forall m :: k <= m < |tags| ==> Linkable(els, tags, sized, m))
    && (err != Ok ==> exists m :: FailsAt(els, tags, sized, k, m, err))
  }

  lemma EndsStable(els: seq<Elem>, els': seq<Elem>, tags: seq<string>, sized: bool, k: nat, err: Err)
    requires SameElems(els, els') && EndsAs(els', tags, sized, k, err)
    ensures EndsAs(els, tags, sized, k, err)
  {
    forall m | 0 <= m < |tags|
      ensures FindTag(els', tags[m]) == FindTag(els, tags[m])
      ensures Linkable(els', tags, sized, m) <==> Linkable(els, tags, sized, m)
    {
      FindTagStable(els, els', tags[m], 0);
    }
    if err != Ok {
      var m :| FailsAt(els', tags, sized, k, m, err);
      assert FailsAt(els, tags, sized, k, m, err);
    }
  }

  lemma EndsEarlier(els: seq<Elem>, tags: seq<string>, sized: bool, k: nat, err: Err)
    requires k < |tags| && Linkable(els, tags, sized, k) && EndsAs(els, tags, sized, k + 1, err)
    ensures EndsAs(els, tags, sized, k, err)
  {
    if err != Ok {
      var m :| FailsAt(els, tags, sized, k + 1, m, err);
      assert FailsAt(els, tags, sized, k, m, err);
    }
  }

  /** What a helper answers. */
  predicate ErrPromise(h: Helper, sized: bool, p: Pipe, i: nat, first: bool, last: bool) {
    i < |p.els| ==>
      var (q, err) := h(p, i, first, last);
      && SameElems(p.els, q.els) && q.linked == p.linked
      && err == if sized && !last && p.els[i].rbSize < 2 then NoMem else Ok
  }

  ghost predicate Errs(h: Helper, sized: bool) {
    forall p: Pipe, i: nat, first: bool, last: bool {:trigger ErrPromise(h, sized, p, i, first, last)} ::
      ErrPromise(h, sized, p, i, first, last)
  }

  lemma LinkErrs()
    ensures Errs(LINK_HELPER, true)
  {
  }

  lemma RelinkOneErrs(p: Pipe, i: nat, first: bool, last: bool)
    requires i < |p.els|
    ensures RelinkOne(p, i, first, last).linked == p.linked
  {
  }

  lemma RelinkErrs()
    ensures Errs(RELINK_HELPER, false)
  {
    forall p: Pipe, i: nat, first: bool, last: bool
      ensures ErrPromise(RELINK_HELPER, false, p, i, first, last)
    {
      if i < |p.els| {
        RelinkOneErrs(p, i, first, last);
      }
    }
  }

  lemma {:induction false} ChainErrs(h: Helper, sized: bool, p: Pipe, tags: seq<string>, k: nat)
    requires Errs(h, sized) && k <= |tags|
    ensures EndsAs(p.els, tags, sized, k, ChainFrom(h, p, tags, k).1)
    ensures var (q, err) := ChainFrom(h, p, tags, k); q.linked <==> err == Ok || p.linked
    decreases |tags| - k
  {
    if k < |tags| {
      var i := FindTag(p.els, tags[k]);
      assert ErrPromise(h, sized, p, i, k == 0, k == |tags| - 1);
      if Linkable(p.els, tags, sized, k) {
        var q := h(p, i, k == 0, k == |tags| - 1).0;
        ChainErrs(h, sized, q, tags, k + 1);
        EndsStable(p.els, q.els, tags, sized, k + 1, ChainFrom(h, q, tags, k + 1).1);
        EndsEarlier(p.els, tags, sized, k, ChainFrom(h, q, tags, k + 1).1);
      } else {
        assert FailsAt(p.els, tags, sized, k, k, ChainFrom(h, p, tags, k).1);
      }
    }
  }

  /** Linking succeeds, and leaves the pipeline linked, exactly if no position is an obstacle; otherwise the first that
      is one tells the error. Tags may be repeated. */
  lemma LinkFailsIff(p: Pipe, tags: seq<string>, stale: Option<Rb>)
    ensures var (q, err) := Link(p, tags, stale); (q.linked <==> err == Ok) && EndsAs(p.els, tags, true, 0, err)
  {
    var u := Unlink(p).(memo := stale);
    LinkErrs();
    ChainErrs(LINK_HELPER, true, u, tags, 0);
    UnlinkSameElems(p);
    EndsStable(p.els, u.els, tags, true, 0, Link(p, tags, stale).1);
  }

  /** Relinking looks at the tags alone: a buffer that cannot be created goes unnoticed. */
  lemma RelinkFailsIff(p: Pipe, tags: seq<string>, stale: Option<Rb>)
    ensures var (q, err) := Relink(p, tags, stale);
            && err == (if !p.linked && forall m :: 0 <= m < |tags| ==> FindTag(p.els, tags[m]) < |p.els|
                       then Ok else Fail)
            && (p.linked ==> q == p) && (q.linked <==> p.linked || err == Ok)
  {
    if !p.linked {
      RelinkErrs();
      ChainErrs(RELINK_HELPER, false, p.(memo := stale), tags, 0);
      assert forall m :: 0 <= m < |tags| ==> (Linkable(p.els, tags, false, m) <==> FindTag(p.els, tags[m]) < |p.els|);
    }
  }

  // ---- the invariant over link and unlink ----

  predicate NoneKept(p: Pipe) {
    forall i :: 0 <= i < |p.els| ==> !p.els[i].kept
  }

  /** Unlinking a sound pipeline with no kept element left aside gives a sound empty one. */
  lemma UnlinkIsGood(p: Pipe)
    requires Good(p) && p.linked && NoneKept(p)
    ensures var q := Unlink(p);
            && Good(q) && !q.linked && q.rbs == [] && Clean(q) && IdsBelow(q.rbs, q.book.next)
            && (forall i :: 0 <= i < |q.els| ==> Get(q.els[i].out) == None)
  {
    var q := Unlink(p);
    forall i | 0 <= i < |q.els|
      ensures Get(q.els[i].out) == None && ElemOk(q.els[i], q.rbs)
    {
      assert ElemOk(p.els[i], p.rbs);
    }
  }

  /** The condition is exact: a kept element left aside stays flagged kept, with nothing kept for it. */
  lemma UnlinkIsGoodIff(p: Pipe)
    requires Good(p) && p.linked
    ensures Good(Unlink(p)) <==> NoneKept(p)
  {
    if NoneKept(p) {
      UnlinkIsGood(p);
    } else {
      var i :| 0 <= i < |p.els| && p.els[i].kept;
      UnlinkOutputsGone(p, i);
      assert ElemOk(p.els[i], p.rbs);
      assert !ElemOk(Unlink(p).els[i], Unlink(p).rbs);
    }
  }

  /** What unlinking a linked pipeline leaves: an element still refers to a buffer, now destroyed, exactly if it did
      before without being linked and without hosting a listed buffer. */
  lemma UnlinkLeavesDangling(p: Pipe, i: nat)
    requires p.linked && i < |p.els|
    ensures |Unlink(p).els| == |p.els|
    ensures Unlink(p) ==
              p.(els := Unlink(p).els, rbs := [], book := p.book.(freed := p.book.freed + Ids(p.rbs)), linked := false)
    ensures var (e, f) := (p.els[i], Unlink(p).els[i]);
            SameElem(e, f) && f.state == e.state && !f.linked && (f.kept <==> e.kept && !e.linked) && SamePorts(e, f)
    ensures var (e, f) := (p.els[i], Unlink(p).els[i]);
            (Get(f.inp) != None || Get(f.out) != None) <==>
              (Get(e.inp) != None || Get(e.out) != None) && !e.linked && !Hosts(p.rbs, e.el)
    ensures !p.els[i].linked && !Hosts(p.rbs, p.els[i].el) ==> Unlink(p).els[i] == p.els[i]
  {
  }

  /** In a sound pipeline no output dangles after an unlink; an input does only if its element was left out of the
      chain and hosts nothing. */
  lemma UnlinkOutputsGone(p: Pipe, i: nat)
    requires Good(p) && p.linked && i < |p.els|
    ensures Get(Unlink(p).els[i].out) == None
  {
    assert ElemOk(p.els[i], p.rbs);
  }

  lemma LinkHelperOk()
    ensures HelperOk(LINK_HELPER, true)
  {
    forall p, ix, k | 0 <= k < |ix| && Ready(p, ix, k) && Clean(p)
      ensures HelperStep(LINK_HELPER, true, p, ix, k)
    {
      LinkOneIsGood(p, ix[k], k == 0, k == |ix| - 1);
      StepMakesReady(p, LinkOne(p, ix[k], k == 0, k == |ix| - 1).0, ix, k);
    }
  }

  lemma UnusedHostsNothing(p: Pipe, i: nat)
    requires InUse(p) && Clean(p) && i < |p.els| && !p.els[i].linked
    ensures Get(p.els[i].out) == None && !p.els[i].kept
    ensures forall m :: 0 <= m < |p.rbs| ==> p.rbs[m].host != Some(p.els[i].el)
  {
    assert ElemOk(p.els[i], p.rbs);
    forall m | 0 <= m < |p.rbs|
      ensures p.rbs[m].host != Some(p.els[i].el)
    {
      assert UseOk(p.els[i], p.rbs[m]);
    }
  }

  lemma LinkLastIsGood(p: Pipe, i: nat)
    requires InUse(p) && Clean(p) && i < |p.els| && !p.els[i].linked && p.rbs != []
    ensures var q := LinkOne(p, i, false, true).0; InUse(q) && Clean(q) && RelinkStep(p, q, i, false, true)
  {
    var q := LinkOne(p, i, false, true).0;
    UnusedHostsNothing(p, i);
    assert q.els == p.els[i := q.els[i]];
    Rehost(p.els, p.rbs, i, q.els[i], q.rbs);
  }

  lemma LinkInnerIsGood(p: Pipe, i: nat, first: bool)
    requires InUse(p) && Clean(p) && i < |p.els| && !p.els[i].linked && p.els[i].rbSize >= 2
    ensures var q := LinkOne(p, i, first, false).0; InUse(q) && Clean(q) && RelinkStep(p, q, i, first, false)
  {
    var q := LinkOne(p, i, first, false).0;
    UnusedHostsNothing(p, i);
    assert q.els == p.els[i := q.els[i]];
    FirstIs(q.rbs, p.els[i].el, |p.rbs|);
    assert Owns(q.els[i], q.rbs, |p.rbs|);
    OutBufIs(q.els[i], q.rbs, |p.rbs|);
    Rehost(p.els, p.rbs, i, q.els[i], q.rbs);
  }

  lemma LinkOneIsGood(p: Pipe, i: nat, first: bool, last: bool)
    requires InUse(p) && Clean(p) && i < |p.els| && !p.els[i].linked
    requires last ==> !first && p.rbs != []
    requires !last ==> p.els[i].rbSize >= 2
    ensures var (q, err) := LinkOne(p, i, first, last);
            err == Ok && InUse(q) && Clean(q) && RelinkStep(p, q, i, first, last)
  {
    if last {
      LinkLastIsGood(p, i);
    } else {
      LinkInnerIsGood(p, i, first);
    }
  }

  /** Linking a sound pipeline that is linked with nothing kept, or that has no buffers yet, keeps it sound. */
  lemma LinkIsGood(p: Pipe, tags: seq<string>, stale: Option<Rb>)
    requires Good(p) && NoneKept(p) && (p.linked || p.rbs == []) && Chainable(p.els, Resolve(p.els, tags))
    ensures var (q, err) := Link(p, tags, stale);
            err == Ok && q.linked && q.rbs != [] && Good(q) && IdsBelow(q.rbs, q.book.next)
  {
    var u := Unlink(p);
    if p.linked {
      UnlinkIsGood(p);
    }
    UnlinkSameElems(p);
    ResolveStable(p.els, u.els, tags);
    LinkHelperOk();
    ReadyAtStart(u, tags, stale);
    ChainGivesGood(LINK_HELPER, true, u.(memo := stale), tags);
  }

  /** Linking, instead of relinking, a pipeline that was broken up: an element that still hosts a buffer gets a new
      output, but a later search by host finds the old buffer first. */
  lemma LinkAfterBreakupIsStale(p: Pipe, tags: seq<string>, stale: Option<Rb>, m: nat)
    requires Good(p) && !p.linked && IdsBelow(p.rbs, p.book.next) && Chainable(p.els, Resolve(p.els, tags))
    requires m < |tags| - 1 && Hosts(p.rbs, p.els[FindTag(p.els, tags[m])].el)
    ensures var q := Link(p, tags, stale).0;
            var e := p.els[FindTag(p.els, tags[m])];
            && |q.els| == |p.els| && FindHost(q.rbs, e.el) < |q.rbs|
            && Get(q.els[FindTag(p.els, tags[m])].out) != Some(q.rbs[FindHost(q.rbs, e.el)].rb)
            && !Good(q)
  {
    var q, ix := Link(p, tags, stale).0, Resolve(p.els, tags);
    LinkBuildsChain(p, tags, stale);
    assert ChainedAt(p, q, ix, 0, m);
    var j := FindHost(p.rbs, p.els[ix[m]].el);
    assert q.rbs[j] == p.rbs[j];
    FirstIs(q.rbs, p.els[ix[m]].el, j);
    assert !ElemOk(q.els[ix[m]], q.rbs);
  }
}
