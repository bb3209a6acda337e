/** The sizes of the buffers between elements: those made for an element fit it, those found lying about need not. */
module PipelineSizes {
  import opened AudioTypes
  import opened RingTypes
  import opened PipelineSpec
  import opened PipelineChain
  import opened PipelineRelink
  import opened PipelineLink
  import opened PipelineRuns

  /** Made for one of the elements. */
  predicate Fits(it: Item, els: seq<Elem>) {
    exists i :: 0 <= i < |els| && NewFor(it, els[i].el, els[i].rbSize)
  }

  /** What a call does to the list: buffers keep their places, sizes and tokens, those in use are left alone, and what
      is new has been made for an element. */
  predicate ListGrows(els: seq<Elem>, rbs: seq<Item>, rbs': seq<Item>) {
    && |rbs| <= |rbs'|
    && (forall j :: 0 <= j < |rbs| ==> rbs'[j].rb == rbs[j].rb && SameShell(rbs[j].buf, rbs'[j].buf))
    && (forall j :: 0 <= j < |rbs| && rbs[j].linked && !rbs[j].kept ==> rbs'[j] == rbs[j])
    && (forall j {:trigger Fits(rbs'[j], els)} :: |rbs| <= j < |rbs'| ==> Fits(rbs'[j], els))
  }

  predicate Sized(p: Pipe, q: Pipe) {
    SameElems(p.els, q.els) && ListGrows(p.els, p.rbs, q.rbs)
  }

  lemma FitsStays(it: Item, els: seq<Elem>, els': seq<Elem>)
    requires SameElems(els, els') && Fits(it, els')
    ensures Fits(it, els)
  {
    var i :| 0 <= i < |els'| && NewFor(it, els'[i].el, els'[i].rbSize);
    assert NewFor(it, els[i].el, els[i].rbSize);
  }

  lemma SizedComposes(p: Pipe, q: Pipe, t: Pipe)
    requires Sized(p, q) && Sized(q, t)
    ensures Sized(p, t)
  {
    forall j | |p.rbs| <= j < |t.rbs|
      ensures Fits(t.rbs[j], p.els)
    {
      if j < |q.rbs| {
        assert Fits(q.rbs[j], p.els);
      } else {
        FitsStays(t.rbs[j], p.els, q.els);
      }
    }
  }

  lemma CreatedSized(p: Pipe, i: nat)
    requires i < |p.els| && p.els[i].rbSize >= 2
    ensures Sized(p, Created(p, i))
  {
    var q := Created(p, i);
    assert NewFor(q.rbs[|p.rbs|], p.els[i].el, p.els[i].rbSize);
  }

  lemma LinkOneSized(p: Pipe, i: nat, first: bool, last: bool)
    requires i < |p.els|
    ensures Sized(p, LinkOne(p, i, first, last).0)
  {
    var u := p.(els := p.els[i := p.els[i].(linked := true, kept := false)]);
    var q := if first then u else SetInput(u, i);
    if !last && p.els[i].rbSize >= 2 {
      CreatedSized(q, i);
      SizedComposes(p, q, Created(q, i));
    }
  }

  lemma PickSized(p: Pipe, i: nat)
    requires i < |p.els|
    ensures Sized(p, Pick(p, i).0)
  {
  }

  lemma RelinkOneSized(p: Pipe, i: nat, first: bool, last: bool)
    requires i < |p.els|
    ensures Sized(p, RelinkOne(p, i, first, last))
  {
    var u := p.(els := p.els[i := p.els[i].(linked := true)]);
    var (v, cur) := Pick(u, i);
    PickSized(u, i);
    SizedComposes(p, u, v);
    var q := if first then v else SetInput(v, i);
    SizedComposes(p, v, q);
    if !last && cur == None && p.els[i].rbSize >= 2 {
      CreatedSized(q, i);
      SizedComposes(p, q, Created(q, i));
    }
  }

  lemma SizedIsRelation()
    ensures Composes((p: Pipe, q: Pipe) => Sized(p, q))
  {
    forall p: Pipe, q: Pipe, t: Pipe | Sized(p, q) && Sized(q, t)
      ensures Sized(p, t)
    {
      SizedComposes(p, q, t);
    }
  }

  /** Linking anything, whether it succeeds or fails part of the way: what is in the list then has been made for one of
      the elements, with the size it asks for. */
  lemma LinkSized(p: Pipe, tags: seq<string>, stale: Option<Rb>)
    ensures var q := Link(p, tags, stale).0; ListGrows(p.els, Unlink(p).rbs, q.rbs) && SameElems(p.els, q.els)
  {
    ghost var r: (Pipe, Pipe) -> bool := (p: Pipe, q: Pipe) => Sized(p, q);
    SizedIsRelation();
    forall p: Pipe, i: nat, first: bool, last: bool
      ensures StepRelates(LINK_HELPER, r, p, i, first, last)
    {
      if i < |p.els| {
        LinkOneSized(p, i, first, last);
      }
    }
    var u := Unlink(p).(memo := stale);
    ChainRelates(LINK_HELPER, r, u, tags, 0);
    UnlinkSameElems(p);
    SizedComposes(p.(rbs := u.rbs), u, Link(p, tags, stale).0);
  }

  /** So does relinking with what it adds; what was there keeps its size. */
  lemma RelinkSized(p: Pipe, tags: seq<string>, stale: Option<Rb>)
    ensures Sized(p, Relink(p, tags, stale).0)
  {
    if !p.linked {
      ghost var r: (Pipe, Pipe) -> bool := (p: Pipe, q: Pipe) => Sized(p, q);
      SizedIsRelation();
      forall p: Pipe, i: nat, first: bool, last: bool
        ensures StepRelates(RELINK_HELPER, r, p, i, first, last)
      {
        if i < |p.els| {
          RelinkOneSized(p, i, first, last);
        }
      }
      ChainRelates(RELINK_HELPER, r, p.(memo := stale), tags, 0);
    }
  }

  /** Of a chain relinked, each buffer between two elements is one that was there, with the size it had, or a new one
      of the size its element asks for. */
  lemma RelinkedSize(p: Pipe, tags: seq<string>, stale: Option<Rb>, m: nat)
    requires Good(p) && !p.linked && IdsBelow(p.rbs, p.book.next) && Chainable(p.els, Resolve(p.els, tags))
    requires m < |tags| - 1
    ensures var q := Relink(p, tags, stale).0;
            var i := FindTag(p.els, tags[m]);
            && |q.els| == |p.els| && |p.rbs| <= |q.rbs|
            && var j := FindRb(q.rbs, Get(q.els[i].out));
               && j < |q.rbs|
               && (if j < |p.rbs| then q.rbs[j].buf.size == p.rbs[j].buf.size
                   else NewFor(q.rbs[j], p.els[i].el, p.els[i].rbSize))
  {
    var q, i := Relink(p, tags, stale).0, FindTag(p.els, tags[m]);
    RelinkRestoresKept(p, tags, stale);
    RelinkSized(p, tags, stale);
    var ix := Resolve(p.els, tags);
    assert Joined(q, ix[m], ix[m + 1]);
    OutputFits(p, q, i);
  }

  lemma OutputFits(p: Pipe, q: Pipe, i: nat)
    requires DistinctEls(p.els) && Sized(p, q) && Sound(q.els, q.rbs) && i < |q.els| && Get(q.els[i].out) != None
    ensures var j := FindRb(q.rbs, Get(q.els[i].out));
            && j < |q.rbs|
            && (if j < |p.rbs| then q.rbs[j].buf.size == p.rbs[j].buf.size
                else NewFor(q.rbs[j], p.els[i].el, p.els[i].rbSize))
  {
    OutputIsFound(q.els, q.rbs, i);
    var j := FindRb(q.rbs, Get(q.els[i].out));
    if j >= |p.rbs| {
      assert Fits(q.rbs[j], p.els);
      var k :| 0 <= k < |p.els| && NewFor(q.rbs[j], p.els[k].el, p.els[k].rbSize);
      assert q.els[i].el == p.els[i].el && p.els[k].el == p.els[i].el;
    }
  }

  /** An element for which there is no buffer and none can be created is passed over: its ports stay as they are, and
      the next one is joined to what came before. Relink does not answer that. */
  lemma RelinkPassesOver(p: Pipe, i: nat, first: bool)
    requires i < |p.els| && Pick(p.(els := p.els[i := p.els[i].(linked := true)]), i).1 == None && p.els[i].rbSize < 2
    ensures var (q, err) := RELINK_HELPER(p, i, first, false);
            && err == Ok && q.memo == p.memo && q.book == p.book && |q.rbs| == |p.rbs|
            && q.els == p.els[i := p.els[i].(linked := true)]
  {
  }

  // ---- a buffer of the wrong size ----

  /** The first buffer that is not in use and has no host. */
  predicate FirstFree(rbs: seq<Item>, j: nat) {
    && j < |rbs| && Free(rbs[j]) && rbs[j].host == None
    && forall m :: 0 <= m < j && Free(rbs[m]) ==> rbs[m].host != None
  }

  lemma ClaimsFirstFree(rbs: seq<Item>, el: El, j: nat)
    requires FirstFree(rbs, j)
    ensures Claim(rbs, el).1 == j
  {
  }

  /** The first element of a relink, unless it is kept, gets the first buffer lying about without a host, whatever the
      size: it has the size it asks for exactly if that buffer happens to have it. */
  lemma FirstGetsAnySize(p: Pipe, tags: seq<string>, stale: Option<Rb>, j: nat)
    requires Good(p) && !p.linked && IdsBelow(p.rbs, p.book.next) && Chainable(p.els, Resolve(p.els, tags))
    requires !p.els[FindTag(p.els, tags[0])].kept && FirstFree(p.rbs, j)
    ensures var q := Relink(p, tags, stale).0;
            var i := FindTag(p.els, tags[0]);
            && |q.els| == |p.els| && |p.rbs| <= |q.rbs|
            && Get(q.els[i].out) == Some(p.rbs[j].rb) == Some(q.rbs[j].rb)
            && (q.rbs[j].buf.size == q.els[i].rbSize <==> p.rbs[j].buf.size == p.els[i].rbSize)
  {
    var ix, v := Resolve(p.els, tags), p.(memo := stale);
    var i := ix[0];
    RelinkSized(p, tags, stale);
    RelinkHelperOk();
    ReadyAtStart(p, tags, stale);
    assert HelperStep(RELINK_HELPER, false, v, ix, 0);
    var v1 := RelinkOne(v, i, true, false);
    FirstTakes(v, i, j);
    ResolveStable(v.els, v1.els, tags);
    var ps := MakeTrail(RELINK_HELPER, false, v1, tags, ix, 1);
    BetweenUntouched(ps, ix, 1, 1, |ix|, i);
  }

  lemma FirstTakes(v: Pipe, i: nat, j: nat)
    requires i < |v.els| && !v.els[i].kept && FirstFree(v.rbs, j)
    ensures Get(RelinkOne(v, i, true, false).els[i].out) == Some(v.rbs[j].rb)
  {
    ClaimsFirstFree(v.rbs, v.els[i].el, j);
  }
}
