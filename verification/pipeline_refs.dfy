/** References to buffers: when an element may come to refer to one that has been destroyed. */
module PipelineRefs {
  import opened AudioTypes
  import opened RingTypes
  import opened PipelineSpec
  import opened PipelineChain
  import opened PipelineRelink
  import opened PipelineLink
  import opened PipelineRuns

  predicate Listed(rbs: seq<Item>, rb: Option<Rb>) {
    FindRb(rbs, rb) < |rbs|
  }

  /** Not referring to a buffer that is not in the list. */
  predicate RefOk(rb: Option<Rb>, rbs: seq<Item>) {
    rb != None ==> Listed(rbs, rb)
  }

  predicate ElemRefs(e: Elem, rbs: seq<Item>) {
    RefOk(Get(e.inp), rbs) && RefOk(Get(e.out), rbs)
  }

  /** Every input and every output refers to a listed buffer. */
  predicate Refs(p: Pipe) {
    forall i {:trigger ElemRefs(p.els[i], p.rbs)} :: 0 <= i < |p.els| ==> ElemRefs(p.els[i], p.rbs)
  }

  predicate Grows(rbs: seq<Item>, rbs': seq<Item>) {
    |rbs| <= |rbs'| && forall j :: 0 <= j < |rbs| ==> rbs'[j].rb == rbs[j].rb
  }

  lemma RefStays(rb: Option<Rb>, rbs: seq<Item>, rbs': seq<Item>)
    requires RefOk(rb, rbs) && Grows(rbs, rbs')
    ensures RefOk(rb, rbs')
  {
    if rb != None {
      var j := FindRb(rbs, rb);
      assert rbs'[j].rb == rbs[j].rb;
    }
  }

  /** A port that is the same, is cleared, or refers to a listed buffer. */
  predicate PortStep(before: Port, after: Port, rbs: seq<Item>) {
    Get(after) == Get(before) || RefOk(Get(after), rbs)
  }

  predicate ElemStep(e: Elem, f: Elem, rbs: seq<Item>) {
    PortStep(e.inp, f.inp, rbs) && PortStep(e.out, f.out, rbs)
  }

  lemma RefsFrom(p: Pipe, q: Pipe)
    requires Refs(p) && Grows(p.rbs, q.rbs) && |q.els| == |p.els|
    requires forall i {:trigger ElemStep(p.els[i], q.els[i], q.rbs)} :: 0 <= i < |p.els| ==>
               ElemStep(p.els[i], q.els[i], q.rbs)
    ensures Refs(q)
  {
    forall i | 0 <= i < |q.els|
      ensures ElemRefs(q.els[i], q.rbs)
    {
      assert ElemRefs(p.els[i], p.rbs) && ElemStep(p.els[i], q.els[i], q.rbs);
      RefStays(Get(p.els[i].inp), p.rbs, q.rbs);
      RefStays(Get(p.els[i].out), p.rbs, q.rbs);
    }
  }

  lemma RefsFromOne(p: Pipe, q: Pipe, i: nat)
    requires Refs(p) && Grows(p.rbs, q.rbs) && i < |p.els| == |q.els| && q.els == p.els[i := q.els[i]]
    requires ElemStep(p.els[i], q.els[i], q.rbs)
    ensures Refs(q)
  {
    forall m | 0 <= m < |p.els|
      ensures ElemStep(p.els[m], q.els[m], q.rbs)
    {
    }
    RefsFrom(p, q);
  }

  // ---- link and relink ----

  predicate MemoOk(p: Pipe) {
    RefOk(p.memo, p.rbs)
  }

  /** What a helper is trusted with: a static that is in order, or the first of several positions, where it gets one;
      if `sized`, only for an element that asks for a size a buffer can have. */
  predicate RefPromise(h: Helper, sized: bool, p: Pipe, i: nat, first: bool, last: bool) {
    i < |p.els| && Refs(p) && (MemoOk(p) || (first && !last && (sized ==> p.els[i].rbSize >= 2))) ==>
      var q := h(p, i, first, last).0;
      Refs(q) && MemoOk(q)
  }

  ghost predicate KeepsRefs(h: Helper, sized: bool) {
    forall p: Pipe, i: nat, first: bool, last: bool {:trigger RefPromise(h, sized, p, i, first, last)} ::
      RefPromise(h, sized, p, i, first, last)
  }

  lemma NewIsListed(rbs: seq<Item>, it: Item)
    ensures Listed(rbs + [it], Some(it.rb))
  {
    assert (rbs + [it])[|rbs|].rb == it.rb;
  }

  lemma LinkOneRefs(p: Pipe, i: nat, first: bool, last: bool)
    requires i < |p.els| && Refs(p) && (MemoOk(p) || (first && !last))
    ensures var q := LinkOne(p, i, first, last).0; Refs(q) && MemoOk(q)
  {
    var q := LinkOne(p, i, first, last).0;
    if !last && p.els[i].rbSize >= 2 {
      NewIsListed(p.rbs, NewItem(p, i, p.book.next));
    }
    if MemoOk(p) {
      RefStays(p.memo, p.rbs, q.rbs);
    }
    RefsFromOne(p, q, i);
  }

  lemma LinkKeepsRefs()
    ensures KeepsRefs(LINK_HELPER, false)
  {
    forall p: Pipe, i: nat, first: bool, last: bool
      ensures RefPromise(LINK_HELPER, false, p, i, first, last)
    {
      if i < |p.els| && Refs(p) && (MemoOk(p) || (first && !last)) {
        LinkOneRefs(p, i, first, last);
      }
    }
  }

  /** The buffer that relink picks is a listed one, and picking changes no port. */
  lemma PickRefs(p: Pipe, i: nat)
    requires i < |p.els|
    ensures var (q, cur) := Pick(p, i);
            && RefOk(cur, q.rbs) && Grows(p.rbs, q.rbs) && q.memo == p.memo && q.book == p.book
            && q.els == p.els[i := q.els[i]] && q.els[i].inp == p.els[i].inp && q.els[i].out == p.els[i].out
            && q.els[i].rbSize == p.els[i].rbSize && q.els[i].el == p.els[i].el
  {
    var (q, cur) := Pick(p, i);
    if p.els[i].kept {
      var j := FindHost(p.rbs, p.els[i].el);
      assert j < |p.rbs| ==> q.rbs[j].rb == p.rbs[j].rb && cur == Some(q.rbs[j].rb);
    } else {
      var (rbs, j) := Claim(p.rbs, p.els[i].el);
      assert j < |rbs| ==> cur == Some(q.rbs[j].rb);
    }
  }

  lemma RelinkOneRefs(p: Pipe, i: nat, first: bool, last: bool)
    requires i < |p.els| && Refs(p) && (MemoOk(p) || (first && !last && p.els[i].rbSize >= 2))
    ensures var q := RelinkOne(p, i, first, last); Refs(q) && MemoOk(q)
  {
    var u := p.(els := p.els[i := p.els[i].(linked := true)]);
    var q := RelinkOne(p, i, first, last);
    PickRefs(u, i);
    var (v, cur) := Pick(u, i);
    if !last && cur == None && p.els[i].rbSize >= 2 {
      NewIsListed(v.rbs, NewItem(v, i, p.book.next));
    }
    if MemoOk(p) {
      RefStays(p.memo, p.rbs, q.rbs);
    }
    RefStays(cur, v.rbs, q.rbs);
    RefsFromOne(p, q, i);
  }

  lemma RelinkKeepsRefs()
    ensures KeepsRefs(RELINK_HELPER, true)
  {
    forall p: Pipe, i: nat, first: bool, last: bool
      ensures RefPromise(RELINK_HELPER, true, p, i, first, last)
    {
      if i < |p.els| && Refs(p) && (MemoOk(p) || (first && !last && p.els[i].rbSize >= 2)) {
        RelinkOneRefs(p, i, first, last);
      }
    }
  }

  /** What the loop may start with, whatever the static: several tags, the first element, if it is there, sized. */
  predicate GetsOwnMemo(els: seq<Elem>, tags: seq<string>, sized: bool) {
    |tags| != 1 && (sized && tags != [] && FindTag(els, tags[0]) < |els| ==> els[FindTag(els, tags[0])].rbSize >= 2)
  }

  lemma {:induction false} ChainRefs(h: Helper, sized: bool, p: Pipe, tags: seq<string>, k: nat)
    requires KeepsRefs(h, sized) && Refs(p) && k <= |tags|
    requires MemoOk(p) || (k == 0 && GetsOwnMemo(p.els, tags, sized))
    ensures Refs(ChainFrom(h, p, tags, k).0)
    decreases |tags| - k
  {
    if k == |tags| {
      RefsFlagged(p);
    } else {
      var i := FindTag(p.els, tags[k]);
      if i < |p.els| {
        assert RefPromise(h, sized, p, i, k == 0, k == |tags| - 1);
        ChainRefs(h, sized, h(p, i, k == 0, k == |tags| - 1).0, tags, k + 1);
      }
    }
  }

  lemma RefsFlagged(p: Pipe)
    requires Refs(p)
    ensures Refs(p.(linked := true))
  {
    forall i | 0 <= i < |p.els|
      ensures ElemStep(p.els[i], p.els[i], p.rbs)
    {
    }
    RefsFrom(p, p.(linked := true));
  }

  lemma RefsWithMemo(p: Pipe, stale: Option<Rb>)
    requires Refs(p)
    ensures Refs(p.(memo := stale))
  {
    forall i | 0 <= i < |p.els|
      ensures ElemStep(p.els[i], p.els[i], p.rbs)
    {
    }
    RefsFrom(p, p.(memo := stale));
  }

  // ---- unlink ----

  /** Every element that holds a buffer is flagged linked, or hosts one. */
  predicate NoLoose(p: Pipe) {
    forall i :: 0 <= i < |p.els| && (Get(p.els[i].inp) != None || Get(p.els[i].out) != None) ==>
                  p.els[i].linked || Hosts(p.rbs, p.els[i].el)
  }

  /** The exact condition: unlinking a linked pipeline, which destroys every listed buffer, leaves no reference exactly
      if no element outside the chain that hosts nothing holds one. */
  lemma UnlinkRefsIff(p: Pipe)
    requires p.linked
    ensures Refs(Unlink(p)) <==> NoLoose(p)
  {
    var q := Unlink(p);
    forall i | 0 <= i < |p.els|
      ensures ElemRefs(q.els[i], q.rbs) <==>
                (Get(p.els[i].inp) != None || Get(p.els[i].out) != None ==>
                   p.els[i].linked || Hosts(p.rbs, p.els[i].el))
    {
      UnlinkLeavesDangling(p, i);
    }
    if Refs(q) {
      forall i | 0 <= i < |p.els| && (Get(p.els[i].inp) != None || Get(p.els[i].out) != None)
        ensures p.els[i].linked || Hosts(p.rbs, p.els[i].el)
      {
        assert ElemRefs(q.els[i], q.rbs);
      }
    }
  }

  // ---- breakup ----

  lemma DropRefs(p: Pipe, i: nat)
    requires Refs(p) && i < |p.els|
    ensures Refs(DropElem(p, i))
  {
    RefsFromOne(p, DropElem(p, i), i);
  }

  lemma KeepRefs(p: Pipe, i: nat)
    requires Refs(p) && i < |p.els|
    ensures Refs(KeepElem(p, i))
  {
    RefsFromOne(p, KeepElem(p, i), i);
  }

  lemma {:induction false} BreakRefs(p: Pipe, keptEl: Option<El>, keep: bool, i: nat)
    requires Refs(p) && i <= |p.els|
    ensures Refs(BreakFrom(p, keptEl, keep, i))
    decreases |p.els| - i
  {
    if i < |p.els| {
      if !p.els[i].linked {
        BreakRefs(p, keptEl, keep, i + 1);
      } else if !keep && Some(p.els[i].el) != keptEl {
        DropRefs(p, i);
        BreakRefs(DropElem(p, i), keptEl, keep, i + 1);
      } else {
        KeepRefs(p, i);
        BreakRefs(KeepElem(p, i), keptEl, keep && FindRb(p.rbs, Get(p.els[i].out)) == |p.rbs|, i + 1);
      }
    }
  }

  lemma BreakupRefs(p: Pipe, keptEl: Option<El>)
    requires Refs(p)
    ensures Refs(Breakup(p, keptEl))
  {
    BreakRefs(p, keptEl, true, 0);
    var b, q := BreakFrom(p, keptEl, true, 0), Breakup(p, keptEl);
    forall i | 0 <= i < |b.els|
      ensures ElemStep(b.els[i], q.els[i], q.rbs)
    {
    }
    RefsFrom(b, q);
  }

  lemma ElapseRefs(p: Pipe, states: seq<State>, bufs: seq<Ring>)
    requires Refs(p)
    ensures Refs(Elapsed(p, states, bufs))
  {
    var q := Elapsed(p, states, bufs);
    forall i | 0 <= i < |p.els|
      ensures ElemStep(p.els[i], q.els[i], q.rbs)
    {
    }
    RefsFrom(p, q);
  }

  // ---- runs ----

  /** Which calls leave no reference behind. Everything else is free: tags may be unknown or repeated, calls may fail
      part of the way, a pipeline broken up may be linked, kept elements may be left aside. */
  predicate Safe(p: Pipe, op: Op) {
    match op
    case DoLink(tags, stale) =>
      && (p.linked ==> NoLoose(p))
      && (RefOk(stale, Unlink(p).rbs) || GetsOwnMemo(p.els, tags, false))
    case DoUnlink => p.linked ==> NoLoose(p)
    case DoBreakup(_) => true
    case DoRelink(tags, stale) => p.linked || RefOk(stale, p.rbs) || GetsOwnMemo(p.els, tags, true)
    case Elapse(_, _) => true
  }

  lemma LinkRefs(p: Pipe, tags: seq<string>, stale: Option<Rb>)
    requires Refs(p) && Safe(p, DoLink(tags, stale))
    ensures Refs(Link(p, tags, stale).0)
  {
    if p.linked {
      UnlinkRefsIff(p);
    }
    LinkKeepsRefs();
    RefsWithMemo(Unlink(p), stale);
    ChainRefs(LINK_HELPER, false, Unlink(p).(memo := stale), tags, 0);
  }

  lemma ApplyRefs(p: Pipe, op: Op)
    requires Refs(p) && Safe(p, op)
    ensures Refs(Apply(p, op).0)
  {
    match op
    case DoLink(tags, stale) => LinkRefs(p, tags, stale);
    case DoUnlink =>
      if p.linked {
        UnlinkRefsIff(p);
      }
    case DoBreakup(keptEl) => BreakupRefs(p, keptEl);
    case DoRelink(tags, stale) =>
      if !p.linked {
        RelinkKeepsRefs();
        RefsWithMemo(p, stale);
        ChainRefs(RELINK_HELPER, true, p.(memo := stale), tags, 0);
      }
    case Elapse(states, bufs) => ElapseRefs(p, states, bufs);
  }

  ghost predicate SafeRun(p: Pipe, ops: seq<Op>) {
    forall n {:trigger ops[n]} :: 0 <= n < |ops| ==> Safe(Run(p, ops[..n]), ops[n])
  }

  lemma {:induction false} RunRefs(p: Pipe, ops: seq<Op>)
    requires Refs(p) && Accounted(p) && SafeRun(p, ops)
    ensures Refs(Run(p, ops)) && Accounted(Run(p, ops))
  {
    if ops != [] {
      var before := ops[..|ops| - 1];
      forall n | 0 <= n < |before|
        ensures Safe(Run(p, before[..n]), before[n])
      {
        assert before[..n] == ops[..n] && before[n] == ops[n];
      }
      RunRefs(p, before);
      ApplyRefs(Run(p, before), ops[|ops| - 1]);
      ApplyAccounts(Run(p, before), ops[|ops| - 1]);
    }
  }

  predicate Gone(p: Pipe, rb: Option<Rb>) {
    rb != None && rb.value in p.book.freed
  }

  lemma ListedIsNotGone(p: Pipe, rb: Option<Rb>)
    requires Accounted(p) && RefOk(rb, p.rbs)
    ensures !Gone(p, rb)
  {
    if rb != None {
      var b := rb.value;
      assert Ids(p.rbs)[FindRb(p.rbs, rb)] == b;
      BelowCounts(p.book.next, b);
      assert (multiset(Ids(p.rbs)) + multiset(p.book.freed))[b] == Below(p.book.next)[b];
    }
  }

  /** No element holds a buffer before the first link. */
  predicate Unconnected(p: Pipe) {
    && p.rbs == [] && p.book == Book(0, [])
    && forall i :: 0 <= i < |p.els| ==> Get(p.els[i].inp) == Get(p.els[i].out) == None
  }

  /** Over any run of calls, failing ones included, no element ever refers to a buffer that has been destroyed, as long
      as an unlink of a linked pipeline finds nothing loose and no call begins by handing on a stale static. */
  lemma {:induction false} NothingDanglesOverAnyRun(p: Pipe, ops: seq<Op>)
    requires Unconnected(p) && SafeRun(p, ops)
    ensures var q := Run(p, ops);
            forall i :: 0 <= i < |q.els| ==> !Gone(q, Get(q.els[i].inp)) && !Gone(q, Get(q.els[i].out))
  {
    assert Ids(p.rbs) == [];
    RunRefs(p, ops);
    var q := Run(p, ops);
    forall i | 0 <= i < |q.els|
      ensures !Gone(q, Get(q.els[i].inp)) && !Gone(q, Get(q.els[i].out))
    {
      assert ElemRefs(q.els[i], q.rbs);
      ListedIsNotGone(q, Get(q.els[i].inp));
      ListedIsNotGone(q, Get(q.els[i].out));
    }
  }

  // ---- the conditions are needed ----

  /** With one tag the static is handed on: the references stay in order exactly if it was. */
  lemma SingleTagRefsIff(p: Pipe, tag: string, stale: Option<Rb>)
    requires Refs(Unlink(p)) && FindTag(p.els, tag) < |p.els|
    ensures Refs(Link(p, [tag], stale).0) <==> RefOk(stale, Unlink(p).rbs)
  {
    var u, q, i := Unlink(p), Link(p, [tag], stale).0, FindTag(p.els, tag);
    if RefOk(stale, u.rbs) {
      LinkKeepsRefs();
      RefsWithMemo(u, stale);
      ChainRefs(LINK_HELPER, false, u.(memo := stale), [tag], 0);
    } else {
      SingleLinkIsStale(p, tag, stale);
      assert !ElemRefs(q.els[i], q.rbs);
    }
  }

  /** Unlinking turns precisely the loose references, which were to listed buffers, into dangling ones. */
  lemma LooseDangles(p: Pipe, i: nat)
    requires Refs(p) && p.linked && i < |p.els| && Get(p.els[i].inp) != None && !p.els[i].linked
    requires !Hosts(p.rbs, p.els[i].el)
    ensures |Unlink(p).els| == |p.els| && Unlink(p).els[i] == p.els[i] && Gone(Unlink(p), Get(p.els[i].inp))
  {
    assert ElemRefs(p.els[i], p.rbs);
    var j := FindRb(p.rbs, Get(p.els[i].inp));
    assert Ids(p.rbs)[j] == Get(p.els[i].inp).value;
  }

  /** No buffer comes to be hosted by an element except one that is being linked. */
  predicate SameHosting(p: Pipe, q: Pipe, el: El) {
    !Hosts(p.rbs, el) ==> !Hosts(q.rbs, el)
  }

  lemma HostsNothing(rbs: seq<Item>, el: El)
    requires forall j :: 0 <= j < |rbs| ==> rbs[j].host != Some(el)
    ensures !Hosts(rbs, el)
  {
  }

  lemma {:induction false} BreakHostsNoMore(p: Pipe, keptEl: Option<El>, keep: bool, i: nat, el: El)
    requires i <= |p.els|
    ensures SameHosting(p, BreakFrom(p, keptEl, keep, i), el)
    decreases |p.els| - i
  {
    if i < |p.els| {
      if !p.els[i].linked {
        BreakHostsNoMore(p, keptEl, keep, i + 1, el);
      } else if !keep && Some(p.els[i].el) != keptEl {
        BreakHostsNoMore(DropElem(p, i), keptEl, keep, i + 1, el);
      } else {
        var keep1 := keep && FindRb(p.rbs, Get(p.els[i].out)) == |p.rbs|;
        BreakHostsNoMore(KeepElem(p, i), keptEl, keep1, i + 1, el);
      }
    }
  }

  lemma BreakupHostsNoMore(p: Pipe, keptEl: Option<El>, el: El)
    ensures SameHosting(p, Breakup(p, keptEl), el)
  {
    BreakHostsNoMore(p, keptEl, true, 0, el);
  }

  lemma PickHosts(p: Pipe, i: nat, el: El)
    requires i < |p.els| && p.els[i].el != el && !Hosts(p.rbs, el)
    ensures forall j :: 0 <= j < |Pick(p, i).0.rbs| ==> Pick(p, i).0.rbs[j].host != Some(el)
  {
    var q := Pick(p, i).0;
    forall j | 0 <= j < |q.rbs|
      ensures q.rbs[j].host != Some(el)
    {
      assert p.rbs[j].host != Some(el);
    }
  }

  lemma RelinkOneHosts(p: Pipe, i: nat, first: bool, last: bool, el: El)
    requires i < |p.els| && p.els[i].el != el
    ensures SameHosting(p, RelinkOne(p, i, first, last), el)
  {
    if !Hosts(p.rbs, el) {
      PickHosts(p.(els := p.els[i := p.els[i].(linked := true)]), i, el);
      HostsNothing(RelinkOne(p, i, first, last).rbs, el);
    }
  }

  /** None of the tags from position `k` on stands for the element. */
  predicate NotTold(els: seq<Elem>, tags: seq<string>, k: nat, el: El) {
    forall m :: k <= m < |tags| && FindTag(els, tags[m]) < |els| ==> els[FindTag(els, tags[m])].el != el
  }

  lemma NotToldStays(els: seq<Elem>, els': seq<Elem>, tags: seq<string>, k: nat, el: El)
    requires SameElems(els, els') && NotTold(els, tags, k, el)
    ensures NotTold(els', tags, k + 1, el)
  {
    forall m | k + 1 <= m < |tags| && FindTag(els', tags[m]) < |els'|
      ensures els'[FindTag(els', tags[m])].el != el
    {
      FindTagStable(els, els', tags[m], 0);
    }
  }

  lemma {:induction false} RelinkHostsNoMore(p: Pipe, tags: seq<string>, k: nat, el: El)
    requires k <= |tags| && NotTold(p.els, tags, k, el)
    ensures SameHosting(p, ChainFrom(RELINK_HELPER, p, tags, k).0, el)
    decreases |tags| - k
  {
    if k < |tags| && FindTag(p.els, tags[k]) < |p.els| {
      var q := RelinkTurn(p, tags, k, el);
      RelinkHostsNoMore(q, tags, k + 1, el);
    }
  }

  lemma RelinkTurn(p: Pipe, tags: seq<string>, k: nat, el: El) returns (q: Pipe)
    requires k < |tags| && NotTold(p.els, tags, k, el) && FindTag(p.els, tags[k]) < |p.els|
    ensures SameHosting(p, q, el) && NotTold(q.els, tags, k + 1, el)
    ensures ChainFrom(RELINK_HELPER, p, tags, k) == ChainFrom(RELINK_HELPER, q, tags, k + 1)
  {
    var i := FindTag(p.els, tags[k]);
    q := RelinkOne(p, i, k == 0, k == |tags| - 1);
    RelinkOneHosts(p, i, k == 0, k == |tags| - 1, el);
    NotToldStays(p.els, q.els, tags, k, el);
  }

  /** A relink leaves the elements it is not told about alone. */
  lemma RelinkSparesOthers(q: Pipe, tags: seq<string>, stale: Option<Rb>, i: nat)
    requires Good(q) && !q.linked && IdsBelow(q.rbs, q.book.next) && Chainable(q.els, Resolve(q.els, tags))
    requires i < |q.els| && i !in Resolve(q.els, tags)
    ensures var r := Relink(q, tags, stale).0; |r.els| == |q.els| && r.els[i] == q.els[i]
  {
    var v, ix := q.(memo := stale), Resolve(q.els, tags);
    RelinkHelperOk();
    ReadyAtStart(q, tags, stale);
    var ps := MakeTrail(RELINK_HELPER, false, v, tags, ix, 0);
    BetweenUntouched(ps, ix, 0, 0, |ix|, i);
  }

  /** The last element of a chain, hosting no buffer, is named as the one to keep: it has no output to keep, so it is
      let go with its input still set. If the pipeline is then relinked without it and unlinked, it refers to a
      destroyed buffer. */
  lemma StrayInputDangles(p: Pipe, i: nat, tags: seq<string>, stale: Option<Rb>)
    requires Held(p) && Refs(p) && Chainable(p.els, Resolve(p.els, tags))
    requires i < |p.els| && i !in Resolve(p.els, tags) && !Hosts(p.rbs, p.els[i].el)
    requires p.els[i].linked && Get(p.els[i].out) == None && Get(p.els[i].inp) != None
    ensures var r := Relink(Breakup(p, Some(p.els[i].el)), tags, stale).0;
            && |Unlink(r).els| == |p.els| && Get(Unlink(r).els[i].inp) == Get(p.els[i].inp)
            && Gone(Unlink(r), Get(p.els[i].inp))
  {
    var q := Breakup(p, Some(p.els[i].el));
    InputIsOverlooked(p, i);
    BreakupFacts(p, Some(p.els[i].el));
    BreakupRefs(p, Some(p.els[i].el));
    BreakupHostsNoMore(p, Some(p.els[i].el), p.els[i].el);
    ResolveStable(p.els, q.els, tags);
    StrayStaysLoose(q, i, tags, stale);
    LooseDangles(Relink(q, tags, stale).0, i);
  }

  lemma StrayStaysLoose(q: Pipe, i: nat, tags: seq<string>, stale: Option<Rb>)
    requires Good(q) && !q.linked && IdsBelow(q.rbs, q.book.next) && Chainable(q.els, Resolve(q.els, tags)) && Refs(q)
    requires i < |q.els| && i !in Resolve(q.els, tags) && !Hosts(q.rbs, q.els[i].el)
    ensures var r := Relink(q, tags, stale).0;
            r.linked && Refs(r) && |r.els| == |q.els| && r.els[i] == q.els[i] && !Hosts(r.rbs, q.els[i].el)
  {
    var v, ix := q.(memo := stale), Resolve(q.els, tags);
    RelinkSparesOthers(q, tags, stale, i);
    RelinkRestoresKept(q, tags, stale);
    ApplyRefs(q, DoRelink(tags, stale));
    forall m | 0 <= m < |tags| && FindTag(v.els, tags[m]) < |v.els|
      ensures v.els[FindTag(v.els, tags[m])].el != q.els[i].el
    {
      assert ix[m] in ix;
    }
    RelinkHostsNoMore(v, tags, 0, q.els[i].el);
  }

  lemma InputIsOverlooked(p: Pipe, i: nat)
    requires Good(p) && i < |p.els| && p.els[i].linked && Get(p.els[i].out) == None && Get(p.els[i].inp) != None
    ensures var q := Breakup(p, Some(p.els[i].el));
            |q.els| == |p.els| && !q.els[i].linked && Get(q.els[i].inp) == Get(p.els[i].inp)
  {
    var keptEl := Some(p.els[i].el);
    BreakupKeeps(p, keptEl);
    assert BrokenElem(p.els, keptEl, true, 0, i, Breakup(p, keptEl).els[i]);
    assert Overlooked(p.els, keptEl, true, 0, i);
  }
}
