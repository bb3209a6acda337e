/** Whole runs of pipeline calls: who owns the buffers, and what holds between any two calls. */
module PipelineRuns {
  import opened AudioTypes
  import opened RingTypes
  import opened PipelineSpec
  import opened PipelineChain
  import opened PipelineRelink
  import opened PipelineLink

  /** A call, with what the static of the helper held before it; or tasks at work between two calls. */
  datatype Op =
    | DoLink(tags: seq<string>, stale: Option<Rb>)
    | DoUnlink
    | DoBreakup(keptEl: Option<El>)
    | DoRelink(tags: seq<string>, stale: Option<Rb>)
    | Elapse(states: seq<State>, bufs: seq<Ring>)

  /** Tasks change the states of elements and the contents of buffers, and nothing else of a pipeline. */
  function Elapsed(p: Pipe, states: seq<State>, bufs: seq<Ring>): Pipe {
    p.(els := seq(|p.els|, i requires 0 <= i < |p.els| =>
                    if i < |states| then p.els[i].(state := states[i]) else p.els[i]),
       rbs := seq(|p.rbs|, j requires 0 <= j < |p.rbs| =>
                    if j < |bufs| then p.rbs[j].(buf := bufs[j]) else p.rbs[j]))
  }

  function Apply(p: Pipe, op: Op): (Pipe, Err) {
    match op
    case DoLink(tags, stale) => Link(p, tags, stale)
    case DoUnlink => (Unlink(p), Ok)
    case DoBreakup(keptEl) => (Breakup(p, keptEl), Ok)
    case DoRelink(tags, stale) => Relink(p, tags, stale)
    case Elapse(states, bufs) => (Elapsed(p, states, bufs), Ok)
  }

  function Run(p: Pipe, ops: seq<Op>): Pipe {
    if ops == [] then p else Apply(Run(p, ops[..|ops| - 1]), ops[|ops| - 1]).0
  }

  // ---- ownership, over any calls whatever, failing ones included ----

  ghost function Below(n: nat): multiset<Rb> {
    if n == 0 then multiset{} else Below(n - 1) + multiset{n - 1}
  }

  lemma {:induction false} BelowCounts(n: nat, b: Rb)
    ensures Below(n)[b] == if b < n then 1 else 0
  {
    if n > 0 {
      BelowCounts(n - 1, b);
    }
  }

  /** Every buffer ever created is listed once or destroyed once, never both. */
  ghost predicate Accounted(p: Pipe) {
    multiset(Ids(p.rbs)) + multiset(p.book.freed) == Below(p.book.next)
  }

  /** A helper lists at most one buffer, and only one it has just created. */
  predicate BookStep(p: Pipe, q: Pipe) {
    && q.book.freed == p.book.freed
    && (|| (q.book.next == p.book.next && Ids(q.rbs) == Ids(p.rbs))
        || (q.book.next == p.book.next + 1 && Ids(q.rbs) == Ids(p.rbs) + [p.book.next]))
  }

  predicate BookPromise(h: Helper, p: Pipe, i: nat, first: bool, last: bool) {
    BookStep(p, h(p, i, first, last).0)
  }

  ghost predicate Books(h: Helper) {
    forall p: Pipe, i: nat, first: bool, last: bool {:trigger BookPromise(h, p, i, first, last)} ::
      BookPromise(h, p, i, first, last)
  }

  lemma AppendedIds(rbs: seq<Item>, it: Item)
    ensures Ids(rbs + [it]) == Ids(rbs) + [it.rb]
  {
  }

  lemma LinkBooks()
    ensures Books(LINK_HELPER)
  {
    forall p: Pipe, i: nat, first: bool, last: bool
      ensures BookPromise(LINK_HELPER, p, i, first, last)
    {
      if i < |p.els| && !last && p.els[i].rbSize >= 2 {
        AppendedIds(p.rbs, NewItem(p, i, p.book.next));
      }
    }
  }

  lemma PickBooks(p: Pipe, i: nat)
    requires i < |p.els|
    ensures Ids(Pick(p, i).0.rbs) == Ids(p.rbs)
  {
  }

  lemma RelinkBooks()
    ensures Books(RELINK_HELPER)
  {
    forall p: Pipe, i: nat, first: bool, last: bool
      ensures BookPromise(RELINK_HELPER, p, i, first, last)
    {
      if i < |p.els| {
        RelinkOneBooks(p, i, first, last);
      }
    }
  }

  lemma RelinkOneBooks(p0: Pipe, i: nat, first: bool, last: bool)
    requires i < |p0.els|
    ensures BookStep(p0, RelinkOne(p0, i, first, last))
  {
    var u := p0.(els := p0.els[i := p0.els[i].(linked := true)]);
    PickBooks(u, i);
    var (p, cur) := Pick(u, i);
    if !last && cur == None && p.els[i].rbSize >= 2 {
      AppendedIds(p.rbs, NewItem(p, i, p.book.next));
    }
  }

  lemma BookStepAccounts(p: Pipe, q: Pipe)
    requires BookStep(p, q)
    ensures KeepsAccount(p, q)
  {
    if q.book.next == p.book.next + 1 {
      assert Below(q.book.next) == Below(p.book.next) + multiset{p.book.next};
    }
  }

  /** The same destroyed buffers, and still every buffer in one place. */
  ghost predicate KeepsAccount(p: Pipe, q: Pipe) {
    (Accounted(p) ==> Accounted(q)) && q.book.freed == p.book.freed
  }

  /** A relation that composes and does not look at the linked flag. */
  ghost predicate Composes(r: (Pipe, Pipe) -> bool) {
    && (forall p: Pipe :: r(p, p) && r(p, p.(linked := true)))
    && (forall p: Pipe, q: Pipe, t: Pipe {:trigger r(p, q), r(q, t)} :: r(p, q) && r(q, t) ==> r(p, t))
  }

  predicate StepRelates(h: Helper, r: (Pipe, Pipe) -> bool, p: Pipe, i: nat, first: bool, last: bool) {
    r(p, h(p, i, first, last).0)
  }

  /** What every step of a helper does, its loop does. */
  lemma {:induction false} ChainRelates(h: Helper, r: (Pipe, Pipe) -> bool, p: Pipe, tags: seq<string>, k: nat)
    requires Composes(r) && k <= |tags|
    requires forall p: Pipe, i: nat, first: bool, last: bool {:trigger StepRelates(h, r, p, i, first, last)} ::
               StepRelates(h, r, p, i, first, last)
    ensures r(p, ChainFrom(h, p, tags, k).0)
    decreases |tags| - k
  {
    if k < |tags| {
      var i := FindTag(p.els, tags[k]);
      if i < |p.els| {
        assert StepRelates(h, r, p, i, k == 0, k == |tags| - 1);
        ChainRelates(h, r, h(p, i, k == 0, k == |tags| - 1).0, tags, k + 1);
      }
    }
  }

  lemma ChainAccounts(h: Helper, p: Pipe, tags: seq<string>)
    requires Books(h)
    ensures KeepsAccount(p, ChainFrom(h, p, tags, 0).0)
  {
    ghost var r: (Pipe, Pipe) -> bool := (p: Pipe, q: Pipe) => KeepsAccount(p, q);
    forall p: Pipe, i: nat, first: bool, last: bool
      ensures StepRelates(h, r, p, i, first, last)
    {
      assert BookPromise(h, p, i, first, last);
      BookStepAccounts(p, h(p, i, first, last).0);
    }
    ChainRelates(h, r, p, tags, 0);
  }

  lemma {:induction false} BreakBooks(p: Pipe, keptEl: Option<El>, keep: bool, i: nat)
    requires i <= |p.els|
    ensures var q := BreakFrom(p, keptEl, keep, i); Ids(q.rbs) == Ids(p.rbs) && q.book == p.book && q.memo == p.memo
    decreases |p.els| - i
  {
    if i < |p.els| {
      if !p.els[i].linked {
        BreakBooks(p, keptEl, keep, i + 1);
      } else if !keep && Some(p.els[i].el) != keptEl {
        assert Ids(DropElem(p, i).rbs) == Ids(p.rbs);
        BreakBooks(DropElem(p, i), keptEl, keep, i + 1);
      } else {
        var keep1 := keep && FindRb(p.rbs, Get(p.els[i].out)) == |p.rbs|;
        assert Ids(KeepElem(p, i).rbs) == Ids(p.rbs);
        BreakBooks(KeepElem(p, i), keptEl, keep1, i + 1);
      }
    }
  }

  predicate Destroys(p: Pipe, op: Op) {
    p.linked && (op.DoLink? || op.DoUnlink?)
  }

  lemma UnlinkAccounts(p: Pipe)
    requires Accounted(p)
    ensures Accounted(Unlink(p))
    ensures Unlink(p).book.freed == p.book.freed + (if p.linked then Ids(p.rbs) else [])
  {
    assert p.linked ==> Ids(Unlink(p).rbs) == [];
  }

  lemma LinkAccounts(p: Pipe, tags: seq<string>, stale: Option<Rb>)
    requires Accounted(p)
    ensures KeepsAccount(Unlink(p), Link(p, tags, stale).0)
  {
    UnlinkAccounts(p);
    LinkBooks();
    ChainAccounts(LINK_HELPER, Unlink(p).(memo := stale), tags);
  }

  lemma BreakupAccounts(p: Pipe, keptEl: Option<El>)
    ensures KeepsAccount(p, Breakup(p, keptEl))
  {
    BreakBooks(p, keptEl, true, 0);
    var q := BreakFrom(p, keptEl, true, 0);
    assert Ids(ReleaseAll(q.rbs)) == Ids(q.rbs);
  }

  lemma RelinkAccounts(p: Pipe, tags: seq<string>, stale: Option<Rb>)
    ensures KeepsAccount(p, Relink(p, tags, stale).0)
  {
    if !p.linked {
      RelinkBooks();
      ChainAccounts(RELINK_HELPER, p.(memo := stale), tags);
    }
  }

  lemma ElapseAccounts(p: Pipe, states: seq<State>, bufs: seq<Ring>)
    ensures KeepsAccount(p, Elapsed(p, states, bufs))
  {
    assert Ids(Elapsed(p, states, bufs).rbs) == Ids(p.rbs);
  }

  /** What happens to the destroyed buffers in a call: unlinking a linked pipeline destroys every listed one. */
  ghost predicate Accounts(p: Pipe, op: Op, q: Pipe) {
    Accounted(q) && q.book.freed == p.book.freed + (if Destroys(p, op) then Ids(p.rbs) else [])
  }

  lemma DestroyingAccounts(p: Pipe, op: Op)
    requires Accounted(p) && (op.DoLink? || op.DoUnlink?)
    ensures Accounts(p, op, Apply(p, op).0)
  {
    UnlinkAccounts(p);
    if op.DoLink? {
      LinkAccounts(p, op.tags, op.stale);
    }
  }

  lemma KeepingAccounts(p: Pipe, op: Op, q: Pipe)
    requires Accounted(p) && KeepsAccount(p, q) && !Destroys(p, op)
    ensures Accounts(p, op, q)
  {
  }

  /** No call loses track of a buffer. Buffers are destroyed only by unlinking a linked pipeline; `Link` does that
      first. */
  lemma ApplyAccounts(p: Pipe, op: Op)
    requires Accounted(p)
    ensures Accounts(p, op, Apply(p, op).0)
  {
    match op
    case DoLink(_, _) => DestroyingAccounts(p, op);
    case DoUnlink => DestroyingAccounts(p, op);
    case DoBreakup(keptEl) => BreakupAccounts(p, keptEl); KeepingAccounts(p, op, Breakup(p, keptEl));
    case DoRelink(tags, stale) => RelinkAccounts(p, tags, stale); KeepingAccounts(p, op, Relink(p, tags, stale).0);
    case Elapse(states, bufs) => ElapseAccounts(p, states, bufs); KeepingAccounts(p, op, Elapsed(p, states, bufs));
  }

  /** Over any sequence of calls whatever, successful or not: a buffer that was ever created is in the list exactly
      once or has been destroyed exactly once, and no other handle is in either place. */
  lemma {:induction false} OwnershipOverAnyRun(p: Pipe, ops: seq<Op>)
    requires p.rbs == [] && p.book == Book(0, [])
    ensures var q := Run(p, ops);
            && Accounted(q)
            && forall b: Rb :: multiset(Ids(q.rbs))[b] + multiset(q.book.freed)[b] == if b < q.book.next then 1 else 0
  {
    if ops == [] {
      assert Ids(p.rbs) == [];
    } else {
      OwnershipOverAnyRun(p, ops[..|ops| - 1]);
      ApplyAccounts(Run(p, ops[..|ops| - 1]), ops[|ops| - 1]);
    }
    var q := Run(p, ops);
    forall b: Rb
      ensures multiset(Ids(q.rbs))[b] + multiset(q.book.freed)[b] == if b < q.book.next then 1 else 0
    {
      BelowCounts(q.book.next, b);
      assert (multiset(Ids(q.rbs)) + multiset(q.book.freed))[b] == Below(q.book.next)[b];
    }
  }

  // ---- the linker's invariant, when each call is made where it may be ----

  /** What holds between calls, once buffers have been there. */
  ghost predicate Held(p: Pipe) {
    Good(p) && IdsBelow(p.rbs, p.book.next)
  }

  predicate MayUnlink(p: Pipe) {
    p.linked ==> NoneKept(p)
  }

  /** Where a call may be made. A pipeline broken up is relinked, not linked; one with a kept element is not unlinked
      until that element is back in the chain. */
  predicate Allowed(p: Pipe, op: Op) {
    match op
    case DoLink(tags, _) => Chainable(p.els, Resolve(p.els, tags)) && (p.linked || p.rbs == []) && MayUnlink(p)
    case DoUnlink => MayUnlink(p)
    case DoBreakup(_) => true
    case DoRelink(tags, _) => p.linked || Chainable(p.els, Resolve(p.els, tags))
    case Elapse(_, _) => true
  }

  lemma NothingKeptWithoutBuffers(p: Pipe)
    requires Good(p) && p.rbs == []
    ensures NoneKept(p)
  {
    forall i | 0 <= i < |p.els|
      ensures !p.els[i].kept
    {
      assert ElemOk(p.els[i], p.rbs);
    }
  }

  lemma LinkKeepsInv(p: Pipe, tags: seq<string>, stale: Option<Rb>)
    requires Held(p) && Allowed(p, DoLink(tags, stale))
    ensures var (q, err) := Link(p, tags, stale); Held(q) && q.linked && q.rbs != [] && err == Ok
  {
    if p.rbs == [] {
      NothingKeptWithoutBuffers(p);
    }
    LinkIsGood(p, tags, stale);
  }

  lemma UnlinkKeepsInv(p: Pipe)
    requires Held(p) && MayUnlink(p)
    ensures Held(Unlink(p))
  {
    if p.linked {
      UnlinkIsGood(p);
    }
  }

  lemma BreakupKeepsInv(p: Pipe, keptEl: Option<El>)
    requires Held(p)
    ensures Held(Breakup(p, keptEl))
  {
    BreakupKeeps(p, keptEl);
  }

  lemma RelinkKeepsInv(p: Pipe, tags: seq<string>, stale: Option<Rb>)
    requires Held(p) && !p.linked && Chainable(p.els, Resolve(p.els, tags))
    ensures var (q, err) := Relink(p, tags, stale); Held(q) && q.linked && q.rbs != [] && err == Ok
  {
    RelinkRestoresKept(p, tags, stale);
  }

  lemma ElapseKeepsElems(p: Pipe, q: Pipe, states: seq<State>, bufs: seq<Ring>)
    requires Good(p) && q == Elapsed(p, states, bufs)
    ensures AllElemOk(q.els, q.rbs)
  {
    forall i | 0 <= i < |q.els|
      ensures ElemOk(q.els[i], q.rbs)
    {
      assert ElemOk(p.els[i], p.rbs);
      if Get(p.els[i].out) != None {
        FirstIs(q.rbs, q.els[i].el, FindHost(p.rbs, p.els[i].el));
      }
    }
  }

  lemma ElapseKeepsHosts(p: Pipe, q: Pipe, states: seq<State>, bufs: seq<Ring>)
    requires Good(p) && q == Elapsed(p, states, bufs)
    ensures AllHostOk(q.els, q.rbs) && AllUseOk(q.els, q.rbs)
  {
    forall i, j | 0 <= i < |q.els| && 0 <= j < |q.rbs|
      ensures HostOk(q.els[i], q.rbs[j]) && UseOk(q.els[i], q.rbs[j])
    {
      assert HostOk(p.els[i], p.rbs[j]) && UseOk(p.els[i], p.rbs[j]);
    }
  }

  lemma ElapseKeepsGood(p: Pipe, q: Pipe, states: seq<State>, bufs: seq<Ring>)
    requires Good(p) && q == Elapsed(p, states, bufs)
    ensures Good(q)
  {
    ElapseKeepsElems(p, q, states, bufs);
    ElapseKeepsHosts(p, q, states, bufs);
  }

  lemma ElapseKeepsInv(p: Pipe, states: seq<State>, bufs: seq<Ring>)
    requires Held(p)
    ensures Held(Elapsed(p, states, bufs))
  {
    var q := Elapsed(p, states, bufs);
    ElapseKeepsGood(p, q, states, bufs);
  }

  /** Every call made where it may be succeeds, unless it relinks a linked pipeline. */
  lemma ApplyKeepsHeld(p: Pipe, op: Op)
    requires Held(p) && Allowed(p, op)
    ensures var (q, err) := Apply(p, op); Held(q) && (err == Ok <==> !(op.DoRelink? && p.linked))
  {
    match op
    case DoLink(tags, stale) => LinkKeepsInv(p, tags, stale);
    case DoUnlink => UnlinkKeepsInv(p);
    case DoBreakup(keptEl) => BreakupKeepsInv(p, keptEl);
    case DoRelink(tags, stale) =>
      if !p.linked {
        RelinkKeepsInv(p, tags, stale);
      }
    case Elapse(states, bufs) => ElapseKeepsInv(p, states, bufs);
  }

  // ---- before the first link, when registration has flagged every element as linked ----

  /** Elements have been registered, and none holds a buffer; their linked flags may be anything. */
  predicate Registered(p: Pipe) {
    && p.rbs == [] && !p.linked && DistinctEls(p.els)
    && forall i :: 0 <= i < |p.els| ==> var e := p.els[i]; !e.kept && Get(e.inp) == None && Get(e.out) == None
  }

  function Unflagged(p: Pipe): Pipe {
    p.(els := seq(|p.els|, i requires 0 <= i < |p.els| => p.els[i].(linked := false)))
  }

  /** The same but for linked flags: `q` may have more of them, on elements that are not kept. */
  predicate Agree(p: Pipe, q: Pipe) {
    && q == p.(els := q.els) && |q.els| == |p.els|
    && forall i {:trigger q.els[i]} :: 0 <= i < |p.els| ==>
                                         && q.els[i] == p.els[i].(linked := q.els[i].linked)
                                         && (p.els[i].linked || p.els[i].kept ==> q.els[i] == p.els[i])
  }

  predicate AgreePromise(h: Helper, p: Pipe, q: Pipe, i: nat, first: bool, last: bool) {
    Agree(p, q) ==>
      && Agree(h(p, i, first, last).0, h(q, i, first, last).0)
      && h(p, i, first, last).1 == h(q, i, first, last).1
  }

  ghost predicate Agrees(h: Helper) {
    forall p: Pipe, q: Pipe, i: nat, first: bool, last: bool {:trigger AgreePromise(h, p, q, i, first, last)} ::
      AgreePromise(h, p, q, i, first, last)
  }

  /** Two calls do the same to element `i` and to everything that is not an element. */
  predicate SameUpdate(p: Pipe, q: Pipe, i: nat, p': Pipe, q': Pipe) {
    && i < |p.els| == |q.els| && |p'.els| == |p.els| && |q'.els| == |q.els|
    && p'.els == p.els[i := p'.els[i]] && q'.els == q.els[i := p'.els[i]]
    && p'.els[i].linked && q' == p'.(els := q'.els)
  }

  lemma SameUpdateAgrees(p: Pipe, q: Pipe, i: nat, p': Pipe, q': Pipe)
    requires Agree(p, q) && SameUpdate(p, q, i, p', q')
    ensures Agree(p', q')
  {
  }

  lemma LinkOneUpdates(p: Pipe, q: Pipe, i: nat, first: bool, last: bool)
    requires Agree(p, q) && i < |p.els|
    ensures SameUpdate(p, q, i, LinkOne(p, i, first, last).0, LinkOne(q, i, first, last).0)
    ensures LinkOne(p, i, first, last).1 == LinkOne(q, i, first, last).1
  {
    assert q.els[i] == p.els[i].(linked := q.els[i].linked);
  }

  lemma LinkHelperAgrees()
    ensures Agrees(LINK_HELPER)
  {
    forall p: Pipe, q: Pipe, i: nat, first: bool, last: bool
      ensures AgreePromise(LINK_HELPER, p, q, i, first, last)
    {
      if Agree(p, q) && i < |p.els| {
        LinkOneUpdates(p, q, i, first, last);
        SameUpdateAgrees(p, q, i, LinkOne(p, i, first, last).0, LinkOne(q, i, first, last).0);
      }
    }
  }

  lemma PickUpdates(p: Pipe, q: Pipe, i: nat)
    requires i < |p.els| == |q.els| && q == p.(els := q.els) && q.els[i] == p.els[i]
    ensures var (p', cur) := Pick(p, i);
            var q' := Pick(q, i).0;
            && Pick(q, i).1 == cur && q' == p'.(els := q'.els) && p'.book == p.book && p'.memo == p.memo
            && p'.els == p.els[i := p'.els[i]] && q'.els == q.els[i := p'.els[i]] && p'.els[i].linked == p.els[i].linked
  {
  }

  lemma RelinkOneUpdates(p: Pipe, q: Pipe, i: nat, first: bool, last: bool)
    requires Agree(p, q) && i < |p.els|
    ensures SameUpdate(p, q, i, RelinkOne(p, i, first, last), RelinkOne(q, i, first, last))
  {
    assert q.els[i] == p.els[i].(linked := q.els[i].linked);
    PickUpdates(p.(els := p.els[i := p.els[i].(linked := true)]), q.(els := q.els[i := q.els[i].(linked := true)]), i);
  }

  lemma RelinkHelperAgrees()
    ensures Agrees(RELINK_HELPER)
  {
    forall p: Pipe, q: Pipe, i: nat, first: bool, last: bool
      ensures AgreePromise(RELINK_HELPER, p, q, i, first, last)
    {
      if Agree(p, q) && i < |p.els| {
        RelinkOneUpdates(p, q, i, first, last);
        SameUpdateAgrees(p, q, i, RelinkOne(p, i, first, last), RelinkOne(q, i, first, last));
      }
    }
  }

  lemma {:induction false} ChainAgrees(h: Helper, p: Pipe, q: Pipe, tags: seq<string>, k: nat)
    requires Agrees(h) && Agree(p, q) && k <= |tags|
    ensures Agree(ChainFrom(h, p, tags, k).0, ChainFrom(h, q, tags, k).0)
    decreases |tags| - k
  {
    if k < |tags| {
      FindTagStable(p.els, q.els, tags[k], 0);
      var i := FindTag(p.els, tags[k]);
      if i < |p.els| {
        assert AgreePromise(h, p, q, i, k == 0, k == |tags| - 1);
        ChainAgrees(h, h(p, i, k == 0, k == |tags| - 1).0, h(q, i, k == 0, k == |tags| - 1).0, tags, k + 1);
      }
    }
  }

  lemma AgreeingIsHeld(p: Pipe, q: Pipe)
    requires Held(p) && p.linked && p.rbs != [] && Agree(p, q)
    ensures Held(q)
  {
    forall i | 0 <= i < |q.els|
      ensures ElemOk(q.els[i], q.rbs)
    {
      assert ElemOk(p.els[i], p.rbs);
    }
    forall i, j | 0 <= i < |q.els| && 0 <= j < |q.rbs|
      ensures HostOk(q.els[i], q.rbs[j]) && UseOk(q.els[i], q.rbs[j])
    {
      assert HostOk(p.els[i], p.rbs[j]) && UseOk(p.els[i], p.rbs[j]);
    }
  }

  lemma UnflaggedIsHeld(p: Pipe)
    requires Registered(p)
    ensures Held(Unflagged(p)) && NoneKept(Unflagged(p)) && Agree(Unflagged(p), p)
    ensures SameElems(p.els, Unflagged(p).els)
  {
    var u := Unflagged(p);
    forall i | 0 <= i < |u.els|
      ensures ElemOk(u.els[i], u.rbs)
    {
    }
  }

  lemma FirstLinkIsHeld(p: Pipe, tags: seq<string>, stale: Option<Rb>)
    requires Registered(p) && Chainable(p.els, Resolve(p.els, tags))
    ensures Held(Link(p, tags, stale).0)
  {
    var u := Unflagged(p);
    UnflaggedIsHeld(p);
    ResolveStable(p.els, u.els, tags);
    LinkKeepsInv(u, tags, stale);
    LinkHelperAgrees();
    ChainAgrees(LINK_HELPER, u.(memo := stale), p.(memo := stale), tags, 0);
    AgreeingIsHeld(Link(u, tags, stale).0, Link(p, tags, stale).0);
  }

  lemma FirstRelinkIsHeld(p: Pipe, tags: seq<string>, stale: Option<Rb>)
    requires Registered(p) && Chainable(p.els, Resolve(p.els, tags))
    ensures Held(Relink(p, tags, stale).0)
  {
    var u := Unflagged(p);
    UnflaggedIsHeld(p);
    ResolveStable(p.els, u.els, tags);
    RelinkKeepsInv(u, tags, stale);
    RelinkHelperAgrees();
    ChainAgrees(RELINK_HELPER, u.(memo := stale), p.(memo := stale), tags, 0);
    AgreeingIsHeld(Relink(u, tags, stale).0, Relink(p, tags, stale).0);
  }

  lemma {:induction false} BreakKeepsRegistered(p: Pipe, keptEl: Option<El>, keep: bool, i: nat)
    requires Registered(p) && i <= |p.els|
    ensures Registered(BreakFrom(p, keptEl, keep, i))
    decreases |p.els| - i
  {
    if i < |p.els| {
      if !p.els[i].linked {
        BreakKeepsRegistered(p, keptEl, keep, i + 1);
      } else if !keep && Some(p.els[i].el) != keptEl {
        BreakKeepsRegistered(DropElem(p, i), keptEl, keep, i + 1);
      } else {
        var keep1 := keep && FindRb(p.rbs, Get(p.els[i].out)) == |p.rbs|;
        BreakKeepsRegistered(KeepElem(p, i), keptEl, keep1, i + 1);
      }
    }
  }

  ghost predicate RunInv(p: Pipe) {
    Held(p) || Registered(p)
  }

  /** Every call made where it may be keeps the invariant. */
  lemma ApplyKeepsInv(p: Pipe, op: Op)
    requires RunInv(p) && Allowed(p, op)
    ensures RunInv(Apply(p, op).0)
  {
    if Held(p) {
      ApplyKeepsHeld(p, op);
    } else if op.DoLink? {
      FirstLinkIsHeld(p, op.tags, op.stale);
    } else if op.DoRelink? {
      FirstRelinkIsHeld(p, op.tags, op.stale);
    } else if op.DoBreakup? {
      BreakKeepsRegistered(p, op.keptEl, true, 0);
    }
  }

  ghost predicate AllowedRun(p: Pipe, ops: seq<Op>) {
    forall n {:trigger ops[n]} :: 0 <= n < |ops| ==> Allowed(Run(p, ops[..n]), ops[n])
  }

  /** From the registration of distinct elements on, over any run of calls made where they may be. */
  lemma {:induction false} RunKeepsInv(p: Pipe, ops: seq<Op>)
    requires RunInv(p) && AllowedRun(p, ops)
    ensures RunInv(Run(p, ops))
  {
    if ops != [] {
      var before := ops[..|ops| - 1];
      forall n | 0 <= n < |before|
        ensures Allowed(Run(p, before[..n]), before[n])
      {
        assert before[..n] == ops[..n] && before[n] == ops[n];
      }
      RunKeepsInv(p, before);
      ApplyKeepsInv(Run(p, before), ops[|ops| - 1]);
    }
  }

  // ---- breakup followed by relink ----

  /** Whether a breakup leaves element `i` flagged kept. */
  predicate KeptBy(els: seq<Elem>, keptEl: Option<El>, i: nat)
    requires i < |els|
  {
    if els[i].linked then Chosen(els, keptEl, true, 0, i) else els[i].kept
  }

  /** From before the breakup to after the relink: a kept element has the same output with the same pending bytes,
      any other gets an empty buffer with all flags clear. */
  predicate Carried(p: Pipe, keptEl: Option<El>, r: Pipe, i: nat)
    requires i < |p.els| && |r.els| == |p.els|
  {
    var (e, f) := (p.els[i], r.els[i]);
    && OutBuf(f, r.rbs) != None
    && (if KeptBy(p.els, keptEl, i) then Get(f.out) == Get(e.out) && OutBuf(f, r.rbs) == OutBuf(e, p.rbs)
        else EmptyAndClear(OutBuf(f, r.rbs).value))
  }

  lemma BreakupFacts(p: Pipe, keptEl: Option<El>)
    requires Good(p) && IdsBelow(p.rbs, p.book.next)
    ensures var q := Breakup(p, keptEl);
            Good(q) && !q.linked && IdsBelow(q.rbs, q.book.next) && SameElems(p.els, q.els)
  {
    BreakupKeeps(p, keptEl);
    BreakBooks(p, keptEl, true, 0);
    var q := Breakup(p, keptEl);
    forall i | 0 <= i < |p.els|
      ensures SameElem(p.els[i], q.els[i])
    {
      assert BrokenElem(p.els, keptEl, true, 0, i, q.els[i]);
    }
  }

  /** A kept element still has its output, with its bytes, after the breakup. */
  lemma BreakupKeepsBytes(p: Pipe, keptEl: Option<El>, i: nat)
    requires Good(p) && i < |p.els|
    ensures var q := Breakup(p, keptEl);
            && |q.els| == |p.els|
            && (q.els[i].kept <==> KeptBy(p.els, keptEl, i))
            && (q.els[i].kept ==> q.els[i].out == p.els[i].out && OutBuf(q.els[i], q.rbs) == OutBuf(p.els[i], p.rbs))
  {
    var q := Breakup(p, keptEl);
    BreakupKeeps(p, keptEl);
    assert BrokenElem(p.els, keptEl, true, 0, i, q.els[i]);
    if q.els[i].kept {
      assert ElemOk(q.els[i], q.rbs);
      var j := FindHost(q.rbs, q.els[i].el);
      assert q.rbs[j].kept;
      OutBufIs(q.els[i], q.rbs, j);
      OutBufIs(p.els[i], p.rbs, j);
    }
  }

  /** Breaking up and relinking: the new chain is joined through distinct buffers, kept elements in non-last positions
      have their old outputs with precisely the bytes pending there, and all other links start empty. */
  lemma BreakupThenRelink(p: Pipe, keptEl: Option<El>, tags: seq<string>, stale: Option<Rb>)
    requires Good(p) && IdsBelow(p.rbs, p.book.next) && Chainable(p.els, Resolve(p.els, tags))
    ensures var (r, err) := Relink(Breakup(p, keptEl), tags, stale);
            var ix := Resolve(p.els, tags);
            && err == Ok && r.linked && Good(r) && |r.els| == |p.els|
            && (forall m :: 0 <= m < |ix| - 1 ==> Carried(p, keptEl, r, ix[m]) && Joined(r, ix[m], ix[m + 1]))
            && (forall m, l :: 0 <= m < l < |ix| - 1 ==> Get(r.els[ix[m]].out) != Get(r.els[ix[l]].out))
  {
    var q, ix := Breakup(p, keptEl), Resolve(p.els, tags);
    BreakupFacts(p, keptEl);
    ResolveStable(p.els, q.els, tags);
    RelinkRestoresKept(q, tags, stale);
    var r := Relink(q, tags, stale).0;
    forall m | 0 <= m < |ix| - 1
      ensures Carried(p, keptEl, r, ix[m])
    {
      BreakupKeepsBytes(p, keptEl, ix[m]);
      assert Relinked(q.els[ix[m]], q.rbs, r.els[ix[m]], r.rbs);
    }
  }
}
