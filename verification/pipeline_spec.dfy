/** Names shared by the pipeline and its elements. */
module AudioTypes {
  datatype Option<+T> = None | Some(value: T)

  /** `audio_element_state_t`, in the order of its numeric values. */
  datatype State = NoState | Init | Initializing | Running | Paused | Stopped | Finished | Error {
    function Code(): int {
      match this
      case NoState => 0
      case Init => 1
      case Initializing => 2
      case Running => 3
      case Paused => 4
      case Stopped => 5
      case Finished => 6
      case Error => 7
    }
  }

  datatype Err = Ok | Fail | NoMem | InvalidArg | Timeout
}

/** What link, unlink, breakup and relink do to a pipeline's two lists. */
module PipelineSpec {
  import opened AudioTypes
  import opened RingTypes

  type El = nat
  type Rb = nat

  /** One side of an element: a user callback, or a ring buffer that may not be set. */
  datatype Port = Callback | Buffer(rb: Option<Rb>)

  function Get(p: Port): Option<Rb> {
    if p.Buffer? then p.rb else None
  }

  /** Setting a buffer turns a callback port into a buffer port; clearing leaves a callback port alone. */
  function Put(p: Port, rb: Option<Rb>): Port {
    if rb.Some? || p.Buffer? then Buffer(rb) else p
  }

  /** An item of `el_list` together with the fields of its element that the linker touches. */
  datatype Elem = Elem(el: El, tag: string, rbSize: int, linked: bool, kept: bool, inp: Port, out: Port, state: State)

  /** An item of `rb_list` together with its buffer. */
  datatype Item = Item(rb: Rb, buf: Ring, host: Option<El>, linked: bool, kept: bool)

  /** `next` is the handle the next created buffer gets; `freed` lists the destroyed ones, in order. */
  datatype Book = Book(next: nat, freed: seq<Rb>)

  /** `memo` is the function-static "last buffer" of the link or relink helper at work. */
  datatype Pipe = Pipe(els: seq<Elem>, rbs: seq<Item>, book: Book, linked: bool, state: State, memo: Option<Rb>)

  function NewRing(size: nat): Ring {
    Ring([], size, false, false, false, false, false, false)
  }

  predicate EmptyAndClear(v: Ring) {
    v.q == [] && !v.done && !v.abortRead && !v.abortWrite && !v.unblock
  }

  function Lower(c: char): char {
    if 'A' <= c <= 'Z' then (c as int + 32) as char else c
  }

  /** `strcasecmp(a, b) == 0`. */
  predicate SameTag(a: string, b: string) {
    |a| == |b| && forall i :: 0 <= i < |a| ==> Lower(a[i]) == Lower(b[i])
  }

  /** The first item carrying a tag, or the length of the list. */
  function FindTag(els: seq<Elem>, tag: string, k: nat := 0): (i: nat)
    requires k <= |els|
    ensures k <= i <= |els|
    ensures i < |els| ==> SameTag(els[i].tag, tag)
    ensures forall m :: k <= m < i ==> !SameTag(els[m].tag, tag)
    decreases |els| - k
  {
    if k == |els| || SameTag(els[k].tag, tag) then k else FindTag(els, tag, k + 1)
  }

  /** The first item holding a given buffer, or the length of the list. */
  function FindRb(rbs: seq<Item>, rb: Option<Rb>, k: nat := 0): (j: nat)
    requires k <= |rbs|
    ensures k <= j <= |rbs|
    ensures j < |rbs| ==> Some(rbs[j].rb) == rb
    ensures forall m :: k <= m < j ==> Some(rbs[m].rb) != rb
    decreases |rbs| - k
  {
    if k == |rbs| || Some(rbs[k].rb) == rb then k else FindRb(rbs, rb, k + 1)
  }

  /** The first item hosted by an element, or the length of the list. */
  function FindHost(rbs: seq<Item>, el: El, k: nat := 0): (j: nat)
    requires k <= |rbs|
    ensures k <= j <= |rbs|
    ensures j < |rbs| ==> rbs[j].host == Some(el)
    ensures forall m :: k <= m < j ==> rbs[m].host != Some(el)
    decreases |rbs| - k
  {
    if k == |rbs| || rbs[k].host == Some(el) then k else FindHost(rbs, el, k + 1)
  }

  /** The same element, whatever its flags, ports and state. */
  predicate SameElem(e: Elem, f: Elem) {
    e.el == f.el && e.tag == f.tag && e.rbSize == f.rbSize
  }

  predicate SameElems(els: seq<Elem>, els': seq<Elem>) {
    |els'| == |els| && forall i :: 0 <= i < |els| ==> SameElem(els[i], els'[i])
  }

  // ---- link and unlink ----

  function Created(p: Pipe, i: nat): (q: Pipe)
    requires i < |p.els| && p.els[i].rbSize >= 2
    ensures SameElems(p.els, q.els)
  {
    var b := p.book.next;
    p.(els := p.els[i := p.els[i].(out := Put(p.els[i].out, Some(b)))],
       rbs := p.rbs + [Item(b, NewRing(p.els[i].rbSize), Some(p.els[i].el), true, false)],
       book := p.book.(next := b + 1),
       memo := Some(b))
  }

  function SetInput(p: Pipe, i: nat): (q: Pipe)
    requires i < |p.els|
    ensures SameElems(p.els, q.els)
  {
    p.(els := p.els[i := p.els[i].(inp := Put(p.els[i].inp, p.memo))])
  }

  /** `_pipeline_rb_linked`, after its caller has flagged the item. `rb_create` refuses sizes below 2. */
  function LinkOne(p0: Pipe, i: nat, first: bool, last: bool): (r: (Pipe, Err))
    requires i < |p0.els|
    ensures SameElems(p0.els, r.0.els)
  {
    var p := p0.(els := p0.els[i := p0.els[i].(linked := true, kept := false)]);
    if last then (SetInput(p, i), Ok)
    else
      var q := if first then p else SetInput(p, i);
      if q.els[i].rbSize < 2 then (q.(memo := None), NoMem) else (Created(q, i), Ok)
  }

  /** A helper joins element `i` to the chain; it is told whether that is the first and whether it is the last. */
  type Helper = (Pipe, nat, bool, bool) -> (Pipe, Err)

  /** The loop of link and of relink over the tags from position `k` on. */
  function ChainFrom(h: Helper, p: Pipe, tags: seq<string>, k: nat): (Pipe, Err)
    requires k <= |tags|
    decreases |tags| - k
  {
    if k == |tags| then (p.(linked := true), Ok)
    else
      var i := FindTag(p.els, tags[k]);
      if i == |p.els| then (p, Fail)
      else
        var (q, err) := h(p, i, k == 0, k == |tags| - 1);
        if err != Ok then (q, err) else ChainFrom(h, q, tags, k + 1)
  }

  const LINK_HELPER: Helper :=
    (p: Pipe, i: nat, first: bool, last: bool) => if i < |p.els| then LinkOne(p, i, first, last) else (p, Fail)

  /** `stale` is what the previous call of the helper, for whatever pipeline, left in its static. */
  function Link(p: Pipe, tags: seq<string>, stale: Option<Rb>): (Pipe, Err) {
    ChainFrom(LINK_HELPER, Unlink(p).(memo := stale), tags, 0)
  }

  predicate Hosts(rbs: seq<Item>, el: El) {
    FindHost(rbs, el) < |rbs|
  }

  function Detached(e: Elem): Elem {
    e.(inp := Put(e.inp, None), out := Put(e.out, None))
  }

  /** What unlink does to one element: linked ones are unflagged and detached, other hosts are detached. */
  function UnlinkedElem(e: Elem, rbs: seq<Item>): Elem {
    if e.linked then Detached(e.(linked := false, kept := false))
    else if Hosts(rbs, e.el) then Detached(e)
    else e
  }

  function Ids(rbs: seq<Item>): seq<Rb> {
    seq(|rbs|, i requires 0 <= i < |rbs| => rbs[i].rb)
  }

  function Unlink(p: Pipe): Pipe {
    if !p.linked then p
    else
      p.(els := seq(|p.els|, i requires 0 <= i < |p.els| => UnlinkedElem(p.els[i], p.rbs)),
         rbs := [],
         book := p.book.(freed := p.book.freed + Ids(p.rbs)),
         linked := false)
  }

  // ---- breakup ----

  /** An element that is let go. Only the first item of `rb_list` is ever recognised as its output. */
  function DropElem(p: Pipe, i: nat): (q: Pipe)
    requires i < |p.els|
    ensures |q.els| == |p.els| && |q.rbs| == |p.rbs|
  {
    var e := p.els[i].(state := Init);
    if p.rbs == [] then p.(els := p.els[i := e])
    else if Get(e.out) == None then
      p.(els := p.els[i := e.(linked := false, kept := false, inp := Put(e.inp, None))])
    else if Some(p.rbs[0].rb) == Get(e.out) then
      p.(els := p.els[i := Detached(e.(linked := false, kept := false))],
         rbs := p.rbs[0 := p.rbs[0].(host := None, linked := false, kept := false)])
    else if |p.rbs| == 1 then p.(els := p.els[i := Detached(e)])
    else p.(els := p.els[i := Detached(e.(linked := false, kept := false))])
  }

  /** The first linked element that has an output, or the one named by the caller. */
  function KeepElem(p: Pipe, i: nat): (q: Pipe)
    requires i < |p.els|
    ensures |q.els| == |p.els| && |q.rbs| == |p.rbs|
  {
    var e := p.els[i];
    var j := FindRb(p.rbs, Get(e.out));
    if p.rbs == [] then p
    else if j == |p.rbs| then p.(els := p.els[i := e.(linked := false)])
    else if e.state == Running || e.state == Paused then
      p.(els := p.els[i := e.(linked := false, kept := true, inp := Put(e.inp, None))],
         rbs := p.rbs[j := p.rbs[j].(kept := true)])
    else p.(els := p.els[i := Detached(e.(linked := false))])
  }

  function BreakFrom(p: Pipe, keptEl: Option<El>, keep: bool, i: nat): Pipe
    requires i <= |p.els|
    decreases |p.els| - i
  {
    if i == |p.els| then p
    else if !p.els[i].linked then BreakFrom(p, keptEl, keep, i + 1)
    else if !keep && Some(p.els[i].el) != keptEl then BreakFrom(DropElem(p, i), keptEl, keep, i + 1)
    else BreakFrom(KeepElem(p, i), keptEl, keep && FindRb(p.rbs, Get(p.els[i].out)) == |p.rbs|, i + 1)
  }

  function Released(it: Item): Item {
    if it.kept then it else it.(linked := false, buf := Cleared(it.buf))
  }

  function ReleaseAll(rbs: seq<Item>): seq<Item> {
    seq(|rbs|, j requires 0 <= j < |rbs| => Released(rbs[j]))
  }

  function Breakup(p: Pipe, keptEl: Option<El>): Pipe {
    var q := BreakFrom(p, keptEl, true, 0);
    q.(rbs := ReleaseAll(q.rbs), linked := false, state := Init)
  }

  // ---- relink ----

  predicate Free(it: Item) {
    !it.linked && !it.kept
  }

  function Claimed(it: Item, el: El): Item {
    it.(linked := true, kept := false, host := Some(el), buf := Cleared(it.buf))
  }

  /** The search for an unused buffer: free items with a stale host lose the host and are passed over. */
  function Claim(rbs: seq<Item>, el: El, k: nat := 0): (r: (seq<Item>, nat))
    requires k <= |rbs|
    ensures |r.0| == |rbs| && k <= r.1 <= |rbs|
    ensures forall m :: 0 <= m < k ==> r.0[m] == rbs[m]
    ensures forall m :: k <= m < r.1 ==> r.0[m] == if Free(rbs[m]) then rbs[m].(host := None) else rbs[m]
    ensures forall m :: k <= m < r.1 && Free(rbs[m]) ==> rbs[m].host != None
    ensures r.1 < |rbs| ==> Free(rbs[r.1]) && rbs[r.1].host == None && r.0[r.1] == Claimed(rbs[r.1], el)
    ensures forall m :: r.1 < m < |rbs| ==> r.0[m] == rbs[m]
    decreases |rbs| - k
  {
    if k == |rbs| then (rbs, k)
    else if !Free(rbs[k]) then Claim(rbs, el, k + 1)
    else if rbs[k].host == None then (rbs[k := Claimed(rbs[k], el)], k)
    else Claim(rbs[k := rbs[k].(host := None)], el, k + 1)
  }

  /** Which buffer the element gets before anything is created, and the lists after the search. */
  function Pick(p: Pipe, i: nat): (r: (Pipe, Option<Rb>))
    requires i < |p.els|
    ensures SameElems(p.els, r.0.els) && r.0.book == p.book
  {
    var e := p.els[i];
    if e.kept then
      var j := FindHost(p.rbs, e.el);
      if j == |p.rbs| then (p, None)
      else (p.(els := p.els[i := e.(kept := false)],
               rbs := p.rbs[j := p.rbs[j].(linked := true, kept := false)]), Some(p.rbs[j].rb))
    else
      var (rbs, j) := Claim(p.rbs, e.el);
      (p.(rbs := rbs), if j == |rbs| then None else Some(rbs[j].rb))
  }

  /** `audio_pipeline_el_item_link`, after its caller has flagged the item. */
  function RelinkOne(p0: Pipe, i: nat, first: bool, last: bool): (r: Pipe)
    requires i < |p0.els|
    ensures SameElems(p0.els, r.els) && r.book.freed == p0.book.freed
  {
    var (p, cur) := Pick(p0.(els := p0.els[i := p0.els[i].(linked := true)]), i);
    if last then SetInput(p, i)
    else if cur == None && p.els[i].rbSize < 2 then p
    else
      var q := if first then p else SetInput(p, i);
      if cur == None then Created(q, i)
      else q.(els := q.els[i := q.els[i].(out := Put(q.els[i].out, cur))], memo := cur)
  }

  /** The relink loop goes on whatever its helper returns. */
  const RELINK_HELPER: Helper :=
    (p: Pipe, i: nat, first: bool, last: bool) => (if i < |p.els| then RelinkOne(p, i, first, last) else p, Ok)

  function Relink(p: Pipe, tags: seq<string>, stale: Option<Rb>): (Pipe, Err) {
    if p.linked then (p, Fail) else ChainFrom(RELINK_HELPER, p.(memo := stale), tags, 0)
  }
}
