/** The pipeline as its source has it: loops over two lists that are changed in place. */
module PipelineLists {
  import opened AudioTypes
  import opened RingTypes
  import opened PipelineSpec

  /** One turn of the loop of link or relink, told without unrolling the loop. */
  lemma ChainTurn(h: Helper, p: Pipe, tags: seq<string>, k: nat, i: nat, q: Pipe, err: Err)
    requires k < |tags| && i == FindTag(p.els, tags[k]) && i < |p.els| && (q, err) == h(p, i, k == 0, k == |tags| - 1)
    ensures ChainFrom(h, p, tags, k) == if err != Ok then (q, err) else ChainFrom(h, q, tags, k + 1)
  {
  }

  predicate LinksOne(h: Helper, p: Pipe, i: nat, first: bool, last: bool) {
    i < |p.els| ==> h(p, i, first, last) == LinkOne(p, i, first, last)
  }

  /** A name for the helper of link that keeps its body out of the proof of the loop. */
  ghost predicate IsLink(h: Helper) {
    forall p: Pipe, i: nat, first: bool, last: bool {:trigger LinksOne(h, p, i, first, last)} ::
      LinksOne(h, p, i, first, last)
  }

  predicate RelinksOne(h: Helper, p: Pipe, i: nat, first: bool, last: bool) {
    i < |p.els| ==> h(p, i, first, last) == (RelinkOne(p, i, first, last), Ok)
  }

  ghost predicate IsRelink(h: Helper) {
    forall p: Pipe, i: nat, first: bool, last: bool {:trigger RelinksOne(h, p, i, first, last)} ::
      RelinksOne(h, p, i, first, last)
  }

  function Unflagged(e: Elem): Elem {
    if e.linked then Detached(e.(linked := false, kept := false)) else e
  }

  class Pipeline {
    var els: seq<Elem>
    var rbs: seq<Item>
    var next: nat
    var freed: seq<Rb>
    var linked: bool
    var state: State
    var memo: Option<Rb>

    function View(): Pipe
      reads this
    {
      Pipe(els, rbs, Book(next, freed), linked, state, memo)
    }

    /** `audio_pipeline_get_el_item_by_tag`. */
    method ItemByTag(tag: string) returns (i: nat)
      ensures i == FindTag(els, tag)
    {
      i := 0;
      while i < |els| && !SameTag(els[i].tag, tag)
        invariant i <= |els| && FindTag(els, tag) == FindTag(els, tag, i)
      {
        i := i + 1;
      }
    }

    // ---- link and unlink ----

    method SetInput(i: nat)
      requires i < |els|
      modifies this`els
      ensures View() == PipelineSpec.SetInput(old(View()), i)
    {
      els := els[i := els[i].(inp := Put(els[i].inp, memo))];
    }

    method CreateFor(i: nat)
      requires i < |els| && els[i].rbSize >= 2
      modifies this`els, this`rbs, this`next, this`memo
      ensures View() == Created(old(View()), i)
    {
      memo := Some(next);
      rbs := rbs + [Item(next, NewRing(els[i].rbSize), Some(els[i].el), true, false)];
      els := els[i := els[i].(out := Put(els[i].out, memo))];
      next := next + 1;
    }

    /** The body of the loop of `audio_pipeline_link`, with `_pipeline_rb_linked`. */
    method LinkElem(i: nat, first: bool, last: bool, ghost h: Helper) returns (err: Err)
      requires i < |els| && IsLink(h)
      modifies this`els, this`rbs, this`next, this`memo
      ensures (View(), err) == h(old(View()), i, first, last)
    {
      assert LinksOne(h, View(), i, first, last);
      els := els[i := els[i].(linked := true, kept := false)];
      if last {
        SetInput(i);
      } else {
        if !first {
          SetInput(i);
        }
        if els[i].rbSize < 2 {
          memo := None;
          return NoMem;
        }
        CreateFor(i);
      }
      err := Ok;
    }

    method LinkAll(tags: seq<string>, ghost h: Helper) returns (err: Err)
      requires IsLink(h)
      modifies this`els, this`rbs, this`next, this`memo, this`linked
      ensures (View(), err) == ChainFrom(h, old(View()), tags, 0)
    {
      var k := 0;
      while k < |tags|
        invariant k <= |tags| && ChainFrom(h, old(View()), tags, 0) == ChainFrom(h, View(), tags, k)
      {
        var i := ItemByTag(tags[k]);
        if i == |els| {
          return Fail;
        }
        ghost var before := View();
        err := LinkElem(i, k == 0, k == |tags| - 1, h);
        ChainTurn(h, before, tags, k, i, View(), err);
        if err != Ok {
          return;
        }
        k := k + 1;
      }
      linked := true;
      err := Ok;
    }

    method Link(tags: seq<string>, stale: Option<Rb>) returns (err: Err)
      modifies this
      ensures (View(), err) == PipelineSpec.Link(old(View()), tags, stale)
    {
      if linked {
        Unlink();
      }
      memo := stale;
      err := LinkAll(tags, LINK_HELPER);
    }

    method DetachHost(host: El)
      modifies this`els
      ensures |els| == |old(els)|
      ensures forall m :: 0 <= m < |els| ==>
                            els[m] == if old(els[m]).el == host then Detached(old(els[m])) else old(els[m])
    {
      var m := 0;
      while m < |els|
        invariant m <= |els| == |old(els)|
        invariant forall l :: 0 <= l < m ==>
                                els[l] == if old(els[l]).el == host then Detached(old(els[l])) else old(els[l])
        invariant forall l :: m <= l < |els| ==> els[l] == old(els[l])
      {
        if els[m].el == host {
          els := els[m := Detached(els[m])];
        }
        m := m + 1;
      }
    }

    /** The first loop of unlink. */
    method UnflagLinked()
      modifies this`els
      ensures |els| == |old(els)|
      ensures forall m :: 0 <= m < |els| ==> els[m] == Unflagged(old(els[m]))
    {
      var m := 0;
      while m < |els|
        invariant m <= |els| == |old(els)|
        invariant forall l :: 0 <= l < m ==> els[l] == Unflagged(old(els[l]))
        invariant forall l :: m <= l < |els| ==> els[l] == old(els[l])
      {
        if els[m].linked {
          els := els[m := Detached(els[m].(linked := false, kept := false))];
        }
        m := m + 1;
      }
    }

    /** The second loop of unlink: the items go one by one, with their buffers. */
    method DestroyItems()
      modifies this`els, this`rbs, this`freed
      ensures |els| == |old(els)| && rbs == [] && freed == old(freed) + Ids(old(rbs))
      ensures forall m :: 0 <= m < |els| ==>
                            els[m] == if Hosts(old(rbs), old(els[m]).el) then Detached(old(els[m])) else old(els[m])
    {
      ghost var j, n := 0, |rbs|;
      while rbs != []
        invariant j <= n == |old(rbs)| && rbs == old(rbs)[j..] && |els| == |old(els)|
        invariant freed == old(freed) + Ids(old(rbs))[..j]
        invariant forall m :: 0 <= m < |els| ==>
            els[m] == if FindHost(old(rbs), old(els[m]).el) < j then Detached(old(els[m])) else old(els[m])
        decreases |rbs|
      {
        var item := rbs[0];
        assert item == old(rbs)[j];
        rbs := rbs[1..];
        if item.host != None {
          DetachHost(item.host.value);
        }
        freed := freed + [item.rb];
        j := j + 1;
      }
    }

    method Unlink()
      modifies this
      ensures View() == PipelineSpec.Unlink(old(View()))
    {
      if !linked {
        return;
      }
      UnflagLinked();
      DestroyItems();
      linked := false;
      assert els == PipelineSpec.Unlink(old(View())).els;
    }

    // ---- breakup ----

    /** The search of breakup for the buffer of an element that is let go. */
    method DropElem(i: nat)
      requires i < |els|
      modifies this`els, this`rbs
      ensures View() == PipelineSpec.DropElem(old(View()), i)
    {
      els := els[i := els[i].(state := Init)];
      ghost var e := els[i];
      var j := 0;
      while j < |rbs|
        invariant j <= |rbs| && j <= 1 && rbs == old(rbs) && |els| == |old(els)|
        invariant els == old(els)[i := if j == 0 then e else Detached(e)]
        invariant j > 0 ==> Get(e.out) != None && Some(rbs[0].rb) != Get(e.out)
      {
        if Get(els[i].out) == None {
          els := els[i := els[i].(linked := false, kept := false, inp := Put(els[i].inp, None))];
          break;
        } else if Some(rbs[j].rb) == Get(els[i].out) {
          rbs := rbs[j := rbs[j].(host := None, linked := false, kept := false)];
          els := els[i := Detached(els[i].(linked := false, kept := false))];
          break;
        }
        els := els[i := Detached(els[i])];
        j := j + 1;
      }
    }

    /** The search of breakup for the buffer of an element that may be kept. */
    method KeepElem(i: nat) returns (found: bool)
      requires i < |els|
      modifies this`els, this`rbs
      ensures View() == PipelineSpec.KeepElem(old(View()), i)
      ensures found <==> FindRb(old(rbs), Get(old(els)[i].out)) < |old(rbs)|
    {
      ghost var e := els[i];
      var j := 0;
      while j < |rbs|
        invariant j <= |rbs| && rbs == old(rbs) && |els| == |old(els)|
        invariant els == old(els)[i := if j == 0 then e else e.(linked := false)]
        invariant FindRb(rbs, Get(e.out)) == FindRb(rbs, Get(e.out), j)
      {
        if Some(rbs[j].rb) == Get(els[i].out) {
          if els[i].state == Running || els[i].state == Paused {
            els := els[i := els[i].(linked := false, kept := true, inp := Put(els[i].inp, None))];
            rbs := rbs[j := rbs[j].(kept := true)];
          } else {
            els := els[i := Detached(els[i].(linked := false))];
          }
          return true;
        }
        els := els[i := els[i].(linked := false)];
        j := j + 1;
      }
      found := false;
    }

    method ReleaseItems()
      modifies this`rbs
      ensures rbs == ReleaseAll(old(rbs))
    {
      var j := 0;
      while j < |rbs|
        invariant j <= |rbs| == |old(rbs)|
        invariant forall m :: 0 <= m < j ==> rbs[m] == Released(old(rbs)[m])
        invariant forall m :: j <= m < |rbs| ==> rbs[m] == old(rbs)[m]
      {
        rbs := rbs[j := Released(rbs[j])];
        j := j + 1;
      }
    }

    method BreakupElements(keptEl: Option<El>)
      modifies this
      ensures View() == Breakup(old(View()), keptEl)
    {
      var keep := true;
      var i := 0;
      while i < |els|
        invariant i <= |els| && BreakFrom(old(View()), keptEl, true, 0) == BreakFrom(View(), keptEl, keep, i)
        decreases |els| - i
      {
        if els[i].linked {
          if !keep && Some(els[i].el) != keptEl {
            DropElem(i);
          } else {
            var found := KeepElem(i);
            keep := keep && !found;
          }
        }
        i := i + 1;
      }
      ReleaseItems();
      linked := false;
      state := Init;
    }

    // ---- relink ----

    /** The search of relink for an unused buffer. */
    method ClaimItem(el: El) returns (j: nat)
      modifies this`rbs
      ensures (rbs, j) == Claim(old(rbs), el)
    {
      j := 0;
      while j < |rbs|
        invariant j <= |rbs| && Claim(old(rbs), el) == Claim(rbs, el, j)
        decreases |rbs| - j
      {
        if Free(rbs[j]) {
          if rbs[j].host == None {
            rbs := rbs[j := Claimed(rbs[j], el)];
            return;
          }
          rbs := rbs[j := rbs[j].(host := None)];
        }
        j := j + 1;
      }
    }

    method HostedItem(el: El) returns (j: nat)
      ensures j == FindHost(rbs, el)
    {
      j := 0;
      while j < |rbs| && rbs[j].host != Some(el)
        invariant j <= |rbs| && FindHost(rbs, el) == FindHost(rbs, el, j)
      {
        j := j + 1;
      }
    }

    method PickBuffer(i: nat) returns (cur: Option<Rb>)
      requires i < |els|
      modifies this`els, this`rbs
      ensures (View(), cur) == Pick(old(View()), i)
    {
      if els[i].kept {
        var j := HostedItem(els[i].el);
        if j < |rbs| {
          els := els[i := els[i].(kept := false)];
          rbs := rbs[j := rbs[j].(linked := true, kept := false)];
          cur := Some(rbs[j].rb);
        } else {
          cur := None;
        }
      } else {
        var j := ClaimItem(els[i].el);
        cur := if j == |rbs| then None else Some(rbs[j].rb);
      }
    }

    /** `audio_pipeline_el_item_link`, after the flagging its caller does. */
    method RelinkElem(i: nat, first: bool, last: bool, ghost h: Helper)
      requires i < |els| && IsRelink(h)
      modifies this`els, this`rbs, this`next, this`memo
      ensures (View(), Ok) == h(old(View()), i, first, last)
    {
      assert RelinksOne(h, View(), i, first, last);
      els := els[i := els[i].(linked := true)];
      var cur := PickBuffer(i);
      if !last && cur == None && els[i].rbSize < 2 {
        return;
      }
      if last || !first {
        SetInput(i);
      }
      if !last {
        if cur == None {
          CreateFor(i);
        } else {
          els := els[i := els[i].(out := Put(els[i].out, cur))];
          memo := cur;
        }
      }
    }

    method RelinkAll(tags: seq<string>, ghost h: Helper) returns (err: Err)
      requires IsRelink(h)
      modifies this`els, this`rbs, this`next, this`memo, this`linked
      ensures (View(), err) == ChainFrom(h, old(View()), tags, 0)
    {
      var k := 0;
      while k < |tags|
        invariant k <= |tags| && ChainFrom(h, old(View()), tags, 0) == ChainFrom(h, View(), tags, k)
      {
        var i := ItemByTag(tags[k]);
        if i == |els| {
          return Fail;
        }
        ghost var before := View();
        RelinkElem(i, k == 0, k == |tags| - 1, h);
        ChainTurn(h, before, tags, k, i, View(), Ok);
        k := k + 1;
      }
      linked := true;
      err := Ok;
    }

    method Relink(tags: seq<string>, stale: Option<Rb>) returns (err: Err)
      modifies this
      ensures (View(), err) == PipelineSpec.Relink(old(View()), tags, stale)
    {
      if linked {
        return Fail;
      }
      memo := stale;
      err := RelinkAll(tags, RELINK_HELPER);
    }
  }
}
