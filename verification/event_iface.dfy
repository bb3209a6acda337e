/** The listener as its source has it: the list and the queue set are taken down and built up again in place. */
module EventIface {
  import opened AudioTypes
  import opened EventSpec
  import opened EventCleanup
  import EventDelivery

  predicate TokensFor(tokens: seq<Q>, items: seq<Item>) {
    forall t :: t in tokens ==> Listed(items, t)
  }

  function Without(items: seq<Item>, q: Q): seq<Item> {
    if items == [] then []
    else if items[0].queue == q then Without(items[1..], q)
    else [items[0]] + Without(items[1..], q)
  }

  /** What the list says about the queues. */
  predicate ItemsOk(items: seq<Item>, queues: seq<Queue>) {
    forall i :: 0 <= i < |items| ==>
                  items[i].queue < |queues| && 0 < items[i].size == queues[items[i].queue].size
  }

  /** Nothing stands in the way of putting all listed queues into a new set. */
  predicate Addable(items: seq<Item>, queues: seq<Queue>)
    requires ItemsOk(items, queues)
  {
    Distinct(items) && forall i :: 0 <= i < |items| ==> queues[items[i].queue].owner == NoSet
  }

  /** The listed queues are in the set, with nothing in them. */
  predicate Empty(items: seq<Item>, queues: seq<Queue>, owner: Owner)
    requires ItemsOk(items, queues)
  {
    forall i :: 0 <= i < |items| ==> queues[items[i].queue] == Queue(items[i].size, [], owner)
  }

  /** Sizes stay, and queues outside the list are left alone. */
  predicate Outside(queues: seq<Queue>, queues': seq<Queue>, items: seq<Item>) {
    && |queues'| == |queues|
    && forall q: Q {:trigger queues'[q]} :: q < |queues| ==>
                        && queues'[q].size == queues[q].size
                        && (!Listed(items, q) ==> queues'[q] == queues[q])
  }

  /** A listener in the course of a clean-up: the first `n` listed queues are out of the set and empty, the others are
      still in; whatever messages are left there are backed by tokens. */
  predicate TakenDown(queues: seq<Queue>, items: seq<Item>, tokens: seq<Q>, n: nat) {
    && ItemsOk(items, queues) && Distinct(items) && n <= |items|
    && (forall i :: 0 <= i < n ==> queues[items[i].queue] == Queue(items[i].size, [], NoSet))
    && (forall i :: n <= i < |items| ==> queues[items[i].queue].owner == Ours)
    && Backed(queues, tokens) && TokensFor(tokens, items)
    && (forall q: Q :: q < |queues| && queues[q].owner == Ours ==> Listed(items, q))
  }

  lemma EmptiedMore(queues: seq<Queue>, own: seq<Q>, i: nat)
    requires i < |own|
    ensures own[i] < |queues| ==>
              Emptied(queues, own[..i + 1])
              == Emptied(queues, own[..i])[own[i] := Emptied(queues, own[..i])[own[i]].(msgs := [])]
    ensures own[i] >= |queues| ==> Emptied(queues, own[..i + 1]) == Emptied(queues, own[..i])
  {
    assert own[..i + 1] == own[..i] + [own[i]];
  }

  lemma EmptyingTakesDown(queues: seq<Queue>, items: seq<Item>, tokens: seq<Q>, n: nat, q: Q)
    requires TakenDown(queues, items, tokens, n) && q < |queues|
    ensures TakenDown(queues[q := queues[q].(msgs := [])], items, tokens, n)
  {
  }

  lemma DrainTakesDown(queues: seq<Queue>, items: seq<Item>, tokens: seq<Q>, n: nat)
    requires TakenDown(queues, items, tokens, n)
    ensures var (queues', tokens') := Drained(queues, tokens);
            && TakenDown(queues', items, tokens', n)
            && Outside(queues, queues', items)
            && (tokens != [] ==> |tokens'| < |tokens|)
  {
    DrainedFacts(queues, tokens);
  }

  lemma DrainTakesDownEmptied(queues: seq<Queue>, items: seq<Item>, tokens: seq<Q>, own: seq<Q>)
    requires TakenDown(queues, items, tokens, 0)
    ensures TakenDown(Emptied(queues, own), items, tokens, 0)
    ensures Outside(Emptied(queues, own), Drained(Emptied(queues, own), tokens).0, items)
  {
    DrainTakesDown(Emptied(queues, own), items, tokens, 0);
  }

  lemma RemoveTakesDown(queues: seq<Queue>, items: seq<Item>, tokens: seq<Q>, n: nat)
    requires TakenDown(queues, items, tokens, n) && n < |items| && queues[items[n].queue].msgs == []
    ensures var q := items[n].queue;
            TakenDown(queues[q := queues[q].(owner := NoSet)], items, tokens, n + 1)
  {
  }

  /** A member queue that cannot be removed because it has a message has a token, so draining makes progress. */
  lemma TokenLeft(queues: seq<Queue>, items: seq<Item>, tokens: seq<Q>, n: nat)
    requires TakenDown(queues, items, tokens, n) && n < |items| && queues[items[n].queue].msgs != []
    ensures tokens != []
  {
    assert multiset(tokens)[items[n].queue] > 0;
  }

  lemma ListedAt(items: seq<Item>, i: nat)
    requires i < |items|
    ensures Listed(items, items[i].queue)
  {
  }

  lemma AllTakenDown(queues: seq<Queue>, items: seq<Item>, tokens: seq<Q>)
    requires TakenDown(queues, items, tokens, |items|)
    ensures TakenDown(queues, items, [], |items|)
    ensures forall q: Q :: q < |queues| ==> queues[q].owner != Ours
  {
  }

  // ---- after a failing set ----

  /** Behind a list comes an entry whose queue is in another listener's set, or is listed before: as long as nobody
      takes the queue out of that set, the clean-up never gets past the entry. Whatever messages have come in since. */
  lemma ExtraEntryIsNeverPassed(before: seq<Item>, it: Item, queues: seq<Queue>, tokens: seq<Q>, own: seq<Q>,
                                readSet: bool)
    requires InRange(before + [it], queues) && it.queue < |queues| && Backed(queues, tokens)
    requires queues[it.queue].owner != Ours || Listed(before, it.queue)
    ensures !Ends(before + [it], Begin(before + [it], queues, tokens, own, readSet))
  {
    var items := before + [it];
    if Listed(before, it.queue) {
      var i :| 0 <= i < |before| && before[i].queue == it.queue;
      assert items[i].queue == items[|before|].queue;
    }
    assert items[|before|] == it;
    CleanupEndsIff(items, queues, tokens, own, readSet);
  }

  lemma OwnAreEmpty(before: seq<Queue>, queues: seq<Queue>, items: seq<Item>, own: seq<Q>)
    requires TakenDown(queues, items, [], |items|) && Outside(Emptied(before, own), queues, items)
    ensures forall q: Q :: q in own && q < |queues| ==> queues[q].msgs == []
  {
    forall q: Q | q in own && q < |queues|
      ensures queues[q].msgs == []
    {
      if Listed(items, q) {
        var i :| 0 <= i < |items| && items[i].queue == q;
        assert queues[items[i].queue].msgs == [];
      } else {
        assert queues[q] == Emptied(before, own)[q];
      }
    }
  }

  /** The reads of the clean-up are those of delivery. */
  lemma ReadsAgree(h: EventDelivery.Hub)
    ensures var (queues, tokens, got) := ReadOne(h.queues, h.tokens);
            EventDelivery.Next(h, EventDelivery.Read) ==
            h.(queues := queues, tokens := tokens,
               read := if got == None then h.read else h.read + [(h.tokens[0], got.value)])
  {
  }

  /** When every message has its token and every token its message, reading until a read fails gets everything. */
  lemma {:induction false} DrainedGetsAll(queues: seq<Queue>, tokens: seq<Q>)
    requires EventDelivery.Matched(tokens, queues)
    requires forall t :: t in tokens ==> t < |queues| && queues[t].owner == Ours
    ensures var (queues', tokens') := Drained(queues, tokens);
            && tokens' == [] && |queues'| == |queues|
            && forall q: Q :: q < |queues| ==>
                 queues'[q] == if queues[q].owner == Ours then queues[q].(msgs := []) else queues[q]
    decreases |tokens|
  {
    if tokens != [] {
      var q := tokens[0];
      EventDelivery.FirstToken(tokens);
      assert q in tokens && multiset(tokens)[q] > 0;
      DrainedGetsAll(Pop(queues, q), tokens[1..]);
    }
  }

  // ---- from a new set to delivery ----

  lemma {:induction false} NothingHeld(items: seq<Item>, queues: seq<Queue>)
    requires ItemsOk(items, queues) && Empty(items, queues, Ours)
    ensures EventDelivery.Held(items, queues) == 0
  {
    if items != [] {
      NothingHeld(items[..|items| - 1], queues);
    }
  }

  /** A newly set up listener is where the delivery of events starts. */
  lemma NewSetDelivers(queues: seq<Queue>, items: seq<Item>)
    requires TakenDown(queues, items, [], 0) && Empty(items, queues, Ours)
    requires forall q: Q :: q < |queues| ==> |queues[q].msgs| <= queues[q].size
    ensures EventDelivery.Delivers(EventDelivery.Hub(queues, items, [], [], []))
  {
    NothingHeld(items, queues);
    forall q: Q | q < |queues| && Listed(items, q)
      ensures queues[q].owner == Ours
    {
    }
  }

  // ---- building the set up ----

  /** The first `n` listed queues are in the set and empty, the others as they were in `before`. */
  predicate BuiltUp(before: seq<Queue>, queues: seq<Queue>, items: seq<Item>, n: nat) {
    && |queues| == |before| && ItemsOk(items, before) && n <= |items|
    && (forall i :: 0 <= i < n ==> queues[items[i].queue] == Queue(items[i].size, [], Ours))
    && (forall i, j :: 0 <= i < j < n ==> items[i].queue != items[j].queue)
    && (forall i :: 0 <= i < n ==> before[items[i].queue].owner == NoSet)
    && (forall q: Q {:trigger queues[q]} :: q < |queues| && !Listed(items[..n], q) ==> queues[q] == before[q])
  }

  lemma ListedMore(items: seq<Item>, n: nat, q: Q)
    requires n < |items|
    ensures Listed(items[..n + 1], q) <==> Listed(items[..n], q) || q == items[n].queue
  {
    if Listed(items[..n], q) {
      var i :| 0 <= i < n && items[..n][i].queue == q;
      assert items[..n + 1][i].queue == q;
    }
    if q == items[n].queue {
      assert items[..n + 1][n].queue == q;
    }
  }

  lemma ListedTake(items: seq<Item>, n: nat, q: Q)
    requires n <= |items|
    ensures Listed(items[..n], q) <==> exists i :: 0 <= i < n && items[i].queue == q
  {
    if i :| 0 <= i < n && items[i].queue == q {
      assert items[..n][i].queue == q;
    }
  }

  /** Adding succeeds precisely when the queue was in no set to begin with and is not listed before. */
  lemma AddBuildsUp(before: seq<Queue>, queues: seq<Queue>, items: seq<Item>, n: nat)
    requires BuiltUp(before, queues, items, n) && n < |items|
    ensures var q := items[n].queue;
            if queues[q].owner == NoSet then
              BuiltUp(before, queues[q := Queue(items[n].size, [], Ours)], items, n + 1)
            else !Addable(items, before)
  {
    var q := items[n].queue;
    ListedTake(items, n, q);
    forall p: Q | p < |queues|
      ensures Listed(items[..n + 1], p) <==> Listed(items[..n], p) || p == q
    {
      ListedMore(items, n, p);
    }
  }

  /** What a failure at entry `at` leaves: the entries before it are in the set and empty, its queue is emptied, and is
      in a set already, this one if it is listed before. */
  predicate FailedAt(before: seq<Queue>, after: seq<Queue>, items: seq<Item>, at: nat) {
    && |after| == |before| && ItemsOk(items, before) && at < |items|
    && (forall i :: 0 <= i < at ==> after[items[i].queue] == Queue(items[i].size, [], Ours))
    && (forall i :: 0 <= i < at ==> before[items[i].queue].owner == NoSet)
    && var q := items[at].queue;
       && after[q].msgs == [] && after[q].size == before[q].size && after[q].owner != NoSet
       && (if Listed(items[..at], q) then after[q].owner == Ours else after[q].owner == before[q].owner)
  }

  lemma FailsHere(before: seq<Queue>, queues: seq<Queue>, items: seq<Item>, at: nat)
    requires BuiltUp(before, queues, items, at) && at < |items| && queues[items[at].queue].owner != NoSet
    ensures var q := items[at].queue; FailedAt(before, queues[q := queues[q].(msgs := [])], items, at)
  {
    ListedTake(items, at, items[at].queue);
  }

  lemma BuiltUpOutside(before: seq<Queue>, queues: seq<Queue>, items: seq<Item>, n: nat)
    requires BuiltUp(before, queues, items, n)
    ensures Outside(before, queues, items)
    ensures n < |items| ==>
              forall queue: Queue :: queue.size == items[n].size ==>
                                       Outside(before, queues[items[n].queue := queue], items)
  {
    forall q: Q | q < |queues| && Listed(items[..n], q)
      ensures Listed(items, q) && queues[q].size == before[q].size
    {
      ListedTake(items, n, q);
    }
    if n < |items| {
      ListedAt(items, n);
      ListedTake(items, n, items[n].queue);
    }
  }

  lemma AllBuiltUp(before: seq<Queue>, queues: seq<Queue>, items: seq<Item>)
    requires BuiltUp(before, queues, items, |items|)
    requires forall q: Q :: q < |before| ==> before[q].owner != Ours
    ensures Addable(items, before) && TakenDown(queues, items, [], 0) && Empty(items, queues, Ours)
  {
    assert items[..|items|] == items;
    forall i | 0 <= i < |items|
      ensures Listed(items, items[i].queue)
    {
      ListedAt(items, i);
    }
  }

  // ---- removing from the list ----

  lemma {:induction false} WithoutFacts(items: seq<Item>, q: Q)
    requires Distinct(items)
    ensures Distinct(Without(items, q))
    ensures forall it :: it in Without(items, q) <==> it in items && it.queue != q
  {
    if items != [] {
      assert items == [items[0]] + items[1..];
      WithoutFacts(items[1..], q);
      forall it | it in Without(items[1..], q)
        ensures it.queue != items[0].queue
      {
        assert it in items[1..];
      }
    }
  }

  lemma {:induction false} WithoutAbsent(items: seq<Item>, q: Q)
    requires !Listed(items, q)
    ensures Without(items, q) == items
  {
    if items != [] {
      assert forall i :: 0 <= i < |items[1..]| ==> items[1..][i] == items[i + 1];
      WithoutAbsent(items[1..], q);
    }
  }

  lemma {:induction false} WithoutConcat(items: seq<Item>, jtems: seq<Item>, q: Q)
    ensures Without(items + jtems, q) == Without(items, q) + Without(jtems, q)
  {
    if items == [] {
      assert items + jtems == jtems;
    } else {
      assert (items + jtems)[1..] == items[1..] + jtems;
      WithoutConcat(items[1..], jtems, q);
    }
  }

  /** Listening to an event and ceasing to gives back the list there was. */
  lemma SetRemoveRestores(items: seq<Item>, q: Q, size: nat)
    requires !Listed(items, q)
    ensures Without(items + [Item(q, size)], q) == items
  {
    WithoutConcat(items, [Item(q, size)], q);
    WithoutAbsent(items, q);
    assert Without([Item(q, size)], q) == [];
  }

  /** Of a list that has been taken down, what is left after a removal can be put into a new set. */
  lemma WithoutAddable(queues: seq<Queue>, items: seq<Item>, q: Q)
    requires TakenDown(queues, items, [], |items|)
    ensures ItemsOk(Without(items, q), queues) && Addable(Without(items, q), queues)
  {
    WithoutFacts(items, q);
    var less := Without(items, q);
    forall i | 0 <= i < |less|
      ensures less[i] in items
    {
      assert less[i] in less;
    }
  }

  /** After the clean-up one more queue can be added precisely if it was in no set before. */
  lemma AddableIff(before: seq<Queue>, queues: seq<Queue>, items: seq<Item>, q: Q)
    requires q < |queues| && queues[q].size > 0
    requires TakenDown(queues, items, [], |items|) && Outside(before, queues, items)
    requires forall i :: 0 <= i < |items| ==> before[items[i].queue].owner == Ours
    requires before[q].owner == Ours ==> Listed(items, q)
    ensures var more := items + [Item(q, queues[q].size)];
            ItemsOk(more, queues) && (Addable(more, queues) <==> before[q].owner == NoSet)
  {
    var more := items + [Item(q, queues[q].size)];
    if Listed(items, q) {
      var i :| 0 <= i < |items| && items[i].queue == q;
      assert more[i].queue == more[|items|].queue;
    } else {
      assert queues[q].owner == before[q].owner;
      assert more[|items|].queue == q;
      forall i | 0 <= i < |items|
        ensures more[i].queue != q
      {
        assert more[i] == items[i];
      }
    }
  }

  lemma OutsideMore(before: seq<Queue>, queues: seq<Queue>, items: seq<Item>, it: Item)
    requires Outside(before, queues, items)
    ensures Outside(before, queues, items + [it])
  {
    forall q: Q | Listed(items, q)
      ensures Listed(items + [it], q)
    {
      var i :| 0 <= i < |items| && items[i].queue == q;
      assert (items + [it])[i].queue == q;
    }
  }

  lemma OutsideTwice(before: seq<Queue>, middle: seq<Queue>, after: seq<Queue>, items: seq<Item>)
    requires Outside(before, middle, items) && Outside(middle, after, items)
    ensures Outside(before, after, items)
  {
  }

  /** What a failing set leaves of the queues: the entries there were are in the set, empty; the queue of the new one is
      emptied, but still in the set of the other listener or, if listed before, in this one. */
  predicate SetFails(queues: seq<Queue>, before: seq<Item>, it: Item, owner: Owner) {
    && ItemsOk(before + [it], queues) && Distinct(before) && it.queue < |queues|
    && TakenDown(queues, before, [], 0) && Empty(before, queues, Ours)
    && queues[it.queue] == Queue(it.size, [], owner) && owner != NoSet && (owner == Ours <==> Listed(before, it.queue))
  }

  /** Of a list that has been taken down, with one more entry, only that entry can fail. */
  lemma FailsAtLast(old0: seq<Queue>, before: seq<Queue>, after: seq<Queue>, items: seq<Item>, it: Item, at: nat)
    requires TakenDown(before, items, [], |items|) && FailedAt(before, after, items + [it], at)
    requires Outside(old0, before, items) && it.queue < |old0| && it.size == before[it.queue].size
    requires Outside(before, after, items + [it])
    requires forall i :: 0 <= i < |items| ==> old0[items[i].queue].owner == Ours
    requires old0[it.queue].owner == Ours ==> Listed(items, it.queue)
    requires forall q: Q :: q < |before| ==> before[q].owner != Ours
    ensures at == |items| && SetFails(after, items, it, old0[it.queue].owner)
  {
    var more := items + [it];
    ListedTake(more, at, more[at].queue);
    assert more[..|items|] == items;
    forall i | 0 <= i < |items|
      ensures after[items[i].queue] == Queue(items[i].size, [], Ours)
    {
      assert more[i] == items[i];
    }
  }

  class Iface {
    const own: seq<Q>
    const setSize: nat
    var queues: seq<Queue>
    var items: seq<Item>
    var hasSet: bool
    var capacity: nat
    var tokens: seq<Q>

    /** As an init and successful calls leave it. */
    ghost predicate Valid()
      reads this
    {
      TakenDown(queues, items, tokens, 0) && (items != [] ==> hasSet) && (!hasSet ==> tokens == [])
    }

    /** Newly set up: every listed queue is in the set, which has room for all they can hold, and nothing is there. */
    ghost predicate Listening()
      reads this
    {
      && Valid() && tokens == [] && Empty(items, queues, Ours)
      && (hasSet <==> items != []) && (hasSet ==> capacity == Sizes(items))
    }

    method Read() returns (got: Option<Msg>)
      requires !hasSet ==> tokens == []
      modifies this`queues, this`tokens
      ensures (queues, tokens, got) == ReadOne(old(queues), old(tokens))
    {
      got := None;
      if hasSet && tokens != [] {
        var q := tokens[0];
        tokens := tokens[1..];
        if q < |queues| && queues[q].msgs != [] {
          got := Some(queues[q].msgs[0]);
          queues := Pop(queues, q);
        }
      }
    }

    /** `while (audio_event_iface_read(...) == ESP_OK);` */
    method ReadAll()
      requires !hasSet ==> tokens == []
      modifies this`queues, this`tokens
      ensures (queues, tokens) == Drained(old(queues), old(tokens))
    {
      var got := Read();
      while got != None
        invariant !hasSet ==> tokens == []
        invariant Drained(old(queues), old(tokens)) == if got == None then (queues, tokens) else Drained(queues, tokens)
        decreases |tokens|, got != None
      {
        got := Read();
      }
    }

    /** `while (xQueueReceive(queue, ...) == pdTRUE);` */
    method ReceiveAll(q: Q)
      requires q < |queues|
      modifies this`queues
      ensures queues == old(queues)[q := old(queues)[q].(msgs := [])]
    {
      while queues[q].msgs != []
        invariant |queues| == |old(queues)|
        invariant queues == old(queues)[q := old(queues)[q].(msgs := queues[q].msgs)]
        decreases |queues[q].msgs|
      {
        queues := Pop(queues, q);
      }
    }

    method RemoveFromSet(q: Q) returns (ok: bool)
      requires q < |queues|
      modifies this`queues
      ensures ok <==> old(queues)[q].owner == Ours && old(queues)[q].msgs == []
      ensures queues == if ok then old(queues)[q := old(queues)[q].(owner := NoSet)] else old(queues)
    {
      ok := queues[q].owner == Ours && queues[q].msgs == [];
      if ok {
        queues := queues[q := queues[q].(owner := NoSet)];
      }
    }

    method AddToSet(q: Q) returns (ok: bool)
      requires q < |queues|
      modifies this`queues
      ensures ok <==> old(queues)[q].owner == NoSet && old(queues)[q].msgs == []
      ensures queues == if ok then old(queues)[q := old(queues)[q].(owner := Ours)] else old(queues)
    {
      ok := queues[q].owner == NoSet && queues[q].msgs == [];
      if ok {
        queues := queues[q := queues[q].(owner := Ours)];
      }
    }

    /** `audio_event_iface_discard`: the listener's own queues are emptied, then its set is read until a read fails. */
    method Discard()
      requires Valid()
      modifies this`queues, this`tokens
      ensures Valid()
      ensures (queues, tokens) == if hasSet && setSize > 0 then Drained(Emptied(old(queues), own), old(tokens))
                                  else (Emptied(old(queues), own), old(tokens))
    {
      var i := 0;
      while i < |own|
        invariant i <= |own| && tokens == old(tokens)
        invariant TakenDown(queues, items, tokens, 0) && queues == Emptied(old(queues), own[..i])
      {
        if own[i] < |queues| {
          EmptyingTakesDown(queues, items, tokens, 0, own[i]);
          ReceiveAll(own[i]);
        }
        EmptiedMore(old(queues), own, i);
        i := i + 1;
      }
      assert own[..i] == own;
      if hasSet && setSize > 0 {
        DrainTakesDown(queues, items, tokens, 0);
        ReadAll();
      }
    }

    /** One attempt of the clean-up to take a listed queue out of the set; if it fails, reading uses up a token. */
    method TakeDownTurn(n: nat, ghost c: Clean) returns (removed: bool)
      requires n < |items| && hasSet && TakenDown(queues, items, tokens, n)
      requires Reaches(items, c, Clean(queues, tokens, n))
      modifies this`queues, this`tokens
      ensures TakenDown(queues, items, tokens, if removed then n + 1 else n) && Outside(old(queues), queues, items)
      ensures !removed ==> |tokens| < |old(tokens)|
      ensures removed ==> Reaches(items, c, Arrive(items, Clean(queues, tokens, n + 1)))
      ensures !removed ==> Reaches(items, c, Clean(queues, tokens, n))
    {
      ListedAt(items, n);
      ReachesTurn(items, c, Clean(queues, tokens, n));
      if queues[items[n].queue].msgs == [] {
        RemoveTakesDown(queues, items, tokens, n);
      } else {
        TokenLeft(queues, items, tokens, n);
        DrainTakesDown(queues, items, tokens, n);
      }
      removed := RemoveFromSet(items[n].queue);
      if !removed {
        ReadAll();
      }
    }

    /** What comes before the turns: a read of everything. */
    method ComeTo(n: nat)
      requires n < |items| && hasSet && TakenDown(queues, items, tokens, n)
      modifies this`queues, this`tokens
      ensures TakenDown(queues, items, tokens, n) && Outside(old(queues), queues, items)
      ensures Clean(queues, tokens, n) == Arrive(items, Clean(old(queues), old(tokens), n))
    {
      DrainTakesDown(queues, items, tokens, n);
      ReadAll();
    }

    /** The turns of the clean-up for one listed queue; they end because there are at least as many tokens for the
        queue as messages. */
    method TakeDownItem(n: nat)
      requires n < |items| && hasSet && TakenDown(queues, items, tokens, n)
      modifies this`queues, this`tokens
      ensures TakenDown(queues, items, tokens, n + 1) && Outside(old(queues), queues, items)
      ensures Arrives(items, Clean(old(queues), old(tokens), n), Clean(queues, tokens, n + 1))
    {
      ComeTo(n);
      ghost var c := Clean(queues, tokens, n);
      ReachesSelf(items, c);
      var removed := false;
      while !removed
        invariant TakenDown(queues, items, tokens, if removed then n + 1 else n)
        invariant Outside(old(queues), queues, items)
        invariant !removed ==> Reaches(items, c, Clean(queues, tokens, n))
        invariant removed ==> Reaches(items, c, Arrive(items, Clean(queues, tokens, n + 1)))
        decreases !removed, |tokens|
      {
        ghost var before := queues;
        removed := TakeDownTurn(n, c);
        OutsideTwice(old(queues), before, queues, items);
      }
    }

    method TakeDownAll()
      requires Valid()
      modifies this`queues, this`tokens
      ensures TakenDown(queues, items, tokens, |items|) && Outside(old(queues), queues, items)
      ensures Reaches(items, Arrive(items, Clean(old(queues), old(tokens), 0)), Clean(queues, tokens, |items|))
    {
      ghost var start := Clean(queues, tokens, 0);
      ReachesSelf(items, Arrive(items, start));
      var n := 0;
      while n < |items|
        invariant n <= |items| && TakenDown(queues, items, tokens, n) && Outside(old(queues), queues, items)
        invariant Arrives(items, start, Clean(queues, tokens, n))
      {
        ghost var c := Clean(queues, tokens, n);
        TakeDownItem(n);
        ghost var d := Clean(queues, tokens, n + 1);
        ReachesOn(items, Arrive(items, start), Arrive(items, c), Arrive(items, d));
        OutsideTwice(old(queues), c.queues, queues, items);
        n := n + 1;
      }
    }

    /** `audio_event_iface_cleanup_listener`, where it ends. */
    method CleanupListener()
      requires Valid()
      modifies this`queues, this`tokens, this`hasSet
      ensures !hasSet && tokens == []
      ensures TakenDown(queues, items, [], |items|) && Outside(Emptied(old(queues), own), queues, items)
      ensures forall q: Q :: q < |queues| ==> queues[q].owner != Ours
      ensures forall q: Q :: q in own && q < |queues| ==> queues[q].msgs == []
      ensures exists left: seq<Q> {:trigger Clean(queues, left, |items|)} ::
                Reaches(items, Begin(items, old(queues), old(tokens), own, old(hasSet) && setSize > 0),
                        Clean(queues, left, |items|))
    {
      DrainTakesDownEmptied(queues, items, tokens, own);
      Discard();
      TakeDownAll();
      AllTakenDown(queues, items, tokens);
      OwnAreEmpty(old(queues), queues, items, own);
      hasSet := false;
      tokens := [];
    }

    method TotalSize() returns (total: nat)
      requires ItemsOk(items, queues)
      ensures total == Sizes(items) && (total > 0 <==> items != [])
    {
      total := 0;
      var k := 0;
      while k < |items|
        invariant k <= |items| && total == Sizes(items[..k]) && (total > 0 <==> k > 0)
      {
        assert items[..k + 1][..k] == items[..k];
        total := total + items[k].size;
        k := k + 1;
      }
      assert items[..|items|] == items;
    }

    method AddOne(n: nat, ghost before: seq<Queue>) returns (ok: bool)
      requires BuiltUp(before, queues, items, n) && n < |items|
      modifies this`queues
      ensures ok ==> BuiltUp(before, queues, items, n + 1)
      ensures !ok ==> !Addable(items, before) && FailedAt(before, queues, items, n) && Outside(before, queues, items)
    {
      AddBuildsUp(before, queues, items, n);
      BuiltUpOutside(before, queues, items, n);
      if queues[items[n].queue].owner != NoSet {
        FailsHere(before, queues, items, n);
      }
      ReceiveAll(items[n].queue);
      ok := AddToSet(items[n].queue);
    }

    /** `at` is the entry at which it fails. */
    method AddAll() returns (err: Err, ghost at: nat)
      requires ItemsOk(items, queues) && (items != [] ==> hasSet)
      requires forall q: Q :: q < |queues| ==> queues[q].owner != Ours
      modifies this`queues
      ensures err == if Addable(items, old(queues)) then Ok else Fail
      ensures err == Ok ==> TakenDown(queues, items, [], 0) && Empty(items, queues, Ours)
      ensures err == Fail ==> FailedAt(old(queues), queues, items, at)
      ensures Outside(old(queues), queues, items)
    {
      at := 0;
      ghost var before := queues;
      var n := 0;
      while n < |items|
        invariant n <= |items| && BuiltUp(before, queues, items, n)
      {
        var ok := AddOne(n, before);
        if !ok {
          return Fail, n;
        }
        n := n + 1;
      }
      BuiltUpOutside(before, queues, items, n);
      AllBuiltUp(before, queues, items);
      err := Ok;
    }

    /** `audio_event_iface_update_listener`. */
    method UpdateListener() returns (err: Err, ghost at: nat)
      requires !hasSet && tokens == [] && ItemsOk(items, queues)
      requires forall q: Q :: q < |queues| ==> queues[q].owner != Ours
      modifies this`queues, this`hasSet, this`capacity
      ensures err == if Addable(items, old(queues)) then Ok else Fail
      ensures err == Ok ==> Listening()
      ensures err == Fail ==> FailedAt(old(queues), queues, items, at)
      ensures (hasSet <==> items != []) && (hasSet ==> capacity == Sizes(items))
      ensures Outside(old(queues), queues, items)
    {
      var total := TotalSize();
      if total > 0 {
        hasSet := true;
        capacity := total;
      }
      err, at := AddAll();
    }

    /** The state a failing set leaves: the new entry is in the list behind those there were, and the set is new. */
    ghost predicate SetFailed(before: seq<Item>, q: Q, size: nat, owner: Owner)
      reads this
    {
      && items == before + [Item(q, size)] && SetFails(queues, before, Item(q, size), owner)
      && hasSet && tokens == [] && capacity == Sizes(items)
    }

    method SetListener(q: Q) returns (err: Err)
      requires Valid() && q < |queues|
      modifies this`queues, this`items, this`hasSet, this`capacity, this`tokens
      ensures err == if old(queues)[q].size == 0 then InvalidArg else if old(queues)[q].owner == NoSet then Ok else Fail
      ensures err == InvalidArg ==> items == old(items) && queues == old(queues)
      ensures err != InvalidArg ==> items == old(items) + [Item(q, old(queues)[q].size)]
      ensures err == Ok ==> Listening()
      ensures err == Fail ==> SetFailed(old(items), q, old(queues)[q].size, old(queues)[q].owner)
      ensures err == Fail ==> !Ends(items, Begin(items, queues, tokens, own, setSize > 0))
      ensures err != InvalidArg ==> Outside(Emptied(old(queues), own), queues, items)
    {
      if queues[q].size == 0 {
        return InvalidArg;
      }
      CleanupListener();
      ghost var before := items;
      err := Relist(q, Emptied(old(queues), own));
      if err == Fail {
        ExtraEntryIsNeverPassed(before, items[|before|], queues, tokens, own, setSize > 0);
      }
    }

    /** Adding an entry to a list that has been taken down, whose queues were as in `before`, and setting it up. */
    method Relist(q: Q, ghost before: seq<Queue>) returns (err: Err)
      requires !hasSet && tokens == [] && TakenDown(queues, items, [], |items|) && Outside(before, queues, items)
      requires q < |queues| && queues[q].size > 0 && (before[q].owner == Ours ==> Listed(items, q))
      requires forall i :: 0 <= i < |items| ==> before[items[i].queue].owner == Ours
      requires forall p: Q :: p < |queues| ==> queues[p].owner != Ours
      modifies this`queues, this`items, this`hasSet, this`capacity
      ensures err == if before[q].owner == NoSet then Ok else Fail
      ensures items == old(items) + [Item(q, before[q].size)]
      ensures err == Ok ==> Listening()
      ensures err == Fail ==> SetFailed(old(items), q, before[q].size, before[q].owner)
      ensures Outside(before, queues, items)
    {
      ghost var list, down := items, queues;
      var it := Item(q, queues[q].size);
      ghost var at;
      AddableIff(before, down, list, q);
      OutsideMore(before, down, list, it);
      items := items + [it];
      err, at := UpdateListener();
      OutsideTwice(before, down, queues, items);
      if err == Fail {
        FailsAtLast(before, down, queues, list, it, at);
      }
    }

    method DropFromList(q: Q)
      modifies this`items
      ensures items == Without(old(items), q)
    {
      var i := 0;
      while i < |items|
        invariant i <= |items| && Without(old(items), q) == items[..i] + Without(items[i..], q)
        decreases |items| - i
      {
        if items[i].queue == q {
          assert items[i..][1..] == (items[..i] + items[i + 1..])[i..];
          assert (items[..i] + items[i + 1..])[..i] == items[..i];
          items := items[..i] + items[i + 1..];
        } else {
          assert items[i..][1..] == items[i + 1..];
          assert items[..i + 1] == items[..i] + [items[i]];
          i := i + 1;
        }
      }
      assert items[..i] == items;
    }

    method RemoveListener(q: Q) returns (err: Err)
      requires Valid() && q < |queues|
      modifies this`queues, this`items, this`hasSet, this`capacity, this`tokens
      ensures err == if old(queues)[q].size == 0 then InvalidArg else Ok
      ensures err == InvalidArg ==> items == old(items) && queues == old(queues)
      ensures err == Ok ==> items == Without(old(items), q)
      ensures err == Ok ==> Listening()
    {
      if queues[q].size == 0 {
        return InvalidArg;
      }
      CleanupListener();
      WithoutAddable(queues, items, q);
      DropFromList(q);
      ghost var at;
      err, at := UpdateListener();
    }

    /** Setting a listener to an event and removing it again gives back the list, with every queue of it in a new set
        and nothing there. */
    method SetThenRemove(q: Q)
      requires Valid() && q < |queues| && queues[q].size > 0 && queues[q].owner == NoSet
      modifies this`queues, this`items, this`hasSet, this`capacity, this`tokens
      ensures items == old(items) && Listening()
    {
      SetRemoveRestores(items, q, queues[q].size);
      var err := SetListener(q);
      err := RemoveListener(q);
    }
  }
}
