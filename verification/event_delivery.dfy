/** Message queues, a queue set over some of them, and what a listener reads. */
module EventSpec {
  import opened AudioTypes

  type Msg = int
  type Q = nat

  /** Whose queue set a queue is a member of. */
  datatype Owner = NoSet | Ours | Theirs

  datatype Queue = Queue(size: nat, msgs: seq<Msg>, owner: Owner)

  /** An entry of the listening list. */
  datatype Item = Item(queue: Q, size: nat)

  function Sizes(items: seq<Item>): nat {
    if items == [] then 0 else Sizes(items[..|items| - 1]) + items[|items| - 1].size
  }

  predicate Listed(items: seq<Item>, q: Q) {
    exists i :: 0 <= i < |items| && items[i].queue == q
  }

  predicate Distinct(items: seq<Item>) {
    forall i, j :: 0 <= i < j < |items| ==> items[i].queue != items[j].queue
  }

  function Push(queues: seq<Queue>, q: Q, m: Msg): seq<Queue>
    requires q < |queues|
  {
    queues[q := queues[q].(msgs := queues[q].msgs + [m])]
  }

  function Pop(queues: seq<Queue>, q: Q): seq<Queue>
    requires q < |queues| && queues[q].msgs != []
  {
    queues[q := queues[q].(msgs := queues[q].msgs[1..])]
  }
}

/** Delivery: what is posted to the queues of a listener it reads, once each, in the order of posting. */
module EventDelivery {
  import opened AudioTypes
  import opened EventSpec

  /** A listener whose list and set are not being changed. `posted` and `read` are what its queues have accepted and
      what it has got out, in order, each with its queue. */
  datatype Hub = Hub(queues: seq<Queue>, items: seq<Item>, tokens: seq<Q>, posted: seq<(Q, Msg)>, read: seq<(Q, Msg)>)

  datatype Step = Send(q: Q, m: Msg) | Read

  /** A full queue refuses; a member queue leaves a token in the set. */
  function Next(h: Hub, s: Step): Hub {
    match s
    case Send(q, m) =>
      if q >= |h.queues| || |h.queues[q].msgs| >= h.queues[q].size then h
      else if h.queues[q].owner != Ours then h.(queues := Push(h.queues, q, m))
      else h.(queues := Push(h.queues, q, m), tokens := h.tokens + [q], posted := h.posted + [(q, m)])
    case Read =>
      if h.tokens == [] then h
      else
        var q, rest := h.tokens[0], h.tokens[1..];
        if q >= |h.queues| || h.queues[q].msgs == [] then h.(tokens := rest)
        else h.(queues := Pop(h.queues, q), tokens := rest, read := h.read + [(q, h.queues[q].msgs[0])])
  }

  function Run(h: Hub, steps: seq<Step>): Hub {
    if steps == [] then h else Next(Run(h, steps[..|steps| - 1]), steps[|steps| - 1])
  }

  /** The messages that tokens stand for: each takes the next message of its queue. */
  function Pending(tokens: seq<Q>, queues: seq<Queue>): seq<(Q, Msg)> {
    if tokens == [] then []
    else
      var q := tokens[0];
      if q >= |queues| || queues[q].msgs == [] then Pending(tokens[1..], queues)
      else [(q, queues[q].msgs[0])] + Pending(tokens[1..], Pop(queues, q))
  }

  /** How many messages the listed queues hold. */
  function Held(items: seq<Item>, queues: seq<Queue>): nat {
    if items == [] then 0
    else
      var q := items[|items| - 1].queue;
      Held(items[..|items| - 1], queues) + if q < |queues| then |queues[q].msgs| else 0
  }

  /** As many tokens for each member queue as it has messages. */
  predicate Matched(tokens: seq<Q>, queues: seq<Queue>) {
    forall q: Q :: q < |queues| && queues[q].owner == Ours ==> multiset(tokens)[q] == |queues[q].msgs|
  }

  predicate Wired(h: Hub) {
    && Distinct(h.items)
    && (forall i :: 0 <= i < |h.items| ==>
                      h.items[i].queue < |h.queues| && h.queues[h.items[i].queue].size == h.items[i].size)
    && (forall q :: 0 <= q < |h.queues| ==>
                      (h.queues[q].owner == Ours <==> Listed(h.items, q)) && |h.queues[q].msgs| <= h.queues[q].size)
    && (forall t :: t in h.tokens ==> t < |h.queues| && h.queues[t].owner == Ours)
  }

  predicate Delivers(h: Hub) {
    && Wired(h) && Matched(h.tokens, h.queues)
    && |h.tokens| == Held(h.items, h.queues)
    && h.posted == h.read + Pending(h.tokens, h.queues)
  }

  // ---- counting ----

  lemma {:induction false} HeldElsewhere(items: seq<Item>, queues: seq<Queue>, queues': seq<Queue>, q: Q)
    requires |queues'| == |queues| && forall p: Q :: p < |queues| && p != q ==> queues'[p] == queues[p]
    requires !Listed(items, q)
    ensures Held(items, queues') == Held(items, queues)
  {
    if items != [] {
      var init := items[..|items| - 1];
      assert forall i :: 0 <= i < |init| ==> init[i] == items[i];
      assert items[|items| - 1].queue != q;
      HeldElsewhere(init, queues, queues', q);
    }
  }

  /** A message more or less in one listed queue is one more or less in all. */
  lemma {:induction false} HeldChanges(items: seq<Item>, queues: seq<Queue>, queues': seq<Queue>, q: Q)
    requires |queues'| == |queues| && forall p: Q :: p < |queues| && p != q ==> queues'[p] == queues[p]
    requires Distinct(items) && Listed(items, q) && q < |queues|
    ensures Held(items, queues') - |queues'[q].msgs| == Held(items, queues) - |queues[q].msgs|
  {
    var n := |items| - 1;
    var init := items[..n];
    assert forall i :: 0 <= i < |init| ==> init[i] == items[i];
    if items[n].queue == q {
      HeldElsewhere(init, queues, queues', q);
    } else {
      var i :| 0 <= i < |items| && items[i].queue == q;
      assert init[i].queue == q;
      HeldChanges(init, queues, queues', q);
    }
  }

  lemma {:induction false} HeldAtMostSizes(items: seq<Item>, queues: seq<Queue>)
    requires forall i :: 0 <= i < |items| ==>
                           items[i].queue < |queues| && |queues[items[i].queue].msgs| <= items[i].size
    ensures Held(items, queues) <= Sizes(items)
  {
    if items != [] {
      HeldAtMostSizes(items[..|items| - 1], queues);
    }
  }

  // ---- order ----

  lemma FirstToken(tokens: seq<Q>)
    requires tokens != []
    ensures multiset(tokens) == multiset{tokens[0]} + multiset(tokens[1..])
    ensures forall t :: t in tokens[1..] ==> t in tokens
  {
    assert tokens == [tokens[0]] + tokens[1..];
  }

  lemma {:induction false} PendingOfSent(tokens: seq<Q>, queues: seq<Queue>, q: Q, m: Msg)
    requires q < |queues| && multiset(tokens)[q] == |queues[q].msgs|
    ensures Pending(tokens + [q], Push(queues, q, m)) == Pending(tokens, queues) + [(q, m)]
  {
    var queues' := Push(queues, q, m);
    if tokens == [] {
      assert queues[q].msgs == [];
      assert queues'[q].msgs == [m];
      assert Pending([q], queues') == [(q, m)] + Pending([], Pop(queues', q));
    } else {
      var t := tokens[0];
      FirstToken(tokens);
      assert (tokens + [q])[1..] == tokens[1..] + [q];
      if t >= |queues| || queues[t].msgs == [] {
        PendingOfSent(tokens[1..], queues, q, m);
      } else {
        PendingOfSent(tokens[1..], Pop(queues, t), q, m);
        assert t == q ==> (queues[q].msgs + [m])[1..] == queues[q].msgs[1..] + [m];
        assert Pop(queues', t) == Push(Pop(queues, t), q, m);
      }
    }
  }

  // ---- steps ----

  lemma SendDelivers(h: Hub, q: Q, m: Msg)
    requires Delivers(h)
    ensures Delivers(Next(h, Send(q, m)))
  {
    if q < |h.queues| && |h.queues[q].msgs| < h.queues[q].size {
      if h.queues[q].owner == Ours {
        MemberSendDelivers(h, q, m);
      } else {
        OtherSendDelivers(h, q, m);
      }
    }
  }

  lemma MemberSendDelivers(h: Hub, q: Q, m: Msg)
    requires Delivers(h) && q < |h.queues| && |h.queues[q].msgs| < h.queues[q].size && h.queues[q].owner == Ours
    ensures Delivers(Next(h, Send(q, m)))
  {
    var n := Next(h, Send(q, m));
    StaysWired(h, n);
    HeldChanges(h.items, h.queues, n.queues, q);
    PendingOfSent(h.tokens, h.queues, q, m);
    assert n.posted == h.read + (Pending(h.tokens, h.queues) + [(q, m)]);
  }

  lemma OtherSendDelivers(h: Hub, q: Q, m: Msg)
    requires Delivers(h) && q < |h.queues| && |h.queues[q].msgs| < h.queues[q].size && h.queues[q].owner != Ours
    ensures Delivers(Next(h, Send(q, m)))
  {
    var n := Next(h, Send(q, m));
    StaysWired(h, n);
    HeldElsewhere(h.items, h.queues, n.queues, q);
    PendingElsewhere(h.tokens, h.queues, n.queues, q);
  }

  /** Only messages change, within the sizes of the queues, and only member queues have tokens. */
  lemma StaysWired(h: Hub, n: Hub)
    requires Wired(h) && n.items == h.items && |n.queues| == |h.queues|
    requires forall q :: 0 <= q < |h.queues| ==>
                           && n.queues[q].size == h.queues[q].size && n.queues[q].owner == h.queues[q].owner
                           && |n.queues[q].msgs| <= n.queues[q].size
    requires forall t :: t in n.tokens ==> t < |h.queues| && h.queues[t].owner == Ours
    ensures Wired(n)
  {
  }

  lemma {:induction false} PendingElsewhere(tokens: seq<Q>, queues: seq<Queue>, queues': seq<Queue>, q: Q)
    requires |queues'| == |queues| && q !in tokens
    requires forall p: Q :: p < |queues| && p != q ==> queues'[p] == queues[p]
    ensures Pending(tokens, queues') == Pending(tokens, queues)
  {
    if tokens != [] {
      var t := tokens[0];
      if t >= |queues| || queues[t].msgs == [] {
        PendingElsewhere(tokens[1..], queues, queues', q);
      } else {
        PendingElsewhere(tokens[1..], Pop(queues, t), Pop(queues', t), q);
      }
    }
  }

  lemma ReadDelivers(h: Hub)
    requires Delivers(h)
    ensures var n := Next(h, Read);
            && Delivers(n)
            && (h.tokens != [] ==> n.read == h.posted[..|h.read| + 1])
  {
    if h.tokens != [] {
      var q, n := h.tokens[0], Next(h, Read);
      FirstToken(h.tokens);
      assert q in h.tokens && h.queues[q].msgs != [];
      StaysWired(h, n);
      HeldChanges(h.items, h.queues, n.queues, q);
      ReadPending(h, n, q);
    }
  }

  lemma ReadPending(h: Hub, n: Hub, q: Q)
    requires h.tokens != [] && q == h.tokens[0] && q < |h.queues| && h.queues[q].msgs != [] && n == Next(h, Read)
    requires h.posted == h.read + Pending(h.tokens, h.queues)
    ensures n.posted == n.read + Pending(n.tokens, n.queues) && n.read == h.posted[..|h.read| + 1]
  {
    assert h.posted == h.read + ([(q, h.queues[q].msgs[0])] + Pending(n.tokens, n.queues));
  }

  lemma {:induction false} RunDelivers(h: Hub, steps: seq<Step>)
    requires Delivers(h)
    ensures Delivers(Run(h, steps)) && Run(h, steps).items == h.items
  {
    if steps != [] {
      var g, s := Run(h, steps[..|steps| - 1]), steps[|steps| - 1];
      RunDelivers(h, steps[..|steps| - 1]);
      match s
      case Send(q, m) => SendDelivers(g, q, m);
      case Read => ReadDelivers(g);
    }
  }

  /** Over every run of sends and reads: each member queue has as many tokens in the set as messages; the tokens never
      exceed the capacity the set was made with; and what was read is a prefix of what was posted, each message once,
      in the order of posting over all queues, the rest being what the tokens stand for. */
  lemma EveryMessageOnceInOrder(h: Hub, steps: seq<Step>)
    requires Delivers(h)
    ensures var n := Run(h, steps);
            && Matched(n.tokens, n.queues)
            && |n.tokens| <= Sizes(h.items)
            && n.posted == n.read + Pending(n.tokens, n.queues)
            && |n.posted| == |n.read| + |n.tokens|
  {
    RunDelivers(h, steps);
    var n := Run(h, steps);
    HeldAtMostSizes(n.items, n.queues);
    PendingLength(n.tokens, n.queues);
  }

  /** With a token for each message, every token stands for one. */
  lemma {:induction false} PendingLength(tokens: seq<Q>, queues: seq<Queue>)
    requires forall t: Q :: t in tokens ==> t < |queues| && multiset(tokens)[t] <= |queues[t].msgs|
    ensures |Pending(tokens, queues)| == |tokens|
  {
    if tokens != [] {
      var q := tokens[0];
      FirstToken(tokens);
      assert q in tokens && multiset(tokens)[q] > 0;
      PendingLength(tokens[1..], Pop(queues, q));
    }
  }

  /** A send posts its message exactly if the queue is a member of the set and has room; whether the queue is a member
      or not, it takes the message if it has room and refuses it otherwise. */
  lemma SendIsAcceptedIff(h: Hub, q: Q, m: Msg)
    requires q < |h.queues|
    ensures var n := Next(h, Send(q, m));
            var room := |h.queues[q].msgs| < h.queues[q].size;
            && |n.queues| == |h.queues| && n.read == h.read
            && n.queues[q].msgs == h.queues[q].msgs + (if room then [m] else [])
            && n.posted == h.posted + (if room && h.queues[q].owner == Ours then [(q, m)] else [])
            && |n.tokens| - |h.tokens| == |n.posted| - |h.posted|
            && (forall p: Q :: p < |h.queues| && p != q ==> n.queues[p] == h.queues[p])
  {
  }

  function Reads(steps: seq<Step>): nat {
    if steps == [] then 0 else Reads(steps[..|steps| - 1]) + if steps[|steps| - 1] == Read then 1 else 0
  }

  /** Histories only grow. */
  predicate Grows(h: Hub, n: Hub) {
    h.posted <= n.posted && h.read <= n.read
  }

  lemma StepGrows(h: Hub, s: Step)
    requires Delivers(h)
    ensures Grows(h, Next(h, s))
    ensures s == Read && |h.read| < |h.posted| ==> |Next(h, s).read| == |h.read| + 1
  {
    PendingLength(h.tokens, h.queues);
    if s == Read {
      ReadDelivers(h);
    }
  }

  /** Every read gets a message while any is left, and what has been posted stays posted. */
  lemma {:induction false} ReadsGoOn(h: Hub, steps: seq<Step>)
    requires Delivers(h)
    ensures var n := Run(h, steps);
            && Grows(h, n)
            && (|n.read| >= |h.posted| || |n.read| >= |h.read| + Reads(steps))
  {
    if steps != [] {
      var before := steps[..|steps| - 1];
      RunDelivers(h, before);
      ReadsGoOn(h, before);
      StepGrows(Run(h, before), steps[|steps| - 1]);
    }
  }

  /** No message is lost or held up: one that is accepted is read, from its queue, as soon as there have been as many
      reads as messages were waiting, whatever else is sent meanwhile. */
  lemma AcceptedIsRead(h: Hub, q: Q, m: Msg, steps: seq<Step>)
    requires Delivers(h) && q < |h.queues| && h.queues[q].owner == Ours && |h.queues[q].msgs| < h.queues[q].size
    requires Reads(steps) > |h.tokens|
    ensures var n := Run(Next(h, Send(q, m)), steps);
            |n.read| > |h.posted| && n.read[|h.posted|] == (q, m)
  {
    var g := Next(h, Send(q, m));
    var n := Run(g, steps);
    SendDelivers(h, q, m);
    SendIsAcceptedIff(h, q, m);
    PendingLength(h.tokens, h.queues);
    ReadsGoOn(g, steps);
    RunDelivers(g, steps);
    assert n.posted[|h.posted|] == g.posted[|h.posted|];
  }

  /** A read finds a message precisely when there is one in some member queue. */
  lemma ReadFindsIff(h: Hub)
    requires Delivers(h)
    ensures |Next(h, Read).read| == |h.read| + 1 <==>
              exists q :: 0 <= q < |h.queues| && h.queues[q].owner == Ours && h.queues[q].msgs != []
  {
    ReadDelivers(h);
    if h.tokens != [] {
      assert h.tokens[0] in h.tokens;
      assert multiset(h.tokens)[h.tokens[0]] > 0;
    }
  }
}
