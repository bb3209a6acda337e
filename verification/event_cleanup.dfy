/** The clean-up of a listener, as the machine it is: when its loops come to an end. */
module EventCleanup {
  import opened AudioTypes
  import opened EventSpec

  /** A read with no time to wait: the first token of the set is used up, and with it a message if its queue has one. */
  function ReadOne(queues: seq<Queue>, tokens: seq<Q>): (seq<Queue>, seq<Q>, Option<Msg>) {
    if tokens == [] then (queues, tokens, None)
    else
      var q := tokens[0];
      if q >= |queues| || queues[q].msgs == [] then (queues, tokens[1..], None)
      else (Pop(queues, q), tokens[1..], Some(queues[q].msgs[0]))
  }

  /** Reading until a read fails. */
  function Drained(queues: seq<Queue>, tokens: seq<Q>): (seq<Queue>, seq<Q>)
    decreases |tokens|
  {
    var (queues', tokens', got) := ReadOne(queues, tokens);
    if got == None then (queues', tokens') else Drained(queues', tokens')
  }

  /** At least as many tokens for each member queue as it has messages. */
  predicate Backed(queues: seq<Queue>, tokens: seq<Q>) {
    forall q: Q :: q < |queues| && queues[q].owner == Ours ==> |queues[q].msgs| <= multiset(tokens)[q]
  }

  /** The same queues with, perhaps, fewer messages; those that no token stands for are the same. */
  predicate Shrunk(queues: seq<Queue>, tokens: seq<Q>, queues': seq<Queue>) {
    && |queues'| == |queues|
    && forall q: Q {:trigger queues'[q]} :: q < |queues| ==>
                        && queues'[q].size == queues[q].size && queues'[q].owner == queues[q].owner
                        && |queues'[q].msgs| <= |queues[q].msgs|
                        && (q !in tokens ==> queues'[q] == queues[q])
  }

  lemma ReadOneFacts(queues: seq<Queue>, tokens: seq<Q>)
    requires Backed(queues, tokens) && tokens != []
    ensures var (queues', tokens', got) := ReadOne(queues, tokens);
            && Backed(queues', tokens') && Shrunk(queues, tokens, queues') && tokens' == tokens[1..]
            && forall t :: t in tokens' ==> t in tokens
  {
    assert tokens == [tokens[0]] + tokens[1..];
    assert multiset(tokens) == multiset{tokens[0]} + multiset(tokens[1..]);
  }

  /** Draining uses up tokens, if there are any, and keeps the messages that are left backed. */
  lemma {:induction false} DrainedFacts(queues: seq<Queue>, tokens: seq<Q>)
    requires Backed(queues, tokens)
    ensures var (queues', tokens') := Drained(queues, tokens);
            && Backed(queues', tokens') && Shrunk(queues, tokens, queues')
            && (tokens != [] ==> |tokens'| < |tokens|)
            && forall t :: t in tokens' ==> t in tokens
    decreases |tokens|
  {
    if tokens != [] {
      ReadOneFacts(queues, tokens);
      var (queues', tokens', got) := ReadOne(queues, tokens);
      if got != None {
        DrainedFacts(queues', tokens');
      }
    }
  }

  lemma {:induction false} DrainKeepsOwners(queues: seq<Queue>, tokens: seq<Q>, q: Q)
    requires q < |queues|
    ensures var queues' := Drained(queues, tokens).0; |queues'| == |queues| && queues'[q].owner == queues[q].owner
    decreases |tokens|
  {
    var (queues', tokens', got) := ReadOne(queues, tokens);
    if got != None {
      DrainKeepsOwners(queues', tokens', q);
    }
  }

  /** The queues after those in `own` have been emptied. */
  function Emptied(queues: seq<Queue>, own: seq<Q>): seq<Queue> {
    seq(|queues|, q requires 0 <= q < |queues| => if q in own then queues[q].(msgs := []) else queues[q])
  }

  // ---- turn by turn ----

  /** The clean-up at work on entry `n` of the list. */
  datatype Clean = Clean(queues: seq<Queue>, tokens: seq<Q>, n: nat)

  /** Coming to an entry, it reads until a read fails. */
  function Arrive(items: seq<Item>, c: Clean): Clean {
    if c.n >= |items| then c
    else var (queues, tokens) := Drained(c.queues, c.tokens); Clean(queues, tokens, c.n)
  }

  predicate Removable(queues: seq<Queue>, q: Q) {
    q < |queues| && queues[q].owner == Ours && queues[q].msgs == []
  }

  /** One attempt to take the entry's queue out of the set: on to the next entry if it succeeds, otherwise reading and
      trying again. */
  function Turn(items: seq<Item>, c: Clean): Clean {
    if c.n >= |items| then c
    else
      var q := items[c.n].queue;
      if Removable(c.queues, q) then
        Arrive(items, Clean(c.queues[q := c.queues[q].(owner := NoSet)], c.tokens, c.n + 1))
      else Arrive(items, c)
  }

  function After(items: seq<Item>, c: Clean, k: nat): Clean {
    if k == 0 then c else Turn(items, After(items, c, k - 1))
  }

  lemma {:induction false} AfterAdd(items: seq<Item>, c: Clean, j: nat, k: nat)
    ensures After(items, After(items, c, j), k) == After(items, c, j + k)
  {
    if k > 0 {
      AfterAdd(items, c, j, k - 1);
    }
  }

  ghost predicate Reaches(items: seq<Item>, c: Clean, d: Clean) {
    exists k: nat {:trigger After(items, c, k)} :: After(items, c, k) == d
  }

  lemma ReachesSelf(items: seq<Item>, c: Clean)
    ensures Reaches(items, c, c)
  {
    assert After(items, c, 0) == c;
  }

  lemma ReachesTurn(items: seq<Item>, c: Clean, d: Clean)
    requires Reaches(items, c, d)
    ensures Reaches(items, c, Turn(items, d))
  {
    var k: nat :| After(items, c, k) == d;
    assert After(items, c, k + 1) == Turn(items, d);
  }

  lemma ReachesOn(items: seq<Item>, c: Clean, d: Clean, e: Clean)
    requires Reaches(items, c, d) && Reaches(items, d, e)
    ensures Reaches(items, c, e)
  {
    var j: nat :| After(items, c, j) == d;
    var k: nat :| After(items, d, k) == e;
    AfterAdd(items, c, j, k);
  }

  /** From the arrival at one state to the arrival at another. */
  ghost predicate Arrives(items: seq<Item>, c: Clean, d: Clean) {
    Reaches(items, Arrive(items, c), Arrive(items, d))
  }

  /** The start: the listener's own queues `own` are emptied and, if `readSet`, the set is read. */
  function Begin(items: seq<Item>, queues: seq<Queue>, tokens: seq<Q>, own: seq<Q>, readSet: bool): Clean {
    var (queues', tokens') := if readSet then Drained(Emptied(queues, own), tokens) else (Emptied(queues, own), tokens);
    Arrive(items, Clean(queues', tokens', 0))
  }

  /** After some number of turns the clean-up is through the list. */
  ghost predicate Ends(items: seq<Item>, c: Clean) {
    exists k: nat {:trigger After(items, c, k)} :: After(items, c, k).n >= |items|
  }

  predicate InRange(items: seq<Item>, queues: seq<Queue>) {
    forall i :: 0 <= i < |items| ==> items[i].queue < |queues|
  }

  /** The listed queues are distinct and all of them in the set. */
  predicate Cleanable(items: seq<Item>, queues: seq<Queue>)
    requires InRange(items, queues)
  {
    Distinct(items) && forall i :: 0 <= i < |items| ==> queues[items[i].queue].owner == Ours
  }

  // ---- it ends ----

  predicate Going(items: seq<Item>, c: Clean) {
    && InRange(items, c.queues) && Distinct(items) && c.n <= |items| && Backed(c.queues, c.tokens)
    && forall i :: c.n <= i < |items| ==> c.queues[items[i].queue].owner == Ours
  }

  lemma ArriveGoes(items: seq<Item>, c: Clean)
    requires Going(items, c)
    ensures var d := Arrive(items, c);
            Going(items, d) && d.n == c.n && (c.n < |items| && c.tokens != [] ==> |d.tokens| < |c.tokens|)
  {
    DrainedFacts(c.queues, c.tokens);
  }

  /** Every turn gets on to the next entry or uses up a token. */
  lemma TurnGoes(items: seq<Item>, c: Clean)
    requires Going(items, c) && c.n < |items|
    ensures var d := Turn(items, c);
            Going(items, d) && (d.n == c.n + 1 || (d.n == c.n && |d.tokens| < |c.tokens|))
  {
    var q := items[c.n].queue;
    if Removable(c.queues, q) {
      var d := Clean(c.queues[q := c.queues[q].(owner := NoSet)], c.tokens, c.n + 1);
      forall i | d.n <= i < |items|
        ensures d.queues[items[i].queue].owner == Ours
      {
        assert items[i].queue != items[c.n].queue;
      }
      ArriveGoes(items, d);
    } else {
      assert multiset(c.tokens)[q] > 0;
      ArriveGoes(items, c);
    }
  }

  lemma {:induction false} AfterFirst(items: seq<Item>, c: Clean, k: nat)
    ensures After(items, c, k + 1) == After(items, Turn(items, c), k)
  {
    if k > 0 {
      AfterFirst(items, c, k - 1);
    }
  }

  lemma {:induction false} GoingEnds(items: seq<Item>, c: Clean) returns (k: nat)
    requires Going(items, c)
    ensures After(items, c, k).n >= |items|
    decreases |items| - c.n, |c.tokens|
  {
    if c.n == |items| {
      k := 0;
    } else {
      TurnGoes(items, c);
      k := GoingEnds(items, Turn(items, c));
      AfterFirst(items, c, k);
      k := k + 1;
    }
  }

  /** The entries passed are out of the set and empty. */
  predicate PassedAreOut(items: seq<Item>, c: Clean) {
    && c.n <= |items| && InRange(items, c.queues)
    && forall i :: 0 <= i < c.n ==> c.queues[items[i].queue].owner == NoSet && c.queues[items[i].queue].msgs == []
  }

  lemma {:induction false} DrainedStaysEmpty(queues: seq<Queue>, tokens: seq<Q>, q: Q)
    requires q < |queues| && queues[q].msgs == []
    ensures var queues' := Drained(queues, tokens).0; |queues'| == |queues| && queues'[q] == queues[q]
    decreases |tokens|
  {
    var (queues', tokens', got) := ReadOne(queues, tokens);
    if got != None {
      DrainedStaysEmpty(queues', tokens', q);
    }
  }

  lemma ArrivePasses(items: seq<Item>, c: Clean)
    requires PassedAreOut(items, c)
    ensures PassedAreOut(items, Arrive(items, c)) && Arrive(items, c).n == c.n
  {
    if c.n < |items| {
      DrainedKeepsLength(c.queues, c.tokens);
      forall i | 0 <= i < c.n
        ensures Drained(c.queues, c.tokens).0[items[i].queue] == c.queues[items[i].queue]
      {
        DrainedStaysEmpty(c.queues, c.tokens, items[i].queue);
      }
    }
  }

  lemma {:induction false} DrainedKeepsLength(queues: seq<Queue>, tokens: seq<Q>)
    ensures |Drained(queues, tokens).0| == |queues|
    decreases |tokens|
  {
    var (queues', tokens', got) := ReadOne(queues, tokens);
    if got != None {
      DrainedKeepsLength(queues', tokens');
    }
  }

  lemma TurnPasses(items: seq<Item>, c: Clean)
    requires PassedAreOut(items, c)
    ensures PassedAreOut(items, Turn(items, c))
  {
    if c.n < |items| {
      var q := items[c.n].queue;
      if Removable(c.queues, q) {
        ArrivePasses(items, Clean(c.queues[q := c.queues[q].(owner := NoSet)], c.tokens, c.n + 1));
      } else {
        ArrivePasses(items, c);
      }
    }
  }

  /** However far the clean-up gets, and whatever the tokens: every entry it has passed is out of the set, with nothing
      left in its queue. */
  lemma {:induction false} PassedStayOut(items: seq<Item>, c: Clean, k: nat)
    requires PassedAreOut(items, c)
    ensures PassedAreOut(items, After(items, c, k))
  {
    if k > 0 {
      PassedStayOut(items, c, k - 1);
      TurnPasses(items, After(items, c, k - 1));
    }
  }

  // ---- it does not ----

  /** Entry `m` will not be passed: its queue is not in the set, or is also that of an entry `i` before it and still to
      come, whose turn takes it out. */
  predicate Stuck(items: seq<Item>, c: Clean, i: nat, m: nat) {
    && i <= m < |items| && InRange(items, c.queues) && c.n <= m && items[i].queue == items[m].queue
    && ((c.n <= i && i < m) || c.queues[items[m].queue].owner != Ours)
  }

  lemma ArriveIsStuck(items: seq<Item>, c: Clean, i: nat, m: nat)
    requires Stuck(items, c, i, m)
    ensures Stuck(items, Arrive(items, c), i, m)
  {
    DrainKeepsOwners(c.queues, c.tokens, items[m].queue);
  }

  lemma TurnIsStuck(items: seq<Item>, c: Clean, i: nat, m: nat)
    requires Stuck(items, c, i, m)
    ensures Stuck(items, Turn(items, c), i, m)
  {
    var q := items[c.n].queue;
    if Removable(c.queues, q) {
      ArriveIsStuck(items, Clean(c.queues[q := c.queues[q].(owner := NoSet)], c.tokens, c.n + 1), i, m);
    } else {
      ArriveIsStuck(items, c, i, m);
    }
  }

  lemma {:induction false} StuckForEver(items: seq<Item>, c: Clean, i: nat, m: nat, k: nat)
    requires Stuck(items, c, i, m)
    ensures Stuck(items, After(items, c, k), i, m)
  {
    if k > 0 {
      StuckForEver(items, c, i, m, k - 1);
      TurnIsStuck(items, After(items, c, k - 1), i, m);
    }
  }

  // ---- exactly when ----

  lemma BeginKeepsOwners(items: seq<Item>, queues: seq<Queue>, tokens: seq<Q>, own: seq<Q>, readSet: bool, q: Q)
    requires q < |queues|
    ensures var c := Begin(items, queues, tokens, own, readSet);
            |c.queues| == |queues| && c.queues[q].owner == queues[q].owner && c.n == 0
  {
    var e := Emptied(queues, own);
    DrainKeepsOwners(e, tokens, q);
    DrainKeepsOwners(e, tokens, q);
    var (queues', tokens') := if readSet then Drained(e, tokens) else (e, tokens);
    DrainKeepsOwners(queues', tokens', q);
  }

  lemma BeginIsBacked(items: seq<Item>, queues: seq<Queue>, tokens: seq<Q>, own: seq<Q>, readSet: bool)
    requires Backed(queues, tokens)
    ensures var c := Begin(items, queues, tokens, own, readSet); |c.queues| == |queues| && Backed(c.queues, c.tokens)
  {
    var e := Emptied(queues, own);
    assert Backed(e, tokens);
    DrainedFacts(e, tokens);
    var (queues', tokens') := if readSet then Drained(e, tokens) else (e, tokens);
    DrainedFacts(queues', tokens');
  }

  /** With messages backed by tokens, and none arriving meanwhile, the clean-up ends exactly if the listed queues are
      distinct and all of them in the set; otherwise there is an entry that it never gets past. */
  lemma CleanupEndsIff(items: seq<Item>, queues: seq<Queue>, tokens: seq<Q>, own: seq<Q>, readSet: bool)
    requires InRange(items, queues) && Backed(queues, tokens)
    ensures Ends(items, Begin(items, queues, tokens, own, readSet)) <==> Cleanable(items, queues)
  {
    var c := Begin(items, queues, tokens, own, readSet);
    BeginIsBacked(items, queues, tokens, own, readSet);
    forall i | 0 <= i < |items|
      ensures c.queues[items[i].queue].owner == queues[items[i].queue].owner && c.n == 0
    {
      BeginKeepsOwners(items, queues, tokens, own, readSet, items[i].queue);
    }
    if Cleanable(items, queues) {
      var k := GoingEnds(items, c);
    } else {
      var i, m := BadEntry(items, queues);
      forall k: nat
        ensures After(items, c, k).n < |items|
      {
        StuckForEver(items, c, i, m, k);
      }
    }
  }

  lemma BadEntry(items: seq<Item>, queues: seq<Queue>) returns (i: nat, m: nat)
    requires InRange(items, queues) && !Cleanable(items, queues)
    ensures i <= m < |items| && items[i].queue == items[m].queue
    ensures i < m || queues[items[m].queue].owner != Ours
  {
    if Distinct(items) {
      i :| 0 <= i < |items| && queues[items[i].queue].owner != Ours;
      m := i;
    } else {
      i, m :| 0 <= i < m < |items| && items[i].queue == items[m].queue;
    }
  }
}
