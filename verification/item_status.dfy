/** Counting which elements of a pipeline have reached a status. */
module ItemStatus {
  import opened AudioTypes

  // The statuses of `audio_element_status_t` that matter here; those from 1 to 7 are errors.
  const NONE := 0
  const ERROR_PROCESS := 3
  const INPUT_DONE := 8
  const INPUT_BUFFERING := 9
  const RUNNING := 12
  const PAUSED := 13
  const STOPPED := 14
  const FINISHED := 15

  /** An element of the list: its flag, the status last recorded for it, and the state it is in. */
  datatype Item = Item(linked: bool, status: int, state: State)

  predicate Halted(s: State) {
    s == Stopped || s == Finished || s == Error
  }

  /** The record of an element that has halted is overwritten from its state. */
  function Refreshed(it: Item): Item {
    if !it.linked || !Halted(it.state) then it
    else if it.state == Error then it.(status := ERROR_PROCESS)
    else it.(status := it.state.Code() + INPUT_BUFFERING)
  }

  predicate IsError(status: int) {
    NONE < status < INPUT_DONE
  }

  /** Whether a recorded status counts as the wanted one. */
  predicate Accepts(wanted: int, got: int) {
    && got != NONE
    && (|| got == wanted
        || (wanted in {RUNNING, PAUSED, STOPPED} && (got == FINISHED || IsError(got)))
        || (wanted == FINISHED && (got == STOPPED || IsError(got))))
  }

  /** The list after a report of `status` by element `i`. */
  function Recorded(items: seq<Item>, i: nat, status: int): seq<Item>
    requires i < |items|
  {
    var noted := items[i := items[i].(status := status)];
    seq(|items|, k requires 0 <= k < |items| => Refreshed(noted[k]))
  }

  /** Some element is linked, and every linked one is recorded with an accepted status. */
  predicate Complete(items: seq<Item>, wanted: int) {
    && (exists k :: 0 <= k < |items| && items[k].linked)
    && (forall k :: 0 <= k < |items| && items[k].linked ==> Accepts(wanted, items[k].status))
  }

  /** What a refreshed record says: halted elements count for their state, whatever they last reported. */
  lemma HaltedCounts(it: Item, wanted: int)
    requires it.linked && Halted(it.state)
    ensures Accepts(wanted, Refreshed(it).status) <==>
              match it.state
              case Error => wanted == ERROR_PROCESS || wanted in {RUNNING, PAUSED, STOPPED, FINISHED}
              case Stopped => wanted == STOPPED || wanted == FINISHED
              case _ => wanted in {RUNNING, PAUSED, STOPPED, FINISHED}
  {
  }

  /** What a record is good for, besides being waited for itself: an error for any of the four states, an end for the
      other three, a stop for an end, and nothing else for anything. */
  function Serves(status: int): set<int> {
    if 1 <= status <= 7 then {RUNNING, PAUSED, STOPPED, FINISHED}
    else if status == 15 then {RUNNING, PAUSED, STOPPED}
    else if status == 14 then {FINISHED}
    else {}
  }

  /** The test by what is wanted comes to that, for every record; that of an element which has not halted is its last
      report. */
  lemma RecordServes(it: Item, wanted: int)
    ensures Accepts(wanted, it.status) <==> it.status != 0 && (wanted == it.status || wanted in Serves(it.status))
    ensures !it.linked || !Halted(it.state) ==> Refreshed(it) == it
    ensures it.linked && it.state == Paused && it.status == RUNNING ==> !Accepts(PAUSED, Refreshed(it).status)
  {
  }

  class Items {
    var items: seq<Item>

    constructor (list: seq<Item>)
      ensures items == list
    {
      items := list;
    }

    /** `audio_pipeline_check_items_state`; `i` is the element that reports. */
    method CheckItemsState(i: nat, status: int) returns (err: Err)
      requires i < |items|
      modifies this
      ensures items == Recorded(old(items), i, status)
      ensures err == if Complete(items, status) then Ok else Fail
    {
      items := items[i := items[i].(status := status)];
      ghost var noted := items;
      var linked, reached := 0, 0;
      var k := 0;
      while k < |items|
        invariant k <= |items| == |noted|
        invariant forall m :: 0 <= m < k ==> items[m] == Refreshed(noted[m])
        invariant forall m :: k <= m < |items| ==> items[m] == noted[m]
        invariant 0 <= reached <= linked
        invariant linked > 0 <==> exists m :: 0 <= m < k && items[m].linked
        invariant reached == linked <==> forall m :: 0 <= m < k && items[m].linked ==> Accepts(status, items[m].status)
      {
        if items[k].linked {
          linked := linked + 1;
          var st := items[k].state;
          if st == Stopped || st == Finished || st == Error {
            if st == Error {
              items := items[k := items[k].(status := ERROR_PROCESS)];
            } else {
              items := items[k := items[k].(status := st.Code() + INPUT_BUFFERING)];
            }
          }
          var got := items[k].status;
          if got == NONE {
          } else if status == got {
            reached := reached + 1;
          } else if status == RUNNING || status == PAUSED || status == STOPPED {
            if got == FINISHED || (got > NONE && got < INPUT_DONE) {
              reached := reached + 1;
            }
          } else if status == FINISHED {
            if got == STOPPED || (got > NONE && got < INPUT_DONE) {
              reached := reached + 1;
            }
          }
        }
        k := k + 1;
      }
      err := if linked > 0 && reached == linked then Ok else Fail;
    }

    /** `audio_pipeline_reset_items_state`. */
    method ResetItemsState()
      modifies this
      ensures items == Forgotten(old(items))
    {
      var k := 0;
      while k < |items|
        invariant k <= |items| == |old(items)|
        invariant forall m :: 0 <= m < k ==> items[m] == Forgotten(old(items))[m]
        invariant forall m :: k <= m < |items| ==> items[m] == old(items)[m]
      {
        if items[k].linked {
          items := items[k := items[k].(status := NONE)];
        }
        k := k + 1;
      }
    }
  }

  function Forgotten(items: seq<Item>): seq<Item> {
    seq(|items|, k requires 0 <= k < |items| => if items[k].linked then items[k].(status := NONE) else items[k])
  }

  // ---- histories of reports ----

  /** The list after elements have reported a status one after another. */
  function Reports(items: seq<Item>, status: int, who: seq<nat>): (r: seq<Item>)
    requires forall k :: 0 <= k < |who| ==> who[k] < |items|
    ensures |r| == |items|
  {
    if who == [] then items else Recorded(Reports(items, status, who[..|who| - 1]), who[|who| - 1], status)
  }

  /** What has become of item `k` when the elements in `who` have reported after a reset. */
  function Awaited(it: Item, status: int, reported: bool): Item {
    it.(status := if reported then status else if it.linked then NONE else it.status)
  }

  predicate AllAwaited(items: seq<Item>, status: int, who: seq<nat>, r: seq<Item>) {
    |r| == |items| && forall k {:trigger r[k]} :: 0 <= k < |items| ==> r[k] == Awaited(items[k], status, k in who)
  }

  /** While no element has halted, the records after a reset are the set of elements that have reported since. */
  lemma {:induction false} ReportsAreTheReporters(items: seq<Item>, status: int, who: seq<nat>)
    requires forall k :: 0 <= k < |who| ==> who[k] < |items|
    requires forall k :: 0 <= k < |items| ==> !Halted(items[k].state)
    ensures AllAwaited(items, status, who, Reports(Forgotten(items), status, who))
  {
    if who != [] {
      var n := |who| - 1;
      ReportsAreTheReporters(items, status, who[..n]);
      var r0, r := Reports(Forgotten(items), status, who[..n]), Reports(Forgotten(items), status, who);
      assert who == who[..n] + [who[n]];
      forall k {:trigger r[k]} | 0 <= k < |items|
        ensures r[k] == Awaited(items[k], status, k in who)
      {
        assert r0[k] == Awaited(items[k], status, k in who[..n]);
        assert k in who <==> k in who[..n] || k == who[n];
        assert r == Recorded(r0, who[n], status);
      }
    }
  }

  /** After a reset, with no element halted, a report of a status other than none is answered with `ESP_OK` exactly if
      by then every linked element has reported, some element being linked: from the report on that completes them. */
  lemma OkFromTheCompletingReport(items: seq<Item>, status: int, who: seq<nat>)
    requires forall k :: 0 <= k < |who| ==> who[k] < |items|
    requires forall k :: 0 <= k < |items| ==> !Halted(items[k].state)
    requires status != NONE
    ensures Complete(Reports(Forgotten(items), status, who), status) <==>
              && (exists k :: 0 <= k < |items| && items[k].linked)
              && (forall k :: 0 <= k < |items| && items[k].linked ==> k in who)
  {
    ReportsAreTheReporters(items, status, who);
    var r := Reports(Forgotten(items), status, who);
    assert forall k :: 0 <= k < |items| ==> r[k] == Awaited(items[k], status, k in who);
    assert forall k :: 0 <= k < |items| ==> r[k].linked == items[k].linked;
    assert forall k :: 0 <= k < |items| && items[k].linked ==> (Accepts(status, r[k].status) <==> k in who);
  }
}
