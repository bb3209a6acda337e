/** The calls of a pipeline that go through its linked elements: run, resume, pause, stop and terminate. */
module PipelineControl {
  import opened AudioTypes
  import opened ElementSpec
  import opened ElementObject
  import Restart

  class Control {
    const els: seq<Element>
    const linked: seq<bool>
    var state: State

    /** Each element is in the list once. What its thread does about a call comes as input of the call: `created` is
        whether a thread can be created, `late` whether a wait for it times out, element by element. */
    predicate Valid() {
      |linked| == |els| && forall i, j :: 0 <= i < j < |els| ==> els[i] != els[j]
    }

    method StartLinked(created: seq<bool>)
      requires Valid() && |created| == |els|
      modifies els
      ensures forall i :: 0 <= i < |els| ==>
          els[i].View() == if linked[i] then Restart.StartIfIdle(old(els[i].View()), created[i]) else old(els[i].View())
    {
      var k := 0;
      while k < |els|
        invariant k <= |els|
        invariant forall i :: 0 <= i < k ==>
            els[i].View() == if linked[i] then
              Restart.StartIfIdle(old(els[i].View()), created[i])
            else old(els[i].View())
        invariant forall i :: k <= i < |els| ==> els[i].View() == old(els[i].View())
      {
        var s := els[k].state;
        if linked[k] && (s == Init || s == Stopped || s == Finished || s == Error) {
          var _ := els[k].Run(created[k]);
        }
        k := k + 1;
      }
    }

    /** `audio_pipeline_resume`. */
    method Resume(late: seq<bool>) returns (ok: bool)
      requires Valid() && |late| == |els|
      modifies this, els
      ensures state == Running
      ensures ok <==> forall i :: 0 <= i < |els| && linked[i] ==>
        ElementSpec.Resume(old(els[i].View()), 0.0, late[i]).1 == Ok
      ensures forall i :: 0 <= i < |els| ==>
          els[i].View() == if linked[i] then
            ElementSpec.Resume(old(els[i].View()), 0.0, late[i]).0
          else old(els[i].View())
    {
      ok := true;
      ghost var was := seq(|els|, i requires 0 <= i < |els| reads this, els => els[i].View());
      var k := 0;
      while k < |els|
        invariant k <= |els|
        invariant ok <==> forall i :: 0 <= i < k && linked[i] ==> ElementSpec.Resume(was[i], 0.0, late[i]).1 == Ok
        invariant forall i :: 0 <= i < k ==>
            els[i].View() == if linked[i] then ElementSpec.Resume(was[i], 0.0, late[i]).0 else was[i]
        invariant forall i :: k <= i < |els| ==> els[i].View() == was[i]
      {
        if linked[k] {
          var err := els[k].Resume(0.0, late[k]);
          ok := ok && err == Ok;
        }
        k := k + 1;
      }
      state := Running;
    }

    /** `audio_pipeline_pause`; what the elements answer is not looked at. */
    method Pause(late: seq<bool>)
      requires Valid() && |late| == |els|
      modifies els
      ensures forall i :: 0 <= i < |els| ==>
          els[i].View() == if linked[i] then ElementSpec.Pause(old(els[i].View()), late[i]).0 else old(els[i].View())
    {
      var k := 0;
      while k < |els|
        invariant k <= |els|
        invariant forall i :: 0 <= i < k ==>
            els[i].View() == if linked[i] then ElementSpec.Pause(old(els[i].View()), late[i]).0 else old(els[i].View())
        invariant forall i :: k <= i < |els| ==> els[i].View() == old(els[i].View())
      {
        if linked[k] {
          var _ := els[k].Pause(late[k]);
        }
        k := k + 1;
      }
    }

    /** `audio_pipeline_terminate`; what the elements answer is not looked at. */
    method Terminate(late: seq<bool>)
      requires Valid() && |late| == |els|
      modifies els
      ensures forall i :: 0 <= i < |els| ==>
          els[i].View() == if linked[i] then
            ElementSpec.Terminate(old(els[i].View()), late[i]).0
          else old(els[i].View())
    {
      var k := 0;
      while k < |els|
        invariant k <= |els|
        invariant forall i :: 0 <= i < k ==>
            els[i].View() == if linked[i] then
              ElementSpec.Terminate(old(els[i].View()), late[i]).0
            else old(els[i].View())
        invariant forall i :: k <= i < |els| ==> els[i].View() == old(els[i].View())
      {
        if linked[k] {
          var _ := els[k].Terminate(late[k]);
        }
        k := k + 1;
      }
    }

    /** `audio_pipeline_stop`; what the elements answer is not looked at. */
    method Stop() returns (err: Err)
      requires Valid()
      modifies els
      ensures err == if state == Running then Ok else Fail
      ensures forall i :: 0 <= i < |els| ==>
          els[i].View() == if linked[i] && err == Ok then ElementSpec.Stop(old(els[i].View())).0 else old(els[i].View())
    {
      if state != Running {
        return Fail;
      }
      var k := 0;
      while k < |els|
        invariant k <= |els|
        invariant forall i :: 0 <= i < k ==>
            els[i].View() == if linked[i] then ElementSpec.Stop(old(els[i].View())).0 else old(els[i].View())
        invariant forall i :: k <= i < |els| ==> els[i].View() == old(els[i].View())
      {
        if linked[k] {
          var _ := els[k].Stop();
        }
        k := k + 1;
      }
      err := Ok;
    }

    /** `audio_pipeline_run`. Two loops over the elements do to each of them what doing both to one after the other
        would; if any element is not resumed, or not in time, all are told to end. */
    method Run(created: seq<bool>, late: seq<bool>) returns (err: Err)
      requires Valid() && |created| == |els| == |late|
      modifies this, els
      ensures old(state) != Init ==>
          err == Ok && state == old(state) && forall i :: 0 <= i < |els| ==> els[i].View() == old(els[i].View())
      ensures old(state) == Init ==>
          (err == Ok <==> forall i :: 0 <= i < |els| && linked[i] ==>
                            Restart.RunOne(old(els[i].View()), created[i], late[i]).1 == Ok)
      ensures old(state) == Init ==> state == if err == Ok then Running else Error
      ensures old(state) == Init && err == Ok ==> forall i :: 0 <= i < |els| ==>
          els[i].View() == if linked[i] then
            Restart.RunOne(old(els[i].View()), created[i], late[i]).0
          else old(els[i].View())
      ensures old(state) == Init && err != Ok ==> err == Fail && forall i :: 0 <= i < |els| ==>
          els[i].View() == if linked[i] then
            ElementSpec.Terminate(Restart.RunOne(old(els[i].View()), created[i], late[i]).0, late[i]).0
          else old(els[i].View())
    {
      if state != Init {
        return Ok;
      }
      StartLinked(created);
      var ok := Resume(late);
      if !ok {
        state := Error;
        Terminate(late);
        return Fail;
      }
      state := Running;
      err := Ok;
    }
  }
}
