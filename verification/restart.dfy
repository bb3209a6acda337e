/** Stopping a pipeline, waiting for its elements, and running it again. */
module Restart {
  import opened AudioTypes
  import opened ElementSpec
  import opened ElementRuns

  /** The elements of a pipeline with a caller inside wait-for-stop. `pos` is the element it waits for next; `ok` is
      whether no wait has timed out. */
  datatype Sys = Sys(els: seq<Machine>, linked: seq<bool>, state: State, pos: nat, ok: bool, returned: bool)

  datatype SysStep =
    | ElementStep(i: nat, step: Step)
    | WaitStep(timeout: bool)
    | ReturnStep

  /** Anything an element or another caller may do meanwhile, except sending a resume command or resetting the state of
      an element that is open. */
  predicate Undisturbing(m: Machine, s: Step) {
    Tame(m, s) && !s.ResumeStep? && s != SendStep(ResumeCmd)
  }

  predicate Can(y: Sys, s: SysStep) {
    && |y.linked| == |y.els|
    && match s
       case ElementStep(i, step) => i < |y.els| && Enabled(y.els[i], step) && Undisturbing(y.els[i], step)
       case WaitStep(timeout) => y.pos < |y.els| && (timeout || !y.linked[y.pos] || WaitReturns(y.els[y.pos]))
       case ReturnStep => y.pos == |y.els|
  }

  /** An element whose wait has not timed out is put back to INIT; the pipeline is, in any case. */
  function Step(y: Sys, s: SysStep): Sys
    requires Can(y, s)
  {
    match s
    case ElementStep(i, step) => y.(els := y.els[i := Next(y.els[i], step)])
    case WaitStep(timeout) =>
      if !y.linked[y.pos] then y.(pos := y.pos + 1)
      else if timeout then y.(pos := y.pos + 1, ok := false)
      else y.(pos := y.pos + 1, els := y.els[y.pos := ResetState(y.els[y.pos])])
    case ReturnStep => y.(state := Init, returned := true)
  }

  predicate Possible(y: Sys, steps: seq<SysStep>)
    decreases |steps|
  {
    steps == [] || (Can(y, steps[0]) && Possible(Step(y, steps[0]), steps[1..]))
  }

  function Finally(y: Sys, steps: seq<SysStep>): Sys
    requires Possible(y, steps)
    decreases |steps|
  {
    if steps == [] then y else Finally(Step(y, steps[0]), steps[1..])
  }

  /** No resume command will be taken: there is none, or the thread ends before. */
  predicate Harmless(queue: seq<Cmd>) {
    queue == [] || queue[0] == DestroyCmd || (queue[0] != ResumeCmd && Harmless(queue[1..]))
  }

  lemma {:induction false} HarmlessMore(queue: seq<Cmd>, cmd: Cmd)
    requires Harmless(queue)
    ensures Harmless(queue + [cmd]) <==> cmd != ResumeCmd || DestroyCmd in queue
  {
    if queue == [] {
      assert ([cmd])[1..] == [];
    } else {
      assert (queue + [cmd])[1..] == queue[1..] + [cmd];
      if queue[0] != DestroyCmd {
        HarmlessMore(queue[1..], cmd);
      }
    }
  }

  lemma {:induction false} HarmlessIff(queue: seq<Cmd>)
    ensures ResumeCmd !in queue ==> Harmless(queue)
    ensures Harmless(queue) && ResumeCmd in queue ==> DestroyCmd in queue
  {
    if queue != [] {
      assert queue == [queue[0]] + queue[1..];
      HarmlessIff(queue[1..]);
    }
  }

  predicate Fit(m: Machine) {
    Always(m) && Coincide(m) && (m.pc == Dead || Harmless(m.queue))
  }

  /** Not running and closed. */
  predicate Rested(m: Machine) {
    !m.body.core.running && !m.body.core.open
  }

  predicate ElementWaited(y: Sys, i: nat)
    requires i < |y.els| == |y.linked|
  {
    y.linked[i] ==> Fit(y.els[i]) && (i < y.pos && y.ok ==> Rested(y.els[i]))
  }

  predicate Waited(y: Sys) {
    && |y.linked| == |y.els| && y.pos <= |y.els|
    && (y.returned ==> y.pos == |y.els| && y.state == Init)
    && forall i {:trigger ElementWaited(y, i)} :: 0 <= i < |y.els| ==> ElementWaited(y, i)
  }

  lemma HarmlessAfter(m: Machine, s: Step)
    requires Fit(m) && Enabled(m, s) && Undisturbing(m, s)
    ensures Next(m, s).pc == Dead || Harmless(Next(m, s).queue)
  {
    if m.pc != Dead {
      HarmlessMore(m.queue, StopCmd);
      HarmlessMore(m.queue, PauseCmd);
      HarmlessMore(m.queue, DestroyCmd);
      if s.SendStep? {
        HarmlessMore(m.queue, s.cmd);
      }
    }
  }

  lemma StepKeepsFit(m: Machine, s: Step)
    requires Fit(m) && Enabled(m, s) && Undisturbing(m, s)
    ensures Fit(Next(m, s)) && (Rested(m) ==> Rested(Next(m, s)) && Next(m, s).body.log == m.body.log)
  {
    StepKeepsAlways(m, s);
    TameStepCoincides(m, s);
    HarmlessAfter(m, s);
    if Rested(m) {
      RestingStaysQuiet(m, s);
    }
  }

  /** The caller resets an element only when it is closed, whatever is pending. */
  lemma WaiterIsTame(m: Machine)
    requires Always(m) && WaitReturns(m)
    ensures Tame(m, ResetStep) && Always(ResetState(m)) && Coincide(ResetState(m)) && Rested(ResetState(m))
  {
    StepKeepsAlways(m, ResetStep);
  }

  /** A wait that returns in time puts the element it waited for into INIT, and changes nothing else; one that times
      out, and one for an element that is not linked, change no element. */
  lemma WaitPutsIntoInit(y: Sys, timeout: bool)
    requires Can(y, WaitStep(timeout))
    ensures var z := Step(y, WaitStep(timeout));
            && |z.els| == |y.els| && z.pos == y.pos + 1 && z.state == y.state
            && (z.ok <==> y.ok && !(timeout && y.linked[y.pos]))
            && forall i :: 0 <= i < |y.els| ==>
                 && z.els[i] == y.els[i].(body := z.els[i].body)
                 && z.els[i].body == y.els[i].body.(core := y.els[i].body.core.(state := z.els[i].body.core.state))
                 && z.els[i].body.core.state ==
                      if i == y.pos && y.linked[i] && !timeout then Init else y.els[i].body.core.state
  {
  }

  lemma StepKeepsWaited(y: Sys, s: SysStep)
    requires Waited(y) && Can(y, s)
    ensures Waited(Step(y, s))
  {
    var z := Step(y, s);
    forall i | 0 <= i < |z.els|
      ensures ElementWaited(z, i)
    {
      assert ElementWaited(y, i);
      if s.ElementStep? && s.i == i && y.linked[i] {
        StepKeepsFit(y.els[i], s.step);
      }
      if s.WaitStep? && y.pos == i && y.linked[i] && !s.timeout {
        WaiterIsTame(y.els[i]);
      }
    }
  }

  lemma {:induction false} RunKeepsWaited(y: Sys, steps: seq<SysStep>)
    requires Waited(y) && Possible(y, steps)
    ensures Waited(Finally(y, steps))
    decreases |steps|
  {
    if steps != [] {
      StepKeepsWaited(y, steps[0]);
      RunKeepsWaited(Step(y, steps[0]), steps[1..]);
    }
  }

  /** A caller begins to wait while no resume command is going to be taken; stop, pause, finish, destroy and other
      commands may be pending. */
  predicate Begun(y: Sys) {
    && |y.linked| == |y.els| && y.pos == 0 && y.ok && !y.returned
    && forall i :: 0 <= i < |y.els| && y.linked[i] ==> Fit(y.els[i])
  }

  /** Whatever the elements and other callers do meanwhile and afterwards: when wait-for-stop has returned, the pipeline
      is in INIT; and if it returned `ESP_OK`, every linked element is not running and closed. */
  lemma WaitForStopIsSound(y: Sys, steps: seq<SysStep>)
    requires Begun(y) && Possible(y, steps) && Finally(y, steps).returned
    ensures var z := Finally(y, steps);
            && z.state == Init && |z.els| == |z.linked|
            && (z.ok ==> forall i :: 0 <= i < |z.els| && z.linked[i] ==> Fit(z.els[i]) && Rested(z.els[i]))
  {
    forall i | 0 <= i < |y.els|
      ensures ElementWaited(y, i)
    {
    }
    RunKeepsWaited(y, steps);
    var z := Finally(y, steps);
    forall i | 0 <= i < |z.els| && z.linked[i] && z.ok
      ensures Fit(z.els[i]) && Rested(z.els[i])
    {
      assert ElementWaited(z, i);
    }
  }

  // ---- runs of an element left to itself ----

  predicate IsTask(s: Step) {
    s.LookStep? || (s.ProcessStep? && !s.reset)
  }

  predicate TaskRun(steps: seq<Step>) {
    forall k :: 0 <= k < |steps| ==> IsTask(steps[k])
  }

  /** A run of the element's own thread. */
  predicate OwnRun(m: Machine, steps: seq<Step>) {
    Runs(m, steps) && TaskRun(steps)
  }

  /** An element at rest that will take no resume command stays at rest and calls nothing. */
  lemma {:induction false} RestLasts(m: Machine, steps: seq<Step>)
    requires Fit(m) && Rested(m) && Runs(m, steps) && TaskRun(steps)
    ensures var n := After(m, steps); Fit(n) && Rested(n) && n.body.log == m.body.log
    decreases |steps|
  {
    if steps != [] {
      StepKeepsFit(m, steps[0]);
      RestLasts(Next(m, steps[0]), steps[1..]);
    }
  }

  lemma RunsOn(m: Machine, s: Step, steps: seq<Step>)
    requires Enabled(m, s) && Runs(Next(m, s), steps)
    ensures Runs(m, [s] + steps) && After(m, [s] + steps) == After(Next(m, s), steps)
    ensures Taken(m, [s] + steps) == (if s.LookStep? && m.queue != [] then 1 else 0) + Taken(Next(m, s), steps)
    ensures IsTask(s) && TaskRun(steps) ==> TaskRun([s] + steps)
  {
    assert ([s] + steps)[1..] == steps;
  }

  /** An element at rest can take as many commands as come before a resume or a destroy command. */
  lemma {:induction false} CanTake(m: Machine, k: nat) returns (steps: seq<Step>)
    requires Always(m) && Rested(m) && m.pc != Dead && k <= |m.queue|
    requires forall j :: 0 <= j < k ==> m.queue[j] != ResumeCmd && m.queue[j] != DestroyCmd
    ensures Runs(m, steps) && TaskRun(steps) && Taken(m, steps) == k
    ensures var n := After(m, steps); Always(n) && Rested(n) && n.pc == AtWait && n.queue == m.queue[k..]
    decreases k, if m.pc == AtProcess then 1 else 0
  {
    if m.pc == AtProcess {
      var s := ProcessStep(Went, false, OpenOk);
      StepKeepsAlways(m, s);
      RestingStaysQuiet(m, s);
      var rest := CanTake(Next(m, s), k);
      RunsOn(m, s, rest);
      steps := [s] + rest;
    } else if k == 0 {
      steps := [];
    } else {
      var s := LookStep(OpenOk);
      StepKeepsAlways(m, s);
      RestingStaysQuiet(m, s);
      var rest := CanTake(Next(m, s), k - 1);
      RunsOn(m, s, rest);
      steps := [s] + rest;
    }
  }

  lemma {:induction false} FirstResume(queue: seq<Cmd>) returns (k: nat)
    requires !Harmless(queue)
    ensures k < |queue| && queue[k] == ResumeCmd
    ensures forall j :: 0 <= j < k ==> queue[j] != ResumeCmd && queue[j] != DestroyCmd
  {
    if queue[0] == ResumeCmd {
      k := 0;
    } else {
      k := FirstResume(queue[1..]);
      k := k + 1;
    }
  }

  lemma PendingResumeOpens(m: Machine) returns (steps: seq<Step>)
    requires Always(m) && Coincide(m) && Rested(m) && m.pc != Dead && !Harmless(m.queue)
    ensures Runs(m, steps) && TaskRun(steps) && After(m, steps).body.core.open
  {
    var k := FirstResume(m.queue);
    var before := CanTake(m, k);
    var n := After(m, before);
    RestStays(m, before);
    var s := LookStep(OpenOk);
    assert n.queue[0] == ResumeCmd;
    ResumeIsAchieved(n.body, OpenOk);
    steps := before + [s];
    RunsThen(m, before, s);
  }

  lemma {:induction false} RestStays(m: Machine, steps: seq<Step>)
    requires Always(m) && Coincide(m) && Runs(m, steps) && TaskRun(steps)
    ensures Always(After(m, steps)) && Coincide(After(m, steps))
    decreases |steps|
  {
    if steps != [] {
      StepKeepsAlways(m, steps[0]);
      TameStepCoincides(m, steps[0]);
      RestStays(Next(m, steps[0]), steps[1..]);
    }
  }

  lemma {:induction false} RunsThen(m: Machine, steps: seq<Step>, s: Step)
    requires Runs(m, steps) && Enabled(After(m, steps), s)
    ensures Runs(m, steps + [s]) && After(m, steps + [s]) == Next(After(m, steps), s)
    decreases |steps|
  {
    if steps == [] {
      assert [] + [s] == [s];
    } else {
      assert (steps + [s])[1..] == steps[1..] + [s];
      RunsThen(Next(m, steps[0]), steps[1..], s);
    }
  }

  /** The condition of the wait is exact: an element at rest stays so, whatever its thread does, exactly if no resume
      command comes before a destroy command. A resume that timed out leaves one there. */
  lemma RestLastsIff(m: Machine)
    requires Always(m) && Coincide(m) && Rested(m) && m.pc != Dead
    ensures Harmless(m.queue) <==>
              forall steps :: OwnRun(m, steps) ==> Rested(After(m, steps))
  {
    if Harmless(m.queue) {
      forall steps | OwnRun(m, steps)
        ensures Rested(After(m, steps))
      {
        RestLasts(m, steps);
      }
    } else {
      var steps := PendingResumeOpens(m);
      assert OwnRun(m, steps) && !Rested(After(m, steps));
    }
  }

  // ---- INIT cannot be promised ----

  /** After the wait an element is in INIT until its thread takes a command, and from then on exactly if that is a
      destroy command, or one it does not know. */
  lemma InitIffNothingPending(m: Machine, r: OpenResult)
    requires Always(m) && WaitReturns(m) && m.pc == AtWait && CanLook(m)
    ensures var n := Look(ResetState(m), r);
            n.body.core.state == Init <==> m.queue == [] || m.queue[0] == DestroyCmd || m.queue[0] == OtherCmd
  {
    WaiterIsTame(m);
  }

  /** What taking commands makes of the state of an element at rest. */
  function StateAfter(s: State, cmds: seq<Cmd>): State {
    if cmds == [] then s
    else
      var t := StateAfter(s, cmds[..|cmds| - 1]);
      match cmds[|cmds| - 1]
      case StopCmd => Stopped
      case PauseCmd => Paused
      case FinishCmd => if t == Error || t == Stopped then t else Finished
      case _ => t
  }

  lemma {:induction false} StateAfterFirst(s: State, cmds: seq<Cmd>)
    requires cmds != []
    ensures StateAfter(s, cmds) == StateAfter(StateAfter(s, [cmds[0]]), cmds[1..])
  {
    var n := |cmds| - 1;
    if n == 0 {
      assert cmds == [cmds[0]];
    } else {
      StateAfterFirst(s, cmds[..n]);
      assert cmds[1..][..n - 1] == cmds[..n][1..];
    }
  }

  /** What has become, after any time left to itself, of an element at rest: `k` commands have been taken in order, the
      state is what these make of it, and the thread is gone exactly if destroy was the last of them. */
  predicate Processed(m: Machine, n: Machine, k: nat) {
    && k <= |m.queue| && n.queue == m.queue[k..]
    && n.body.core.state == StateAfter(m.body.core.state, m.queue[..k])
    && (n.pc == Dead <==> m.pc == Dead || (k > 0 && m.queue[k - 1] == DestroyCmd))
    && (forall j :: 0 <= j < k - 1 ==> m.queue[j] != DestroyCmd)
  }

  lemma RestingProcess(m: Machine, s: Step)
    requires Fit(m) && Rested(m) && IsTask(s) && Enabled(m, s)
    ensures var n := Next(m, s);
            if s.LookStep? && m.queue != [] then
              && n.queue == m.queue[1..] && n.body.core.state == StateAfter(m.body.core.state, [m.queue[0]])
              && (n.pc == Dead <==> m.queue[0] == DestroyCmd)
            else n.queue == m.queue && n.body.core.state == m.body.core.state && n.pc != Dead
  {
    if m.queue != [] {
      assert [m.queue[0]][..0] == [];
    }
  }

  lemma {:induction false} PendingIsProcessed(m: Machine, steps: seq<Step>)
    requires Fit(m) && Rested(m) && Runs(m, steps) && TaskRun(steps)
    ensures Processed(m, After(m, steps), Taken(m, steps))
    decreases |steps|
  {
    if steps == [] {
      assert m.queue[0..] == m.queue;
    } else {
      var s, n := steps[0], Next(m, steps[0]);
      StepKeepsFit(m, s);
      RestingProcess(m, s);
      PendingIsProcessed(n, steps[1..]);
      if s.LookStep? && m.queue != [] {
        ProcessedOne(m, n, After(m, steps), Taken(n, steps[1..]));
      }
    }
  }

  lemma ProcessedOne(m: Machine, n: Machine, e: Machine, k: nat)
    requires m.pc != Dead && m.queue != [] && n.queue == m.queue[1..] && Processed(n, e, k)
    requires n.body.core.state == StateAfter(m.body.core.state, [m.queue[0]])
    requires n.pc == Dead <==> m.queue[0] == DestroyCmd
    requires n.pc == Dead ==> k == 0
    ensures Processed(m, e, k + 1)
  {
    var cmds := m.queue[..k + 1];
    assert cmds[1..] == n.queue[..k] && cmds[0] == m.queue[0];
    StateAfterFirst(m.body.core.state, cmds);
    assert m.queue[1..][k..] == m.queue[k + 1..];
    forall j | 0 <= j < k
      ensures m.queue[j] != DestroyCmd
    {
      if j > 0 {
        assert n.queue[j - 1] == m.queue[j];
      }
    }
  }

  /** The usual stop of a running element: its process call is aborted and stops it, so that the wait returns while the
      request is still in the queue. */
  lemma AbortLeavesStopPending(m: Machine, r: OpenResult)
    requires Always(m) && Coincide(m) && m.pc == AtProcess && m.body.core.running && m.queue == []
    ensures var n := Process(Stop(m).0, IoAbort, false, r);
            Stop(m).1 == Ok && Fit(n) && WaitReturns(n) && n.queue == [StopCmd] && n.pc == AtWait
  {
    StepKeepsAlways(m, StopStep);
    TameStepCoincides(m, StopStep);
    var n := Stop(m).0;
    StepKeepsAlways(n, ProcessStep(IoAbort, false, r));
    TameStepCoincides(n, ProcessStep(IoAbort, false, r));
    HarmlessIff([StopCmd]);
  }

  // ---- the next run ----

  /** The first loop of `audio_pipeline_run`, for one linked element: its thread is created, if it can be, unless it is
      at work. */
  function StartIfIdle(m: Machine, created: bool): Machine {
    var s := m.body.core.state;
    if s == Init || s == Stopped || s == Finished || s == Error then ElementSpec.Start(m, created).0 else m
  }

  /** What `audio_pipeline_run` does to one linked element: start it if it is idle, then resume it. */
  function RunOne(m: Machine, created: bool, late: bool): (Machine, Err) {
    Resume(StartIfIdle(m, created), 0.0, late)
  }

  lemma HandleGrows(b: Body, cmd: Cmd, r: OpenResult)
    ensures b.log <= Handle(b, cmd, r).0.log
  {
  }

  lemma ProcessGrows(b: Body, p: ProcessResult, r: OpenResult)
    ensures b.log <= ProcessBody(b, p, false, r).log
  {
  }

  lemma TaskLogGrows(m: Machine, s: Step)
    requires IsTask(s) && Enabled(m, s)
    ensures m.body.log <= Next(m, s).body.log
  {
    if s.ProcessStep? {
      ProcessGrows(m.body, s.result, s.reopened);
    } else if m.queue != [] {
      HandleGrows(m.body, m.queue[0], s.outcome);
    }
  }

  lemma {:induction false} LogGrows(m: Machine, steps: seq<Step>)
    requires Runs(m, steps) && TaskRun(steps)
    ensures m.body.log <= After(m, steps).body.log
    decreases |steps|
  {
    if steps != [] {
      TaskLogGrows(m, steps[0]);
      LogGrows(Next(m, steps[0]), steps[1..]);
    }
  }

  /** At rest, with some other commands before the resume command of the new run. */
  predicate Restarting(m: Machine) {
    && Always(m) && Coincide(m) && Rested(m) && m.pc != Dead
    && m.queue != [] && m.queue[|m.queue| - 1] == ResumeCmd
    && forall k :: 0 <= k < |m.queue| - 1 ==> m.queue[k] != ResumeCmd && m.queue[k] != DestroyCmd
  }

  lemma RestartMovesUp(m: Machine, s: Step)
    requires Restarting(m) && IsTask(s) && Enabled(m, s) && (s.LookStep? ==> |m.queue| > 1)
    ensures var n := Next(m, s);
            Restarting(n) && n.body.log == m.body.log && |n.queue| == |m.queue| - (if s.LookStep? then 1 else 0)
  {
    StepKeepsAlways(m, s);
    TameStepCoincides(m, s);
    RestingStaysQuiet(m, s);
  }

  lemma ResumeOpens(m: Machine, s: Step)
    requires Restarting(m) && s.LookStep? && Enabled(m, s) && |m.queue| == 1
    ensures m.body.log + [OpenCall] <= Next(m, s).body.log
  {
  }

  /** When its thread has taken the commands pending before and the resume command, the next thing it has done is to
      open. */
  lemma {:induction false} RestartOpens(m: Machine, steps: seq<Step>)
    requires Restarting(m) && Runs(m, steps) && TaskRun(steps) && |m.queue| <= Taken(m, steps)
    ensures m.body.log + [OpenCall] <= After(m, steps).body.log
    decreases |steps|
  {
    var s, n := steps[0], Next(m, steps[0]);
    if s.LookStep? && |m.queue| == 1 {
      ResumeOpens(m, s);
      LogGrows(n, steps[1..]);
    } else {
      RestartMovesUp(m, s);
      RestartOpens(n, steps[1..]);
    }
  }

  /** Whether a run starts an element at rest, by its state and what is pending. Without a thread, it gets one unless it
      was paused when that ended. With one, there has to be room for a command and no destroy command ahead of it, and
      the state must not be FINISHED or ERROR. */
  predicate WillStart(m: Machine) {
    var s := m.body.core.state;
    if m.pc == Dead then s != Paused && s != NoState && s != Initializing
    else |m.queue| < COMMAND_QUEUE_SIZE && s != Finished && s != Error && DestroyCmd !in m.queue
  }

  /** What a run has done to an element: it opens when its thread has come to the resume command. */
  ghost predicate Starts(n: Machine) {
    Restarting(n) && forall steps ::
      OwnRun(n, steps) && |n.queue| <= Taken(n, steps) ==>
        n.body.log + [OpenCall] <= After(n, steps).body.log
  }

  /** It never calls anything, however long its thread goes on. */
  ghost predicate StaysShut(n: Machine) {
    forall steps :: OwnRun(n, steps) ==> After(n, steps).body.log == n.body.log
  }

  lemma RunGives(m: Machine, late: bool)
    requires Fit(m) && Rested(m)
    ensures var n := RunOne(m, true, late).0;
            && Always(n) && Coincide(n) && Rested(n)
            && n.body.log == m.body.log
  {
    StepKeepsAlways(m, StartStep(true));
    TameStepCoincides(m, StartStep(true));
    var d := ElementSpec.Start(m, true).0;
    StepKeepsAlways(d, ResumeStep(0.0));
    TameStepCoincides(d, ResumeStep(0.0));
    StepKeepsAlways(m, ResumeStep(0.0));
    TameStepCoincides(m, ResumeStep(0.0));
  }

  /** A run, with every thread it needs created, starts an element at rest exactly if `WillStart`. It answers `ESP_OK`
      for it if the resume is not too late; but also for one in FINISHED that it does not start. */
  lemma RunStartsIff(m: Machine, late: bool)
    requires Fit(m) && Rested(m)
    ensures var (n, err) := RunOne(m, true, late);
            if WillStart(m) then Starts(n) && (err == Ok <==> !late)
            else StaysShut(n) && (err == Ok ==> !late || m.body.core.state == Finished)
    ensures m.pc != Dead && m.body.core.state == Finished ==> RunOne(m, true, late) == (m, Ok) && !WillStart(m)
  {
    var (n, err) := RunOne(m, true, late);
    RunGives(m, late);
    if WillStart(m) {
      HarmlessIff(m.queue);
      assert n.queue == (if m.pc == Dead then [] else m.queue) + [ResumeCmd];
      forall steps | OwnRun(n, steps) && |n.queue| <= Taken(n, steps)
        ensures n.body.log + [OpenCall] <= After(n, steps).body.log
      {
        RestartOpens(n, steps);
      }
    } else {
      if m.pc != Dead {
        HarmlessMore(m.queue, ResumeCmd);
      }
      forall steps | OwnRun(n, steps)
        ensures After(n, steps).body.log == n.body.log
      {
        RestLasts(n, steps);
      }
    }
  }

  /** In terms of what is pending when the wait has put an element with a thread into INIT: a run starts it, whenever it
      comes, exactly if there is room, no destroy command is pending, and no first few of the pending commands lead to
      FINISHED. */
  lemma StartsWheneverRunIff(m: Machine)
    requires Fit(m) && Rested(m) && m.pc != Dead && m.body.core.state == Init
    ensures (forall steps :: OwnRun(m, steps) ==> WillStart(After(m, steps)))
       <==> && |m.queue| < COMMAND_QUEUE_SIZE && DestroyCmd !in m.queue
            && forall k :: 0 <= k <= |m.queue| ==> StateAfter(Init, m.queue[..k]) != Finished
  {
    if |m.queue| < COMMAND_QUEUE_SIZE && DestroyCmd !in m.queue
       && forall k :: 0 <= k <= |m.queue| ==> StateAfter(Init, m.queue[..k]) != Finished
    {
      forall steps | OwnRun(m, steps)
        ensures WillStart(After(m, steps))
      {
        PendingIsProcessed(m, steps);
        var k := Taken(m, steps);
        NeverError(m.queue[..k]);
      }
    } else if |m.queue| < COMMAND_QUEUE_SIZE && DestroyCmd !in m.queue {
      var k :| 0 <= k <= |m.queue| && StateAfter(Init, m.queue[..k]) == Finished;
      HarmlessIff(m.queue);
      var steps := CanTake(m, k);
      PendingIsProcessed(m, steps);
      assert OwnRun(m, steps) && !WillStart(After(m, steps));
    } else {
      assert OwnRun(m, []) && !WillStart(After(m, []));
    }
  }

  lemma {:induction false} NeverError(cmds: seq<Cmd>)
    ensures StateAfter(Init, cmds) != Error
  {
    if cmds != [] {
      NeverError(cmds[..|cmds| - 1]);
    }
  }

  /** The whole way round: after a wait for stop that returned `ESP_OK`, a run starts every linked element exactly if
      its state and what is pending then let it. */
  lemma RunAfterWait(y: Sys, steps: seq<SysStep>, i: nat, late: bool)
    requires Begun(y) && Possible(y, steps) && Finally(y, steps).returned && Finally(y, steps).ok
    requires i < |Finally(y, steps).els| == |Finally(y, steps).linked| && Finally(y, steps).linked[i]
    ensures var m := Finally(y, steps).els[i];
            var n := RunOne(m, true, late).0;
            if WillStart(m) then Starts(n) else StaysShut(n)
  {
    WaitForStopIsSound(y, steps);
    RunStartsIff(Finally(y, steps).els[i], late);
  }
}
