/** What holds of an element over every run of its task and of the calls made on it. */
module ElementRuns {
  import opened AudioTypes
  import opened ElementSpec

  datatype Step =
    | LookStep(outcome: OpenResult)
    | ProcessStep(result: ProcessResult, reset: bool, reopened: OpenResult)
    | StartStep(created: bool)
    | TerminateStep
    | PauseStep
    | ResumeStep(threshold: real)
    | StopStep
    | SendStep(cmd: Cmd)
    | ResetStep

  /** Whether a call that waits does so too long makes no difference to the element. */
  predicate Enabled(m: Machine, s: Step) {
    match s
    case LookStep(_) => CanLook(m)
    case ProcessStep(_, _, _) => m.pc == AtProcess
    case _ => true
  }

  function Next(m: Machine, s: Step): Machine
    requires Enabled(m, s)
  {
    match s
    case LookStep(r) => Look(m, r)
    case ProcessStep(p, reset, r) => Process(m, p, reset, r)
    case StartStep(created) => Start(m, created).0
    case TerminateStep => Terminate(m, false).0
    case PauseStep => Pause(m, false).0
    case ResumeStep(threshold) => Resume(m, threshold, false).0
    case StopStep => Stop(m).0
    case SendStep(cmd) => Send(m, cmd).0
    case ResetStep => ResetState(m)
  }

  // ---- what the user's functions see ----

  /** Where a history of calls has got to; `Broken` if it was not open, any number of process, close, and so on. */
  datatype Phase = Shut | Opened | Broken

  function PhaseAfter(p: Phase, c: Call): Phase {
    match (p, c)
    case (Shut, OpenCall) => Opened
    case (Opened, ProcessCall) => Opened
    case (Opened, CloseCall) => Shut
    case _ => Broken
  }

  function PhaseOf(log: seq<Call>): Phase {
    if log == [] then Shut else PhaseAfter(PhaseOf(log[..|log| - 1]), log[|log| - 1])
  }

  lemma PhaseOfMore(log: seq<Call>, c: Call)
    ensures PhaseOf(log + [c]) == PhaseAfter(PhaseOf(log), c)
  {
    assert (log + [c])[..|log|] == log;
  }

  // ---- what always holds, however the state is reset ----

  predicate PhaseFits(b: Body) {
    PhaseOf(b.log) != Broken ==> (PhaseOf(b.log) == Opened <==> b.core.open)
  }

  /** An element runs exactly while it is open; it is then in RUNNING, or in INIT after a reset; it polls; and the
      stopped bit is down. */
  predicate BodyOk(b: Body) {
    && b.core.running == b.core.open
    && (b.core.state == Running ==> b.core.open)
    && (b.core.open ==> (b.core.state == Running || b.core.state == Init) && b.core.poll && !b.bits.stopped)
    && PhaseFits(b)
  }

  predicate Always(m: Machine) {
    && BodyOk(m.body)
    && |m.queue| <= COMMAND_QUEUE_SIZE
    && (m.body.core.stopping ==> StopCmd in m.queue)
    && (m.pc == Dead ==> !m.body.core.open && !m.body.core.stopping)
  }

  /** A step that opens an element which is open: a resume command or the end of the input, after a reset. */
  predicate Reopens(m: Machine, s: Step) {
    match s
    case LookStep(_) =>
      && CanLook(m) && m.queue != [] && m.queue[0] == ResumeCmd
      && m.body.core.open && m.body.core.state == Init
    case ProcessStep(p, reset, _) => Processes(m.body) && reset && (p == IoDone || p == IoOk)
    case _ => false
  }

  /** Whether the history of `c` is that of `b` with nothing wrong added, or one thing wrong if `again`. */
  predicate Breaks(b: Body, c: Body, again: bool) {
    PhaseOf(c.log) == Broken <==> PhaseOf(b.log) == Broken || again
  }

  lemma DeinitFits(b: Body)
    requires PhaseFits(b)
    ensures PhaseFits(Deinit(b)) && Breaks(b, Deinit(b), false)
  {
    PhaseOfMore(b.log, CloseCall);
  }

  lemma OpenFits(b: Body, o: Body)
    requires PhaseFits(b) && o.core.open && o.log == b.log + [OpenCall]
    ensures PhaseFits(o) && Breaks(b, o, b.core.open)
  {
    PhaseOfMore(b.log, OpenCall);
  }

  lemma ProcessFits(b: Body, o: Body)
    requires PhaseFits(b) && b.core.open && o.core.open && o.log == b.log + [ProcessCall]
    ensures PhaseFits(o) && Breaks(b, o, false)
  {
    PhaseOfMore(b.log, ProcessCall);
  }

  /** Every halting handler closes what is open, from any state in which open and running agree. */
  lemma HaltIsOk(b: Body, s: State)
    requires PhaseFits(b) && s != Running
    ensures BodyOk(Halted(b, s)) && Breaks(b, Halted(b, s), false) && !Halted(b, s).core.open
  {
    DeinitFits(b);
  }

  /** Opening: open and running if it succeeds, closed and halted if not. */
  lemma InitIsOk(w: Body, r: OpenResult)
    requires PhaseFits(w) && w.core.running
    ensures var (c, ok) := ProcessInit(w, r);
            && PhaseFits(c) && Breaks(w, c, w.core.open)
            && (if ok then c.core.open && c.core.running && c.core.state == Running
                else BodyOk(c) && !c.core.open)
  {
    var o := w.(core := w.core.(open := true, state := Initializing), log := w.log + [OpenCall]);
    OpenFits(w, o);
    if r == OpenAbort {
      HaltIsOk(o, Stopped);
    } else if r == OpenFailed {
      HaltIsOk(o.(core := o.core.(state := Error)), Error);
    }
  }

  lemma ResumeIsOk(b: Body, r: OpenResult)
    requires BodyOk(b)
    ensures var (c, ok) := OnResume(b, r);
            BodyOk(c) && Breaks(b, c, b.core.open && b.core.state == Init) && (!ok ==> !c.core.open)
  {
    if b.core.state != Running {
      var w := b.(core := b.core.(running := true), bits := b.bits.(resumed := true));
      InitIsOk(if b.core.state == Init || b.core.state == Paused then w else w.(io := w.io + [ResetOutput]), r);
    }
  }

  lemma HandleIsOk(b: Body, cmd: Cmd, r: OpenResult)
    requires BodyOk(b) && cmd != DestroyCmd
    ensures var (c, h) := Handle(b, cmd, r);
            && BodyOk(c) && Breaks(b, c, cmd == ResumeCmd && b.core.open && b.core.state == Init)
            && (h == HandledFail ==> !c.core.open) && h != HandledAbort
  {
    match cmd
    case ResumeCmd => ResumeIsOk(b, r);
    case StopCmd => HaltIsOk(b, Stopped);
    case FinishCmd => HaltIsOk(b, Finished);
    case PauseCmd => DeinitFits(b);
    case OtherCmd =>
  }

  lemma EndOfInputIsOk(c: Body, r: OpenResult)
    requires BodyOk(c) && c.core.open
    ensures var d := OnEndOfInput(c, r);
            BodyOk(d) && Breaks(c, d, c.core.state == Init)
  {
    ResumeIsOk(c, r);
    HaltIsOk(c.(io := c.io + [DoneOutput]), Finished);
  }

  lemma OnResultIsOk(c: Body, p: ProcessResult, r: OpenResult)
    requires BodyOk(c) && c.core.open
    ensures var d := OnResult(c, p, r);
            BodyOk(d) && Breaks(c, d, (p == IoDone || p == IoOk) && c.core.state == Init)
  {
    if p == IoDone || p == IoOk {
      EndOfInputIsOk(c, r);
    } else if p == IoAbort {
      HaltIsOk(c, Stopped);
    } else {
      HaltIsOk(c, Error);
    }
  }

  lemma ProcessBodyIsOk(b: Body, p: ProcessResult, reset: bool, r: OpenResult)
    requires BodyOk(b)
    ensures var c := ProcessBody(b, p, reset, r);
            BodyOk(c) && Breaks(b, c, Processes(b) && reset && (p == IoDone || p == IoOk))
  {
    if Processes(b) {
      var c := Called(b, reset);
      ProcessFits(b, c);
      OnResultIsOk(c, p, r);
    }
  }

  predicate StepOk(m: Machine, s: Step, n: Machine) {
    Always(n) && Breaks(m.body, n.body, Reopens(m, s))
  }

  lemma ExitIsOk(b: Body)
    requires BodyOk(b)
    ensures var c := Exited(b.(core := b.core.(running := false), bits := b.bits.(stopped := true)));
            BodyOk(c) && !c.core.open && Breaks(b, c, false) && !c.core.stopping
  {
    DeinitFits(b);
  }

  /** A command other than stop leaves a pending stop pending; a stop command settles the request. */
  lemma StoppingAfter(b: Body, cmd: Cmd, r: OpenResult)
    requires cmd != DestroyCmd
    ensures Handle(b, cmd, r).0.core.stopping ==> b.core.stopping && cmd != StopCmd
  {
  }

  lemma LookIsOk(m: Machine, s: Step)
    requires Always(m) && s.LookStep? && Enabled(m, s)
    ensures StepOk(m, s, Next(m, s))
  {
    if m.queue != [] {
      var cmd := m.queue[0];
      if cmd == DestroyCmd {
        ExitIsOk(m.body);
      } else {
        HandleIsOk(m.body, cmd, s.outcome);
        StoppingAfter(m.body, cmd, s.outcome);
        assert m.queue == [cmd] + m.queue[1..];
      }
    }
  }

  lemma ProcessIsOk(m: Machine, s: Step)
    requires Always(m) && s.ProcessStep? && Enabled(m, s)
    ensures StepOk(m, s, Next(m, s))
  {
    ProcessBodyIsOk(m.body, s.result, s.reset, s.reopened);
    ProcessKeepsStopping(m.body, s.result, s.reset, s.reopened);
  }

  lemma ProcessKeepsStopping(b: Body, p: ProcessResult, reset: bool, r: OpenResult)
    ensures ProcessBody(b, p, reset, r).core.stopping ==> b.core.stopping
  {
  }

  lemma CallIsOk(m: Machine, s: Step)
    requires Always(m) && !s.LookStep? && !s.ProcessStep?
    ensures StepOk(m, s, Next(m, s))
  {
    SendKeeps(m.queue, StopCmd);
    if s.SendStep? {
      SendKeeps(m.queue, s.cmd);
    }
  }

  lemma SendKeeps(queue: seq<Cmd>, cmd: Cmd)
    ensures cmd in queue + [cmd]
    ensures StopCmd in queue ==> StopCmd in queue + [cmd]
  {
    assert (queue + [cmd])[|queue|] == cmd;
  }

  /** Every step, with any results and any resets, keeps the invariant; and the one thing that breaks the history of
      open, process and close calls is opening an element that is open. */
  lemma StepKeepsAlways(m: Machine, s: Step)
    requires Always(m) && Enabled(m, s)
    ensures StepOk(m, s, Next(m, s))
  {
    match s
    case LookStep(_) => LookIsOk(m, s);
    case ProcessStep(_, _, _) => ProcessIsOk(m, s);
    case _ => CallIsOk(m, s);
  }

  // ---- over runs ----

  predicate Runs(m: Machine, steps: seq<Step>)
    decreases |steps|
  {
    steps == [] || (Enabled(m, steps[0]) && Runs(Next(m, steps[0]), steps[1..]))
  }

  function After(m: Machine, steps: seq<Step>): Machine
    requires Runs(m, steps)
    decreases |steps|
  {
    if steps == [] then m else After(Next(m, steps[0]), steps[1..])
  }

  predicate SometimeReopens(m: Machine, steps: seq<Step>)
    requires Runs(m, steps)
    decreases |steps|
  {
    steps != [] && (Reopens(m, steps[0]) || SometimeReopens(Next(m, steps[0]), steps[1..]))
  }

  /** The exact condition: over a run with any results and any resets, open and close strictly alternate with process
      only in between, unless and only unless some step opens an element that is open. */
  lemma {:induction false} HistoryIsSoundIff(m: Machine, steps: seq<Step>)
    requires Always(m) && Runs(m, steps)
    ensures Always(After(m, steps))
    ensures PhaseOf(After(m, steps).body.log) == Broken <==>
              PhaseOf(m.body.log) == Broken || SometimeReopens(m, steps)
    decreases |steps|
  {
    if steps != [] {
      StepKeepsAlways(m, steps[0]);
      HistoryIsSoundIff(Next(m, steps[0]), steps[1..]);
    }
  }

  /** A step at which nobody resets the state of an element that is open. */
  predicate Tame(m: Machine, s: Step) {
    match s
    case ResetStep => !m.body.core.open
    case ProcessStep(_, reset, _) => !reset
    case _ => true
  }

  predicate TameRun(m: Machine, steps: seq<Step>)
    requires Runs(m, steps)
    decreases |steps|
  {
    steps == [] || (Tame(m, steps[0]) && TameRun(Next(m, steps[0]), steps[1..]))
  }

  /** Open, running and being in RUNNING are the same. */
  predicate Coincide(m: Machine) {
    var c := m.body.core;
    c.open == c.running && (c.open <==> c.state == Running)
  }

  lemma HandleCoincides(b: Body, cmd: Cmd, r: OpenResult)
    requires BodyOk(b) && (b.core.open ==> b.core.state == Running) && cmd != DestroyCmd
    ensures var c := Handle(b, cmd, r).0; c.core.open ==> c.core.state == Running
  {
  }

  lemma TameLookCoincides(m: Machine, s: Step)
    requires Always(m) && Coincide(m) && Enabled(m, s) && s.LookStep?
    ensures Coincide(Next(m, s))
  {
    StepKeepsAlways(m, s);
    if m.queue != [] && m.queue[0] != DestroyCmd {
      HandleCoincides(m.body, m.queue[0], s.outcome);
    }
  }

  lemma TameStepCoincides(m: Machine, s: Step)
    requires Always(m) && Coincide(m) && Enabled(m, s) && Tame(m, s)
    ensures Coincide(Next(m, s)) && !Reopens(m, s)
  {
    if s.LookStep? {
      TameLookCoincides(m, s);
    }
  }

  lemma {:induction false} TameRunCoincides(m: Machine, steps: seq<Step>)
    requires Always(m) && Coincide(m) && Runs(m, steps) && TameRun(m, steps)
    ensures Coincide(After(m, steps)) && !SometimeReopens(m, steps)
    decreases |steps|
  {
    if steps != [] {
      StepKeepsAlways(m, steps[0]);
      TameStepCoincides(m, steps[0]);
      TameRunCoincides(Next(m, steps[0]), steps[1..]);
    }
  }

  /** Over every run of a new element in which nobody resets the state while it is open: open and close calls strictly
      alternate, process is called only in between, and at every step `is_open`, `is_running` and RUNNING coincide. */
  lemma LifeCycleIsSound(steps: seq<Step>)
    requires Runs(NewElement(), steps) && TameRun(NewElement(), steps)
    ensures var m := After(NewElement(), steps);
            Always(m) && Coincide(m) && PhaseOf(m.body.log) == if m.body.core.open then Opened else Shut
  {
    HistoryIsSoundIff(NewElement(), steps);
    TameRunCoincides(NewElement(), steps);
  }

  // ---- stopping ----

  predicate TakesResume(m: Machine, s: Step) {
    s.LookStep? && m.queue != [] && m.queue[0] == ResumeCmd
  }

  predicate NoResume(m: Machine, steps: seq<Step>)
    requires Runs(m, steps)
    decreases |steps|
  {
    steps == [] || (!TakesResume(m, steps[0]) && NoResume(Next(m, steps[0]), steps[1..]))
  }

  lemma RestingStaysQuiet(m: Machine, s: Step)
    requires Always(m) && !m.body.core.open && Enabled(m, s) && !TakesResume(m, s)
    ensures var n := Next(m, s); !n.body.core.open && n.body.log == m.body.log
  {
  }

  /** Once a wait for stop has returned, the element calls none of its functions, whatever is done to it, until its
      thread takes a resume command. */
  lemma {:induction false} QuietUntilResume(m: Machine, steps: seq<Step>)
    requires Always(m) && WaitReturns(m) && Runs(m, steps) && NoResume(m, steps)
    ensures After(m, steps).body.log == m.body.log && WaitReturns(After(m, steps))
    decreases |steps|
  {
    if steps != [] {
      RestingStaysQuiet(m, steps[0]);
      StepKeepsAlways(m, steps[0]);
      QuietUntilResume(Next(m, steps[0]), steps[1..]);
    }
  }

  /** How many commands the element takes during a run. */
  function Taken(m: Machine, steps: seq<Step>): nat
    requires Runs(m, steps)
    decreases |steps|
  {
    if steps == [] then 0
    else (if steps[0].LookStep? && m.queue != [] then 1 else 0) + Taken(Next(m, steps[0]), steps[1..])
  }

  /** At the start or after some step of the run a wait for stop returns. */
  predicate ComesToRest(m: Machine, steps: seq<Step>)
    requires Runs(m, steps)
    decreases |steps|
  {
    WaitReturns(m) || (steps != [] && ComesToRest(Next(m, steps[0]), steps[1..]))
  }

  lemma StopTakenOrNearer(m: Machine, s: Step, k: nat)
    requires Always(m) && Enabled(m, s) && s.LookStep? && k < |m.queue| && m.queue[k] == StopCmd
    ensures var n := Next(m, s);
            WaitReturns(n) || (k > 0 && n.queue == m.queue[1..])
  {
  }

  lemma StopStays(m: Machine, s: Step, k: nat)
    requires Always(m) && Enabled(m, s) && !s.LookStep? && k < |m.queue| && m.queue[k] == StopCmd && m.pc != Dead
    ensures var n := Next(m, s); k < |n.queue| && n.queue[k] == StopCmd
  {
  }

  lemma StopMovesUp(m: Machine, s: Step, k: nat)
    requires Always(m) && Enabled(m, s) && k < |m.queue| && m.queue[k] == StopCmd && !WaitReturns(m)
    ensures var n := Next(m, s);
            var j := if s.LookStep? then k - 1 else k;
            WaitReturns(n) || (0 <= j < |n.queue| && n.queue[j] == StopCmd)
  {
    if s.LookStep? {
      StopTakenOrNearer(m, s, k);
    } else {
      StopStays(m, s, k);
    }
  }

  /** A stop request is not lost and cannot be starved: the element never waits while it is pending, and it comes to
      rest at the latest when it has taken the commands up to and including the request, whatever else happens. */
  lemma {:induction false} StopIsObeyed(m: Machine, steps: seq<Step>, k: nat)
    requires Always(m) && Runs(m, steps)
    requires k < |m.queue| && m.queue[k] == StopCmd && k < Taken(m, steps)
    ensures ComesToRest(m, steps) && (m.pc == AtWait ==> CanLook(m))
    decreases |steps|
  {
    if !WaitReturns(m) {
      var s, n := steps[0], Next(m, steps[0]);
      StepKeepsAlways(m, s);
      StopMovesUp(m, s, k);
      if !WaitReturns(n) {
        StopIsObeyed(n, steps[1..], if s.LookStep? then k - 1 else k);
      }
    }
  }

  /** Asking a running element to stop puts the request where its thread will find it, unless the queue is full. */
  lemma StopIsQueued(m: Machine)
    requires Always(m) && m.pc != Dead && m.body.core.running
    ensures var (n, err) := Stop(m);
            && Always(n)
            && (err == Ok <==> n.body.core.stopping)
            && (err == Ok ==> exists k :: 0 <= k < |n.queue| && n.queue[k] == StopCmd)
            && (err != Ok <==> |m.queue| == COMMAND_QUEUE_SIZE && !m.body.core.stopping)
            && n.body.io == m.body.io + [AbortOutput, AbortInput]
  {
    CallIsOk(m, StopStep);
    SendKeeps(m.queue, StopCmd);
  }

  /** A stop of an element that is not running tells waiters so at once; a paused one is set polling. */
  lemma StopOfResting(m: Machine)
    requires Always(m) && m.pc != Dead && !m.body.core.running
    ensures var (n, err) := Stop(m);
            && err == Ok && Always(n) && n.queue == m.queue && n.body.log == m.body.log && n.body.io == m.body.io
            && WaitReturns(n) && n.body.bits == m.body.bits.(stopped := true)
            && (m.body.core.state == Paused ==> n.body.core.poll)
            && n.body.core.(poll := false) == m.body.core.(poll := false)
  {
    CallIsOk(m, StopStep);
  }

  // ---- the stopped bit ----

  /** An element in STOPPED or FINISHED has the stopped bit up. */
  predicate Told(m: Machine) {
    m.body.core.state == Stopped || m.body.core.state == Finished ==> m.body.bits.stopped
  }

  lemma HandleTells(b: Body, cmd: Cmd, r: OpenResult)
    ensures var c := Handle(b, cmd, r).0;
            && (b.core.running && !c.core.running && cmd != DestroyCmd ==> c.bits.stopped || c.core.state == Paused)
            && (b.bits.stopped ==> c.bits.stopped || c.core.state == Running)
            && (c.core.state == Stopped || c.core.state == Finished ==>
                  c.bits.stopped || (c.core.state == b.core.state && !b.bits.stopped))
  {
  }

  lemma ResultTells(b: Body, p: ProcessResult, reset: bool, r: OpenResult)
    ensures var c := ProcessBody(b, p, reset, r);
            && (b.core.running && !c.core.running ==> c.bits.stopped || c.core.state == Paused)
            && (c.core.state == Stopped || c.core.state == Finished ==>
                  c.bits.stopped || (c.core.state == b.core.state && !b.bits.stopped))
  {
  }

  lemma StepKeepsTold(m: Machine, s: Step)
    requires Always(m) && Told(m) && Enabled(m, s)
    ensures Told(Next(m, s))
  {
    if s.LookStep? && m.queue != [] {
      HandleTells(m.body, m.queue[0], s.outcome);
    } else if s.ProcessStep? {
      ResultTells(m.body, s.result, s.reset, s.reopened);
    }
  }

  /** Nobody who has seen an element running is left waiting: a step that ends the running raises the stopped bit,
      unless it pauses the element. */
  lemma RestIsTold(m: Machine, s: Step)
    requires Always(m) && Enabled(m, s) && m.body.core.running && !Next(m, s).body.core.running
    ensures Next(m, s).body.bits.stopped || Next(m, s).body.core.state == Paused
  {
    if s.LookStep? && m.queue != [] {
      HandleTells(m.body, m.queue[0], s.outcome);
    } else if s.ProcessStep? {
      ResultTells(m.body, s.result, s.reset, s.reopened);
    }
  }

  /** At the start or after some step of the run the stopped bit is up. */
  predicate ComesToBit(m: Machine, steps: seq<Step>)
    requires Runs(m, steps)
    decreases |steps|
  {
    m.body.bits.stopped || (steps != [] && ComesToBit(Next(m, steps[0]), steps[1..]))
  }

  lemma StopRaisesBit(m: Machine, s: Step, k: nat)
    requires Always(m) && Told(m) && Enabled(m, s) && k < |m.queue| && m.queue[k] == StopCmd && m.pc != Dead
    ensures var n := Next(m, s);
            var j := if s.LookStep? then k - 1 else k;
            n.body.bits.stopped || (0 <= j < |n.queue| && n.queue[j] == StopCmd && n.pc != Dead)
  {
    if !s.LookStep? {
      StopStays(m, s, k);
    }
  }

  /** A caller that waits for the bit itself gets it, at the latest when the stop command has been taken; whatever else
      happens, and even if the element was paused or has ended meanwhile. */
  lemma {:induction false} StopIsTold(m: Machine, steps: seq<Step>, k: nat)
    requires Always(m) && Told(m) && m.pc != Dead && Runs(m, steps)
    requires k < |m.queue| && m.queue[k] == StopCmd && k < Taken(m, steps)
    ensures ComesToBit(m, steps)
    decreases |steps|
  {
    var s, n := steps[0], Next(m, steps[0]);
    StepKeepsAlways(m, s);
    StepKeepsTold(m, s);
    StopRaisesBit(m, s, k);
    if !n.body.bits.stopped {
      StopIsTold(n, steps[1..], if s.LookStep? then k - 1 else k);
    }
  }

  lemma {:induction false} RunKeepsTold(m: Machine, steps: seq<Step>)
    requires Always(m) && Told(m) && Runs(m, steps)
    ensures Always(After(m, steps)) && Told(After(m, steps))
    decreases |steps|
  {
    if steps != [] {
      StepKeepsAlways(m, steps[0]);
      StepKeepsTold(m, steps[0]);
      RunKeepsTold(Next(m, steps[0]), steps[1..]);
    }
  }

  // ---- what commands and results come to ----

  /** A resume resets the output of an element that has halted, and aborts both buffers if it fails. */
  function ResumeIo(s: State, ok: bool): seq<IoCall> {
    (if s == Init || s == Running || s == Paused then [] else [ResetOutput])
    + (if ok then [] else [AbortOutput, AbortInput])
  }

  /** What taking a command achieves, from any state an element can be in. */
  predicate Achieved(b: Body, cmd: Cmd, r: OpenResult, n: Machine) {
    var c := n.body.core;
    match cmd
    case FinishCmd =>
      if b.core.state == Error || b.core.state == Stopped then n.body == b
      else !c.open && !c.poll && c.state == Finished && n.body.bits == b.bits.(stopped := true)
    case StopCmd =>
      && !c.open && c.state == Stopped && !c.stopping
      && (if b.core.state == Stopped && !b.core.running then n.body.bits == b.bits
          else !c.running && n.body.bits == b.bits.(stopped := true))
      && (b.core.state != Stopped && b.core.state != Finished ==> !c.poll)
    case PauseCmd => !c.open && !c.poll && c.state == Paused && n.body.bits == b.bits.(paused := true)
    case ResumeCmd =>
      && n.body.bits == b.bits.(resumed := true, started := n.body.bits.started, stopped := n.body.bits.stopped)
      && (n.body.bits.started <==> b.bits.started || (b.core.state != Running && r == OpenOk))
      && (c.open <==> b.core.state == Running || r == OpenOk || r == OpenDone)
      && (c.open ==> c.state == Running && c.poll && !n.body.bits.stopped)
      && (!c.open ==> n.body.bits.stopped && (c.state == Stopped || c.state == Error))
      && n.body.io == b.io + ResumeIo(b.core.state, c.open)
    case DestroyCmd =>
      && n.pc == Dead && !c.open && !c.running && !c.stopping
      && c.state == (if b.core.open then Stopped else b.core.state)
      && n.body.bits == b.bits.(stopped := true, resumed := true, destroyed := true)
    case OtherCmd => n.body == b
  }

  lemma OtherIsAchieved(m: Machine, r: OpenResult)
    requires Always(m) && m.pc == AtWait && m.queue != [] && m.queue[0] != ResumeCmd
    ensures Achieved(m.body, m.queue[0], r, Look(m, r))
  {
  }

  /** The first halt stands: neither an error nor the end of the input takes an element out of STOPPED, nor the end out
      of ERROR. */
  lemma FirstHaltStands(b: Body)
    ensures OnError(b).core.state == (if b.core.state == Stopped then Stopped else Error)
    ensures OnFinish(b).core.state ==
            if b.core.state == Stopped || b.core.state == Error then b.core.state else Finished
    ensures b.core.state == Stopped ==> OnError(b) == OnFinish(b) == b
    ensures b.core.state == Error ==> OnFinish(b) == b
  {
  }

  /** Taking a command achieves what it is for, uses it up, and ends the thread only if it is the destroy command. */
  lemma CommandIsAchieved(m: Machine, r: OpenResult)
    requires Always(m) && m.pc == AtWait && m.queue != []
    ensures var n := Look(m, r);
            && Achieved(m.body, m.queue[0], r, n) && n.queue == m.queue[1..]
            && (n.pc == Dead <==> m.queue[0] == DestroyCmd)
  {
    if m.queue[0] == ResumeCmd {
      ResumeIsTaken(m, r);
    } else {
      OtherIsAchieved(m, r);
    }
    OnlyDestroyEnds(m, r);
  }

  lemma OnlyDestroyEnds(m: Machine, r: OpenResult)
    requires m.pc == AtWait && m.queue != []
    ensures Look(m, r).queue == m.queue[1..] && (Look(m, r).pc == Dead <==> m.queue[0] == DestroyCmd)
  {
  }

  lemma ResumeIsTaken(m: Machine, r: OpenResult)
    requires BodyOk(m.body) && m.pc == AtWait && m.queue != [] && m.queue[0] == ResumeCmd
    ensures Achieved(m.body, ResumeCmd, r, Look(m, r))
  {
    var (c, ok) := OnResume(m.body, r);
    ResumeIsAchieved(m.body, r);
    ResumeDoesIo(m.body, r);
    ResumeSetsBits(m.body, r);
    ResumeIsOk(m.body, r);
    ResumeFailTells(m.body, r);
    assert Look(m, r).body == if ok then c else c.(bits := c.bits.(stopped := true));
  }

  lemma ResumeFailTells(b: Body, r: OpenResult)
    ensures !OnResume(b, r).1 ==> OnResume(b, r).0.bits.stopped
  {
  }

  lemma ResumeIsAchieved(b: Body, r: OpenResult)
    requires BodyOk(b)
    ensures var (c, ok) := OnResume(b, r);
            && c.bits.resumed && ok == (b.core.state == Running || r == OpenOk || r == OpenDone) == c.core.open
            && (ok ==> c.core.state == Running && c.core.poll)
            && (!ok ==> c.core.state == if r == OpenAbort then Stopped else Error)
  {
    ResumeIsOk(b, r);
  }

  lemma InitSetsBits(w: Body, r: OpenResult)
    ensures var c := ProcessInit(w, r).0;
            && c.bits == w.bits.(started := c.bits.started, stopped := c.bits.stopped)
            && (c.bits.started <==> w.bits.started || r == OpenOk)
  {
  }

  lemma ResumeSetsBits(b: Body, r: OpenResult)
    ensures var c := OnResume(b, r).0;
            && c.bits == b.bits.(resumed := true, started := c.bits.started, stopped := c.bits.stopped)
            && (c.bits.started <==> b.bits.started || (b.core.state != Running && r == OpenOk))
  {
    var w := b.(core := b.core.(running := true), bits := b.bits.(resumed := true));
    var v := if b.core.state == Init || b.core.state == Paused then w else w.(io := w.io + [ResetOutput]);
    var i := ProcessInit(v, r).0;
    InitSetsBits(v, r);
    assert b.core.state != Running ==>
      OnResume(b, r).0.bits == i.bits || OnResume(b, r).0.bits == i.bits.(stopped := false);
  }

  lemma ResumeDoesIo(b: Body, r: OpenResult)
    ensures var (c, ok) := OnResume(b, r); c.io == b.io + ResumeIo(b.core.state, ok)
  {
    var (c, ok) := OnResume(b, r);
    assert b.io + [ResetOutput] + [AbortOutput, AbortInput] == b.io + ([ResetOutput] + [AbortOutput, AbortInput]);
    assert b.io + [] == b.io;
  }

  /** Closed after the call of process, at rest in a state, and waiters told so. */
  predicate SettledIn(b: Body, c: Body, s: State) {
    && c.core.state == s && !c.core.running && !c.core.open && !c.core.poll && c.bits.stopped
    && c.log == b.log + [ProcessCall, CloseCall]
  }

  /** What the result of a call of process comes to, for a running element that nobody resets. */
  lemma ResultIsSettled(b: Body, p: ProcessResult, r: OpenResult)
    requires BodyOk(b) && b.core.state == Running
    ensures var c := ProcessBody(b, p, false, r);
            && c.io == b.io + (if p == IoDone || p == IoOk then [DoneOutput] else [])
            && match p
            case IoAbort => SettledIn(b, c, Stopped)
            case IoDone => SettledIn(b, c, Finished)
            case IoOk => SettledIn(b, c, Finished)
            case IoFail => SettledIn(b, c, Error)
            case ProcessFail => SettledIn(b, c, Error)
            case _ => c == b.(log := b.log + [ProcessCall])
  {
    assert b.log + [ProcessCall] + [CloseCall] == b.log + [ProcessCall, CloseCall];
  }

  /** At the start or after some step of the run the thread is gone. */
  predicate ComesToEnd(m: Machine, steps: seq<Step>)
    requires Runs(m, steps)
    decreases |steps|
  {
    m.pc == Dead || (steps != [] && ComesToEnd(Next(m, steps[0]), steps[1..]))
  }

  lemma DestroyMovesUp(m: Machine, s: Step, k: nat)
    requires Enabled(m, s) && k < |m.queue| && m.queue[k] == DestroyCmd && m.pc != Dead
    ensures var n := Next(m, s);
            var j := if s.LookStep? then k - 1 else k;
            n.pc == Dead || (0 <= j < |n.queue| && n.queue[j] == DestroyCmd)
  {
    if s.LookStep? {
      assert Look(m, s.outcome).queue == m.queue[1..];
    }
  }

  /** Nor can a destroy request be lost: the thread ends when it has taken the commands up to it. */
  lemma {:induction false} DestroyIsObeyed(m: Machine, steps: seq<Step>, k: nat)
    requires Runs(m, steps)
    requires k < |m.queue| && m.queue[k] == DestroyCmd && k < Taken(m, steps)
    ensures ComesToEnd(m, steps)
    decreases |steps|
  {
    if m.pc != Dead {
      var s, n := steps[0], Next(m, steps[0]);
      DestroyMovesUp(m, s, k);
      if n.pc != Dead {
        DestroyIsObeyed(n, steps[1..], if s.LookStep? then k - 1 else k);
      }
    }
  }

  /** Up to the bit that the call waits for, which it lowers first. */
  predicate OnlyBits(m: Machine, n: Machine) {
    n.pc == m.pc && n.body.core == m.body.core && n.body.log == m.body.log && n.body.io == m.body.io
    && n.body.bits.stopped == m.body.bits.stopped && n.body.bits.started == m.body.bits.started
  }

  /** What the calls that send a command leave in the queue, and when they fail. */
  lemma CallsSendTheirCommand(m: Machine, threshold: real, late: bool)
    requires m.pc != Dead
    ensures OnlyBits(m, Terminate(m, late).0) && !Terminate(m, late).0.body.bits.destroyed
    ensures var (n, err) := Terminate(m, late);
            && (err == Ok <==> |m.queue| < COMMAND_QUEUE_SIZE && !late)
            && n.queue == if |m.queue| < COMMAND_QUEUE_SIZE then m.queue + [DestroyCmd] else m.queue
    ensures m.body.core.state.Code() < Paused.Code() ==>
              var (n, err) := Pause(m, late);
              && OnlyBits(m, n) && !n.body.bits.paused
              && (err == Ok <==> |m.queue| < COMMAND_QUEUE_SIZE && !late)
              && n.queue == if |m.queue| < COMMAND_QUEUE_SIZE then m.queue + [PauseCmd] else m.queue
    ensures m.body.core.state.Code() >= Paused.Code() ==>
              var (n, err) := Pause(m, late);
              err == Ok && n.queue == m.queue && n.body.core.state == Paused && n.body.bits == m.body.bits
    ensures var (n, err) := Resume(m, threshold, late);
            && OnlyBits(m, n) && (ResumeIsSent(m, threshold) ==> !n.body.bits.resumed)
            && (err == Ok <==> m.body.core.state == Running || m.body.core.state == Finished
                               || (ResumeIsSent(m, threshold) && !late))
            && n.queue == (if ResumeIsSent(m, threshold) then m.queue + [ResumeCmd] else m.queue)
  {
  }

  /** Without a thread there is nothing to end, and nothing that could pause, go on or stop. */
  lemma CallsWithoutThread(m: Machine, threshold: real, late: bool)
    requires m.pc == Dead
    ensures Terminate(m, late) == (m, Ok) && Pause(m, late) == Resume(m, threshold, late) == Stop(m) == (m, Fail)
  {
  }

  /** A new thread begins with no command and in INIT, with the stopped bit down; one that is there is left alone; and
      one that cannot be created leaves the element in ERROR with its old commands thrown away. */
  lemma StartBegins(m: Machine, created: bool)
    requires Always(m)
    ensures var (n, err) := Start(m, created);
            && Always(n) && (err == Ok <==> m.pc != Dead || created) && n.body.log == m.body.log
            && (m.pc != Dead ==> n == m)
            && (m.pc == Dead ==> n.queue == [])
            && (m.pc == Dead && created ==>
                  n.pc == AtWait && n.body.core.state == Init && !n.body.bits.stopped && !CanLook(n))
            && (m.pc == Dead && !created ==> n.pc == Dead && n.body.core.state == Error && n.body.bits == m.body.bits)
  {
    CallIsOk(m, StartStep(created));
  }

  /** An element sent commands that its thread does not come to take. */
  function SentAll(m: Machine, cmds: seq<Cmd>): Machine {
    if cmds == [] then m else Send(SentAll(m, cmds[..|cmds| - 1]), cmds[|cmds| - 1]).0
  }

  /** The first five are queued, in order; later ones are refused. */
  lemma {:induction false} FiveCommandsFit(m: Machine, cmds: seq<Cmd>)
    requires m.queue == []
    ensures SentAll(m, cmds) == m.(queue := if |cmds| <= 5 then cmds else cmds[..5])
    ensures forall cmd: Cmd :: Send(SentAll(m, cmds), cmd).1 == Ok <==> |cmds| < 5
  {
    if cmds != [] {
      var before := cmds[..|cmds| - 1];
      FiveCommandsFit(m, before);
      assert |cmds| <= 5 ==> before + [cmds[|cmds| - 1]] == cmds;
      assert |cmds| > 5 ==> before[..5] == cmds[..5];
    }
  }

  /** A running element without commands never waits: each turn of its thread is one call of process. */
  lemma RunningGoesRound(m: Machine, r: OpenResult, p: ProcessResult, r1: OpenResult)
    requires Always(m) && Coincide(m) && m.pc == AtWait && m.body.core.open && m.queue == []
    ensures CanLook(m) && Look(m, r).pc == AtProcess
    ensures var n := Process(Look(m, r), p, false, r1);
            && n.pc == AtWait && n.body == ProcessBody(m.body, p, false, r1)
            && m.body.log + [ProcessCall] <= n.body.log
            && (p == Went ==> n.body == m.body.(log := m.body.log + [ProcessCall]) && CanLook(n))
  {
  }

  /** An element that has halted, or been paused, on its last command does not go round: after the turn its thread waits
      for the next command. One that is open does go round. */
  lemma HaltedSleeps(m: Machine, r: OpenResult, p: ProcessResult, reset: bool, r1: OpenResult)
    requires Always(m) && m.pc == AtWait && m.body.core.open && |m.queue| == 1
    requires m.queue[0] == PauseCmd || m.queue[0] == StopCmd || m.queue[0] == FinishCmd
    ensures CanLook(m) && CanLook(m.(queue := []))
    ensures var n := Process(Look(m, r), p, reset, r1); !CanLook(n) && n.body.log == Look(m, r).body.log
  {
    OtherIsAchieved(m, r);
  }

  // ---- why resets have to wait ----

  /** Resetting the state of an open element and then resuming it opens it twice, whatever the second open returns. */
  lemma ResetThenResumeBreaks(m: Machine, r: OpenResult)
    requires Always(m) && m.pc == AtWait && m.body.core.open && m.queue == []
    ensures var (n, err) := Resume(ResetState(m), 0.0, false);
            err == Ok && CanLook(n) && PhaseOf(Look(n, r).body.log) == Broken
  {
    StepKeepsAlways(m, ResetStep);
    StepKeepsAlways(ResetState(m), ResumeStep(0.0));
    StepKeepsAlways(Resume(ResetState(m), 0.0, false).0, LookStep(r));
  }

  /** So does resetting it during the call of process that meets the end of the input: the source's own re-open branch
      does not close first. The state is one a new element reaches in three steps. */
  lemma ResetInProcessOpensTwice()
    ensures var m := Look(Resume(Start(NewElement(), true).0, 0.0, false).0, OpenOk);
            && m.pc == AtProcess && m.body.core.open
            && Process(m, IoDone, true, OpenOk).body.log == [OpenCall, ProcessCall, OpenCall]
  {
    var b := Look(Resume(Start(NewElement(), true).0, 0.0, false).0, OpenOk).body;
    assert b.core == Core(Running, true, true, false, true) && b.log == [OpenCall];
  }
}
