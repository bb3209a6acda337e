/** The life cycle of a task-backed element: its command handlers, the turns of its task, and the calls made on it. */
module ElementSpec {
  import opened AudioTypes

  const COMMAND_QUEUE_SIZE: nat := 5

  datatype Cmd = FinishCmd | StopCmd | PauseCmd | ResumeCmd | DestroyCmd | OtherCmd

  /** The calls an element makes of the functions its user supplied, in order. */
  datatype Call = OpenCall | ProcessCall | CloseCall

  /** The calls it makes on the ring buffers it is connected to, in order. */
  datatype IoCall = ResetOutput | AbortOutput | AbortInput | DoneOutput

  datatype OpenResult = OpenOk | OpenDone | OpenAbort | OpenFailed

  /** A positive length, or one of the codes `process` may return; `Odd` is any other number. */
  datatype ProcessResult = Went | IoOk | IoDone | IoAbort | IoFail | IoTimeout | ProcessFail | Odd

  /** `poll` is whether its thread looks for commands without waiting. */
  datatype Core = Core(state: State, running: bool, open: bool, stopping: bool, poll: bool)

  datatype Bits = Bits(stopped: bool, started: bool, resumed: bool, paused: bool, destroyed: bool)

  datatype Body = Body(core: Core, bits: Bits, log: seq<Call>, io: seq<IoCall>)

  /** Where its thread is: not there, about to look for a command, or about to process. */
  datatype Pc = Dead | AtWait | AtProcess

  datatype Machine = Machine(pc: Pc, body: Body, queue: seq<Cmd>)

  // ---- command handlers ----

  function Deinit(b: Body): Body {
    b.(core := b.core.(open := false), log := if b.core.open then b.log + [CloseCall] else b.log)
  }

  /** Closed and at rest in a given state, which waiters may now see. */
  function Halted(b: Body, s: State): Body {
    var d := Deinit(b);
    d.(core := d.core.(state := s, poll := false, running := false), bits := d.bits.(stopped := true))
  }

  function OnError(b: Body): Body {
    if b.core.state != Stopped then Halted(b, Error) else b
  }

  function OnStop(b: Body): Body {
    if b.core.state != Finished && b.core.state != Stopped then
      var h := Halted(b, Stopped);
      h.(core := h.core.(stopping := false))
    else if !b.core.running && b.core.state == Stopped then b.(core := b.core.(stopping := false))
    else b.(core := b.core.(state := Stopped, running := false, stopping := false), bits := b.bits.(stopped := true))
  }

  function OnFinish(b: Body): Body {
    if b.core.state == Error || b.core.state == Stopped then b else Halted(b, Finished)
  }

  function OnPause(b: Body): Body {
    var d := Deinit(b);
    d.(core := d.core.(state := Paused, poll := false, running := false), bits := d.bits.(paused := true))
  }

  /** `audio_element_process_init`; the second result is whether it returned `ESP_OK`. */
  function ProcessInit(b: Body, r: OpenResult): (Body, bool) {
    var o := b.(core := b.core.(open := true, state := Initializing), log := b.log + [OpenCall]);
    match r
    case OpenOk => (o.(core := o.core.(state := Running), bits := o.bits.(started := true)), true)
    case OpenDone => (o.(core := o.core.(state := Running)), true)
    case OpenAbort => (OnStop(o), false)
    case OpenFailed => (OnError(o.(core := o.core.(state := Error))), false)
  }

  /** A resume empties the output, unless the element is in INIT or PAUSED; one that fails wakes whoever waits at either
      end. */
  function OnResume(b: Body, r: OpenResult): (Body, bool) {
    var w := b.(core := b.core.(running := true), bits := b.bits.(resumed := true));
    if b.core.state == Running then (w, true)
    else
      var v := if b.core.state == Init || b.core.state == Paused then w else w.(io := w.io + [ResetOutput]);
      var (i, ok) := ProcessInit(v, r);
      if ok then (i.(core := i.core.(poll := true), bits := i.bits.(stopped := false)), true)
      else (i.(core := i.core.(running := false), io := i.io + [AbortOutput, AbortInput]), false)
  }

  datatype Handled = HandledOk | HandledFail | HandledAbort

  function Handle(b: Body, cmd: Cmd, r: OpenResult): (Body, Handled) {
    match cmd
    case FinishCmd => (OnFinish(b), HandledOk)
    case StopCmd => (OnStop(b), HandledOk)
    case PauseCmd => (OnPause(b), HandledOk)
    case ResumeCmd => var (i, ok) := OnResume(b, r); (i, if ok then HandledOk else HandledFail)
    case DestroyCmd => (b.(core := b.core.(running := false)), HandledAbort)
    case OtherCmd => (b, HandledOk)
  }

  // ---- its thread ----

  /** What the thread does after its loop. */
  function Exited(b: Body): Body {
    var d := Deinit(b);
    d.(core := d.core.(state := if b.core.open then Stopped else b.core.state, stopping := false),
       bits := d.bits.(stopped := true, resumed := true, destroyed := true))
  }

  /** A task that polls goes on when there is no command; another waits for one. */
  predicate CanLook(m: Machine) {
    m.pc == AtWait && (m.queue != [] || m.body.core.poll)
  }

  function Look(m: Machine, r: OpenResult): Machine
    requires CanLook(m)
  {
    if m.queue == [] then m.(pc := AtProcess)
    else
      var (b, h) := Handle(m.body, m.queue[0], r);
      var n := if h == HandledOk then b else b.(bits := b.bits.(stopped := true));
      if h == HandledAbort then Machine(Dead, Exited(n), m.queue[1..])
      else Machine(AtProcess, n, m.queue[1..])
  }

  predicate Processes(b: Body) {
    b.core.state.Code() >= Running.Code() && b.core.running
  }

  /** At the end of the input: open again after a reset; otherwise the output is marked as done. */
  function OnEndOfInput(c: Body, r: OpenResult): Body {
    if c.core.state == Init then OnResume(c, r).0 else OnFinish(c.(io := c.io + [DoneOutput]))
  }

  /** What is done about the result of process. */
  function OnResult(c: Body, p: ProcessResult, r: OpenResult): Body {
    match p
    case IoAbort => OnStop(c)
    case IoDone => OnEndOfInput(c, r)
    case IoOk => OnEndOfInput(c, r)
    case IoFail => OnError(c)
    case ProcessFail => OnError(c)
    case Went => c
    case IoTimeout => c
    case Odd => c
  }

  /** After the call of process, during which someone may have reset the state. */
  function Called(b: Body, reset: bool): Body {
    b.(core := if reset then b.core.(state := Init) else b.core, log := b.log + [ProcessCall])
  }

  /** `audio_element_process_running`; `reset` is whether someone resets the state while `process` is at work. */
  function ProcessBody(b: Body, p: ProcessResult, reset: bool, r: OpenResult): Body {
    if !Processes(b) then b
    else OnResult(Called(b, reset), p, r)
  }

  function Process(m: Machine, p: ProcessResult, reset: bool, r: OpenResult): Machine
    requires m.pc == AtProcess
  {
    Machine(AtWait, ProcessBody(m.body, p, reset, r), m.queue)
  }

  // ---- calls made on the element ----

  function Send(m: Machine, cmd: Cmd): (Machine, Err) {
    if |m.queue| < COMMAND_QUEUE_SIZE then (m.(queue := m.queue + [cmd]), Ok) else (m, Fail)
  }

  /** `audio_element_run`: old commands are thrown away, and a thread starts if it can be `created`. */
  function Start(m: Machine, created: bool): (Machine, Err) {
    if m.pc != Dead then (m, Ok)
    else if !created then (Machine(Dead, m.body.(core := m.body.core.(state := Error)), []), Fail)
    else
      (Machine(AtWait,
               m.body.(core := m.body.core.(state := Init, poll := false), bits := m.body.bits.(stopped := false)),
               []), Ok)
  }

  /** A command is sent, and the effect of it waited for; the wait may be too `late`. */
  function SendAndWait(m: Machine, cmd: Cmd, late: bool): (Machine, Err) {
    var (n, err) := Send(m, cmd);
    (n, if late then Fail else err)
  }

  function Terminate(m: Machine, late: bool): (Machine, Err) {
    if m.pc == Dead then (m, Ok)
    else SendAndWait(m.(body := m.body.(bits := m.body.bits.(destroyed := false))), DestroyCmd, late)
  }

  function Pause(m: Machine, late: bool): (Machine, Err) {
    if m.pc == Dead then (m, Fail)
    else if m.body.core.state.Code() >= Paused.Code() then
      (m.(body := m.body.(core := m.body.core.(state := Paused))), Ok)
    else SendAndWait(m.(body := m.body.(bits := m.body.bits.(paused := false))), PauseCmd, late)
  }

  /** `threshold` is how full the input has to be before the call returns; `late` is whether a wait of it times out. */
  function Resume(m: Machine, threshold: real, late: bool): (Machine, Err) {
    var s := m.body.core.state;
    if m.pc == Dead then (m, Fail)
    else if s == Running then (m, Ok)
    else if s == Error then (m, Fail)
    else if s == Finished then (m, Ok)
    else if threshold > 1.0 || threshold < 0.0 then (m, Fail)
    else SendAndWait(m.(body := m.body.(bits := m.body.bits.(resumed := false))), ResumeCmd, late)
  }

  /** Whether `audio_element_resume` has its thread look at it, rather than answering at once. */
  predicate ResumeIsSent(m: Machine, threshold: real) {
    var s := m.body.core.state;
    && m.pc != Dead && s != Running && s != Error && s != Finished
    && 0.0 <= threshold <= 1.0 && |m.queue| < COMMAND_QUEUE_SIZE
  }

  /** A stop wakes whoever waits at either end of a running element, before its command is sent. */
  function Stop(m: Machine): (Machine, Err) {
    var c := m.body.core;
    if m.pc == Dead then (m, Fail)
    else
      var c1 := if c.state == Paused then c.(poll := true) else c;
      if !c.running then (m.(body := m.body.(core := c1, bits := m.body.bits.(stopped := true))), Ok)
      else
        var bits1 := if c.state == Running then m.body.bits.(stopped := false) else m.body.bits;
        var n := m.(body := m.body.(core := c1, bits := bits1, io := m.body.io + [AbortOutput, AbortInput]));
        if c.stopping then (n, Ok)
        else
          var (q, err) := Send(n, StopCmd);
          (q.(body := q.body.(core := q.body.core.(stopping := err == Ok))), err)
  }

  /** `audio_element_wait_for_stop_ms` returns `ESP_OK` once this holds. */
  predicate WaitReturns(m: Machine) {
    !m.body.core.running || m.body.bits.stopped
  }

  function ResetState(m: Machine): Machine {
    m.(body := m.body.(core := m.body.core.(state := Init)))
  }

  /** As `audio_element_init` leaves an element: no task, no command, nothing called yet. */
  function NewElement(): Machine {
    Machine(Dead, Body(Core(Init, false, false, false, false), Bits(false, false, false, false, false), [], []), [])
  }
}
