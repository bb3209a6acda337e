/** An element as its source has it: handlers and calls that change its fields in place. */
module ElementObject {
  import opened AudioTypes
  import opened ElementSpec

  class Element {
    var pc: Pc
    var state: State
    var isRunning: bool
    var isOpen: bool
    var stopping: bool
    var poll: bool
    var bits: Bits
    var queue: seq<Cmd>
    var log: seq<Call>
    var io: seq<IoCall>

    function Content(): Body
      reads this
    {
      Body(Core(state, isRunning, isOpen, stopping, poll), bits, log, io)
    }

    function View(): Machine
      reads this
    {
      Machine(pc, Content(), queue)
    }

    constructor ()
      ensures View() == NewElement()
    {
      pc, state, isRunning, isOpen, stopping, poll := Dead, Init, false, false, false, false;
      bits := Bits(false, false, false, false, false);
      queue, log, io := [], [], [];
    }

    // ---- on the element's own thread ----

    method ProcessDeinit()
      modifies this`isOpen, this`log
      ensures Content() == Deinit(old(Content()))
    {
      if isOpen {
        log := log + [CloseCall];
      }
      isOpen := false;
    }

    method OnCmdError()
      modifies this`state, this`isRunning, this`isOpen, this`poll, this`bits, this`log
      ensures Content() == OnError(old(Content()))
    {
      if state != Stopped {
        ProcessDeinit();
        state := Error;
        poll := false;
        isRunning := false;
        bits := bits.(stopped := true);
      }
    }

    method OnCmdStop()
      modifies this`state, this`isRunning, this`isOpen, this`stopping, this`poll, this`bits, this`log
      ensures Content() == OnStop(old(Content()))
    {
      if state != Finished && state != Stopped {
        ProcessDeinit();
        state := Stopped;
        poll := false;
        isRunning := false;
        stopping := false;
        bits := bits.(stopped := true);
      } else {
        if !isRunning && state == Stopped {
          stopping := false;
          return;
        }
        state := Stopped;
        isRunning := false;
        stopping := false;
        bits := bits.(stopped := true);
      }
    }

    method OnCmdFinish()
      modifies this`state, this`isRunning, this`isOpen, this`poll, this`bits, this`log
      ensures Content() == OnFinish(old(Content()))
    {
      if state == Error || state == Stopped {
        return;
      }
      ProcessDeinit();
      state := Finished;
      poll := false;
      isRunning := false;
      bits := bits.(stopped := true);
    }

    method OnCmdPause()
      modifies this`state, this`isRunning, this`isOpen, this`poll, this`bits, this`log
      ensures Content() == OnPause(old(Content()))
    {
      state := Paused;
      ProcessDeinit();
      poll := false;
      isRunning := false;
      bits := bits.(paused := true);
    }

    /** `r` is what the user's open function returns. */
    method ProcessInit(r: OpenResult) returns (ok: bool)
      modifies this`state, this`isRunning, this`isOpen, this`stopping, this`poll, this`bits, this`log
      ensures (Content(), ok) == ElementSpec.ProcessInit(old(Content()), r)
    {
      isOpen := true;
      state := Initializing;
      log := log + [OpenCall];
      ok := false;
      match r
      case OpenOk =>
        state := Running;
        bits := bits.(started := true);
        return true;
      case OpenDone =>
        state := Running;
        return true;
      case OpenAbort =>
        OnCmdStop();
      case OpenFailed =>
        state := Error;
        OnCmdError();
    }

    method OnCmdResume(r: OpenResult) returns (ok: bool)
      modifies this`state, this`isRunning, this`isOpen, this`stopping, this`poll, this`bits, this`log, this`io
      ensures (Content(), ok) == OnResume(old(Content()), r)
    {
      if state == Running {
        isRunning := true;
        bits := bits.(resumed := true);
        return true;
      }
      if state != Init && state != Paused {
        io := io + [ResetOutput];
      }
      isRunning := true;
      bits := bits.(resumed := true);
      ok := ProcessInit(r);
      if !ok {
        io := io + [AbortOutput, AbortInput];
        isRunning := false;
        return;
      }
      poll := true;
      bits := bits.(stopped := false);
    }

    method OnCmd(cmd: Cmd, r: OpenResult) returns (h: Handled)
      modifies this`state, this`isRunning, this`isOpen, this`stopping, this`poll, this`bits, this`log, this`io
      ensures (Content(), h) == Handle(old(Content()), cmd, r)
    {
      h := HandledOk;
      match cmd
      case FinishCmd => OnCmdFinish();
      case StopCmd => OnCmdStop();
      case PauseCmd => OnCmdPause();
      case ResumeCmd =>
        var ok := OnCmdResume(r);
        h := if ok then HandledOk else HandledFail;
      case DestroyCmd =>
        isRunning := false;
        h := HandledAbort;
      case OtherCmd =>
    }

    /** What `audio_element_task` does after its loop. */
    method Exit()
      modifies this
      ensures View() == Machine(Dead, Exited(old(Content())), old(queue))
    {
      if isOpen {
        log := log + [CloseCall];
        state := Stopped;
      }
      isOpen := false;
      stopping := false;
      bits := bits.(stopped := true, resumed := true, destroyed := true);
      pc := Dead;
    }

    /** The first half of a turn of the loop of `audio_element_task`. */
    method LookForCommand(r: OpenResult)
      requires CanLook(View())
      modifies this
      ensures View() == Look(old(View()), r)
    {
      pc := AtProcess;
      if queue != [] {
        var cmd := queue[0];
        queue := queue[1..];
        var h := OnCmd(cmd, r);
        if h != HandledOk {
          bits := bits.(stopped := true);
          if h == HandledAbort {
            Exit();
          }
        }
      }
    }

    /** What the element does when process has met the end of the input: open again after a reset, finish otherwise. */
    method EndOfInput(r: OpenResult)
      modifies this`state, this`isRunning, this`isOpen, this`stopping, this`poll, this`bits, this`log, this`io
      ensures Content() == OnEndOfInput(old(Content()), r)
    {
      if state == Init {
        var _ := OnCmdResume(r);
      } else {
        io := io + [DoneOutput];
        OnCmdFinish();
      }
    }

    method SettleResult(p: ProcessResult, r: OpenResult)
      modifies this`state, this`isRunning, this`isOpen, this`stopping, this`poll, this`bits, this`log, this`io
      ensures Content() == OnResult(old(Content()), p, r)
    {
      match p
      case IoAbort => OnCmdStop();
      case IoDone => EndOfInput(r);
      case IoOk => EndOfInput(r);
      case IoFail => OnCmdError();
      case ProcessFail => OnCmdError();
      case Went =>
      case IoTimeout =>
      case Odd =>
    }

    /** The second half of a turn; the user's process function returns `p`, and someone resets the state meanwhile
        if `reset`. */
    method ProcessRunning(p: ProcessResult, reset: bool, r: OpenResult)
      requires pc == AtProcess
      modifies this
      ensures View() == Process(old(View()), p, reset, r)
    {
      pc := AtWait;
      if state.Code() < Running.Code() || !isRunning {
        return;
      }
      log := log + [ProcessCall];
      if reset {
        state := Init;
      }
      ghost var called := Content();
      SettleResult(p, r);
      assert Content() == OnResult(called, p, r);
    }

    // ---- the callers' side ----

    method CmdSend(cmd: Cmd) returns (err: Err)
      modifies this`queue
      ensures (View(), err) == Send(old(View()), cmd)
    {
      if |queue| >= COMMAND_QUEUE_SIZE {
        return Fail;
      }
      queue := queue + [cmd];
      err := Ok;
    }

    method Run(created: bool) returns (err: Err)
      modifies this
      ensures (View(), err) == Start(old(View()), created)
    {
      if pc != Dead {
        return Ok;
      }
      queue := [];
      if !created {
        state := Error;
        return Fail;
      }
      pc := AtWait;
      state := Init;
      poll := false;
      bits := bits.(stopped := false);
      err := Ok;
    }

    method Terminate(late: bool) returns (err: Err)
      modifies this
      ensures (View(), err) == ElementSpec.Terminate(old(View()), late)
    {
      if pc == Dead {
        return Ok;
      }
      bits := bits.(destroyed := false);
      err := CmdSend(DestroyCmd);
      if err == Ok && late {
        err := Fail;
      }
    }

    method Pause(late: bool) returns (err: Err)
      modifies this
      ensures (View(), err) == ElementSpec.Pause(old(View()), late)
    {
      if pc == Dead {
        return Fail;
      }
      if state.Code() >= Paused.Code() {
        state := Paused;
        return Ok;
      }
      bits := bits.(paused := false);
      err := CmdSend(PauseCmd);
      if err == Ok && late {
        err := Fail;
      }
    }

    method Resume(threshold: real, late: bool) returns (err: Err)
      modifies this
      ensures (View(), err) == ElementSpec.Resume(old(View()), threshold, late)
    {
      if pc == Dead {
        return Fail;
      }
      if state == Running {
        return Ok;
      }
      if state == Error {
        return Fail;
      }
      if state == Finished {
        return Ok;
      }
      if threshold > 1.0 || threshold < 0.0 {
        return Fail;
      }
      bits := bits.(resumed := false);
      err := CmdSend(ResumeCmd);
      if err == Ok && late {
        err := Fail;
      }
    }

    method Stop() returns (err: Err)
      modifies this
      ensures (View(), err) == ElementSpec.Stop(old(View()))
    {
      if pc == Dead {
        return Fail;
      }
      if state == Paused {
        poll := true;
      }
      if !isRunning {
        bits := bits.(stopped := true);
        return Ok;
      }
      io := io + [AbortOutput, AbortInput];
      if state == Running {
        bits := bits.(stopped := false);
      }
      if stopping {
        return Ok;
      }
      stopping := true;
      err := CmdSend(StopCmd);
      if err != Ok {
        stopping := false;
      }
    }

    method ResetState()
      modifies this`state
      ensures View() == ElementSpec.ResetState(old(View()))
    {
      state := Init;
    }
  }
}
