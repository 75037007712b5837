/** What the routines of the request life cycle leave alone, and what they cannot forget. */
module RequestFrames {
  import opened Options
  import opened RequestModel

  /** No accepted request is forgotten, none handed back is waited for again, and only the
      drainers move their program counters. */
  predicate Accounts(h: Host, h': Host) {
    && h'.cfg == h.cfg && h.obj.Keys <= h'.obj.Keys && h'.out <= h.out
    && h'.worker == h.worker && h'.thread == h.thread
  }

  /** Besides, a caller that sleeps goes on sleeping. */
  predicate Frames(h: Host, h': Host) {
    Accounts(h, h') && h'.caller == h.caller
  }

  lemma SendFrames(h: Host, c: Cmd, lines: Lines)
    ensures Frames(h, Send(h, c, lines).0)
    ensures Send(h, c, lines).0.deferred == h.deferred
    ensures Send(h, c, lines).0.slot0 == h.slot0 && Send(h, c, lines).0.slot1 == h.slot1
    ensures Send(h, c, lines).1 ==> Send(h, c, lines).0.cmd.Some?
  {
    hide IssuedRec, WithCmd, CmdOf, DataLine, CarriesData, Refused;
  }

  lemma FinishFrames(h: Host, r: Request)
    ensures Frames(h, FinishMrq(h, r)) && Frames(h, FinishMrqQueued(h, r))
    ensures FinishMrq(h, r).deferred == h.deferred || FinishMrq(h, r).deferred.None?
    ensures FinishMrq(h, r).woken == h.woken && FinishMrq(h, r).cfg == h.cfg
  {
  }

  lemma FailFrames(h: Host, f: Cmd)
    ensures Frames(h, SetError(h, f, true)) && SetError(h, f, true).deferred == h.deferred
    ensures Frames(h, FinishMrqQueued(SetError(h, f, true), f.mrq))
    ensures FinishMrqQueued(SetError(h, f, true), f.mrq).workQueued
    ensures var d := FinishMrqQueued(SetError(h, f, true), f.mrq).deferred; d == h.deferred || d.None?
    ensures FinishMrqQueued(SetError(h, f, true), f.mrq).woken == h.woken
  {
    FinishFrames(SetError(h, f, true), f.mrq);
    hide FinishMrq, WithCmd, CmdOf;
  }

  lemma Then(h: Host, h': Host, h'': Host)
    requires Frames(h, h') && Frames(h', h'')
    ensures Frames(h, h'')
  {
  }

  lemma ReleaseFrames(h: Host)
    requires h.data.Some?
    ensures Frames(h, ReleaseData(h)) && ReleaseData(h).deferred == h.deferred
    ensures Frames(h, ReleaseData(h).(cmd := None))
  {
    hide Look;
  }

  lemma DeferFrames(h: Host, c: Cmd)
    ensures Frames(h, Defer(h, c))
  {
  }

  lemma FinishDataFrames(h: Host, swTimeout: bool, lines: Lines)
    requires h.data.Some?
    ensures Frames(h, FinishData(h, swTimeout, lines))
    ensures swTimeout ==> var d := FinishData(h, swTimeout, lines).deferred; d == h.deferred || d.None?
  {
    hide Frames, FinishMrq, Send, SetError, ReleaseData, WantsStop, Defer;
    var stop := Cmd(h.data.value, Stop);
    var h1 := ReleaseData(h);
    var h2 := h1.(cmd := None);
    var h3 := Send(h2, stop, lines).0;
    var h4 := SetError(h3, stop, true);
    ReleaseFrames(h);
    FinishFrames(h1, stop.mrq);
    Then(h, h1, FinishMrq(h1, stop.mrq));
    SendFrames(h2, stop, lines);
    Then(h, h2, h3);
    DeferFrames(h3, stop);
    Then(h, h3, Defer(h3, stop));
    FailFrames(h3, stop);
    FinishFrames(h4, stop.mrq);
    Then(h, h3, h4);
    Then(h, h4, FinishMrq(h4, stop.mrq));
  }

  lemma RespondFrames(h: Host)
    requires h.cmd.Some?
    ensures Frames(h, Respond(h))
  {
    hide WithCmd, CmdOf;
  }

  lemma FinishCommandFrames(h: Host, lines: Lines)
    requires h.cmd.Some?
    ensures Frames(h, FinishCommand(h, lines))
  {
    hide Respond, FinishMrq, Send, FinishData, RspBusy, CarriesData;
    var r := h.cmd.value.mrq;
    var h1 := Respond(h);
    RespondFrames(h);
    if h.cmd.value.role == Sbc {
      SendFrames(h1, Cmd(r, Main), lines);
    } else if h1.data.Some? && h1.dataEarly {
      FinishDataFrames(h1, false, lines);
      FinishFrames(FinishData(h1, false, lines), r);
    } else {
      FinishFrames(h1, r);
    }
  }

  lemma CmdIrqFrames(h: Host, m: Mask, lines: Lines)
    ensures Frames(h, CmdIrq(h, m, lines).0)
  {
    hide FinishMrq, SetError, FinishCommand, CarriesData;
    if h.cmd.Some? {
      var c := h.cmd.value;
      FailFrames(h, c);
      FailFrames(h, Cmd(c.mrq, Sbc));
      FinishFrames(SetError(h, c, true), c.mrq);
      FinishFrames(SetError(h, Cmd(c.mrq, Sbc), true), c.mrq);
      FinishCommandFrames(h, lines);
    }
  }

  lemma EndFrames(h: Host, c: Cmd, r: Request)
    ensures Frames(h, EndBusy(h, c)) && Frames(h, SetDataError(h, r)) && Frames(h, EndData(h, r))
    ensures Frames(h, h.(dataCmd := None)) && Frames(h, EndData(h, r).(dataEarly := true))
    ensures EndData(h, r).data == h.data && SetDataError(h, r).data == h.data
    ensures SetDataError(h, r).deferred == h.deferred && SetDataError(h, r).woken == h.woken
  {
    hide WithCmd, CmdOf, Look;
  }

  lemma BusyIrqFrames(h: Host, m: Mask)
    ensures Frames(h, BusyIrq(h, m))
  {
    if h.dataCmd.Some? {
      var c := h.dataCmd.value;
      var h1 := h.(dataCmd := None);
      EndFrames(h, c, c.mrq);
      assert Frames(h, h);
      hide Frames, FinishMrq, SetError, EndBusy, RspBusy;
      FailFrames(h1, c);
      FinishFrames(SetError(h1, c, true), c.mrq);
      Then(h, h1, SetError(h1, c, true));
      Then(h, SetError(h1, c, true), FinishMrq(SetError(h1, c, true), c.mrq));
      FinishFrames(EndBusy(h, c), c.mrq);
      Then(h, EndBusy(h, c), FinishMrq(EndBusy(h, c), c.mrq));
    }
  }

  lemma DataPathFrames(h: Host, m: Mask, lines: Lines)
    requires h.data.Some?
    ensures Frames(h, DataIrq(h, m, lines))
  {
    var r := h.data.value;
    WokenFrames(h);
    EndFrames(h, Cmd(r, Main), r);
    hide Frames, BusyIrq, FinishData, SetDataError, EndData, Look;
    FinishDataFrames(h, false, lines);
    FinishDataFrames(SetDataError(h, r), false, lines);
    Then(h, SetDataError(h, r), FinishData(SetDataError(h, r), false, lines));
    FinishDataFrames(EndData(h, r), false, lines);
    Then(h, EndData(h, r), FinishData(EndData(h, r), false, lines));
  }

  lemma DataIrqFrames(h: Host, m: Mask, lines: Lines)
    ensures Frames(h, DataIrq(h, m, lines))
  {
    WokenFrames(h);
    BusyIrqFrames(h, m);
    hide Frames, BusyIrq, FinishData;
    if h.data.Some? { DataPathFrames(h, m, lines); }
  }

  lemma {:induction false} IrqRoundsFrames(h: Host, rounds: seq<Round>)
    ensures Frames(h, IrqRounds(h, rounds))
    decreases |rounds|
  {
    if rounds != [] {
      var h0 := IrqRounds(h, rounds[..|rounds| - 1]);
      var round := rounds[|rounds| - 1];
      IrqRoundsFrames(h, rounds[..|rounds| - 1]);
      CmdIrqFrames(h0, round.mask, round.cmdLines);
      var (h1, m) := if CmdBits(round.mask) then CmdIrq(h0, round.mask, round.cmdLines) else (h0, round.mask);
      DataIrqFrames(h1, m, round.dataLines);
      hide CmdIrq, DataIrq, CmdBits, DataBits;
    }
  }

  lemma HandBackFrames(h: Host, i: nat, r: Request)
    ensures Frames(h, HandBack(h, i, r))
  {
    hide Look;
  }

  lemma HandBackWakes(h: Host, i: nat, r: Request)
    ensures HandBack(h, i, r).woken == h.woken && HandBack(h, i, r).deferred == h.deferred
    ensures HandBack(h, i, r).cmd == h.cmd && HandBack(h, i, r).dataCmd == h.dataCmd
    ensures Slot(HandBack(h, i, r), i).None? && (i == 1 ==> HandBack(h, i, r).slot0 == h.slot0)
  {
    hide Look;
  }

  lemma WokenFrames(h: Host)
    ensures Frames(h, h.(woken := true)) && Frames(h, h)
  {
  }

  lemma ScanFrames(h: Host, i: nat)
    requires i < 2
    ensures Frames(h, Scan(h, i))
  {
    WokenFrames(h);
    hide Frames, DeferDone, HandBack;
    if Slot(h, i).Some? { HandBackFrames(h, i, Slot(h, i).value); }
  }

  lemma ScanWakes(h: Host, i: nat)
    requires i < 2
    ensures h.woken ==> Scan(h, i).woken
    ensures Slot(Scan(h, i), i).Some? ==> Scan(h, i).woken
  {
    if Slot(h, i).Some? { HandBackWakes(h, i, Slot(h, i).value); }
    hide DeferDone, HandBack;
  }

  lemma ScanLeavesFirst(h: Host)
    ensures Scan(h, 1).slot0 == h.slot0
  {
    if Slot(h, 1).Some? { HandBackWakes(h, 1, Slot(h, 1).value); }
    hide DeferDone, HandBack;
  }

  lemma IrqFrames(h: Host, rounds: seq<Round>)
    ensures Frames(h, Irq(h, rounds))
  {
    var h1 := IrqRounds(h, rounds);
    var h2 := Scan(Scan(h1, 0), 1);
    var h3 := if rounds == [] then h else h2;
    IrqRoundsFrames(h, rounds);
    WokenFrames(h);
    WokenFrames(h3);
    hide Frames, IrqRounds, Scan;
    ScanFrames(h1, 0);
    ScanFrames(Scan(h1, 0), 1);
    Then(h, h1, Scan(h1, 0));
    Then(h, Scan(h1, 0), h2);
    Then(h, h3, h3.(woken := true));
  }

  /** The interrupt handler calls the thread whenever it leaves it something to do. */
  lemma IrqWakes(h: Host, rounds: seq<Round>)
    ensures Irq(h, rounds).deferred.Some? ==> Irq(h, rounds).woken
    ensures rounds != [] && (Irq(h, rounds).slot0.Some? || Irq(h, rounds).slot1.Some?) ==> Irq(h, rounds).woken
  {
    ScanWakes(IrqRounds(h, rounds), 0);
    ScanWakes(Scan(IrqRounds(h, rounds), 0), 1);
    ScanLeavesFirst(Scan(IrqRounds(h, rounds), 0));
    hide IrqRounds, Scan;
  }

  lemma ErrorOutFrames(h: Host)
    ensures Frames(h, ErrorOut(h)) && ErrorOut(h).woken == h.woken
    ensures ErrorOut(h).deferred == h.deferred || ErrorOut(h).deferred.None?
    ensures ErrorOut(h) == h || ErrorOut(h).workQueued
  {
    hide FinishMrqQueued, SetError;
    if h.dataCmd.Some? { FailFrames(h, h.dataCmd.value); }
    var h1 := if h.dataCmd.Some?
      then FinishMrqQueued(SetError(h, h.dataCmd.value, true), h.dataCmd.value.mrq)
      else h;
    if h1.cmd.Some? { FailFrames(h1, h1.cmd.value); }
  }

  lemma SleepFrames(h: Host, h': Host, caller: Option<Caller>)
    requires Frames(h, h')
    ensures Accounts(h, h') && Accounts(h, h'.(caller := caller))
  {
  }

  lemma AwakeFrames(h: Host, h': Host)
    requires Frames(h.(caller := None), h')
    ensures Accounts(h, h')
  {
  }

  lemma AwakeSleeps(h: Host, h': Host, caller: Option<Caller>)
    requires Accounts(h, h')
    ensures Accounts(h, h'.(caller := caller))
  {
  }

  lemma SubmitFrames(h: Host, r: Request, present: bool, lines: Lines)
    ensures Accounts(Accept(h, r), Submit(h, r, present, lines))
    ensures Frames(h, SubmitAtomic(h, r, lines)) || Frames(Accept(h, r), SubmitAtomic(h, r, lines))
  {
    hide Accounts, Frames, FinishMrqQueued, SetError, Send, FirstCmd, Accept;
    var h0 := Accept(h, r);
    var c := FirstCmd(h.cfg, r);
    var h1 := Send(h0, c, lines).0;
    FailFrames(h0, Cmd(r, Main));
    SendFrames(h0, c, lines);
    SleepFrames(h0, FinishMrqQueued(SetError(h0, Cmd(r, Main), true), r), None);
    SleepFrames(h0, h1, Some(Caller(c, RETRIES - 1)));
    WarnFrames(h, h1.warned);
  }

  lemma WarnFrames(h: Host, warned: bool)
    ensures Frames(h, h.(warned := warned))
  {
  }

  lemma CallerFrames(h: Host, present: bool, lines: Lines)
    requires h.caller.Some?
    ensures Accounts(h, CallerWakes(h, present, lines))
  {
    hide Accounts, Frames, FinishMrqQueued, SetError, Send;
    var Caller(c, left) := h.caller.value;
    var awake := h.(caller := None);
    var h1 := Send(awake, c, lines).0;
    TryFrames(awake, c, lines);
    AwakeFrames(h, FinishMrqQueued(SetError(awake, c, true), c.mrq));
    AwakeFrames(h, h1);
    AwakeFrames(h, FinishMrqQueued(SetError(h1, c, true), c.mrq));
    if left > 0 { AwakeSleeps(h, h1, Some(Caller(c, left - 1))); }
  }

  /** The thread working on the deferred command is the only one to move its own counter. */
  predicate ThreadFrames(h: Host, h': Host) {
    && h'.cfg == h.cfg && h.obj.Keys <= h'.obj.Keys && h'.out <= h.out && h'.worker == h.worker
    && h'.caller == h.caller
  }

  lemma ParkFrames(h: Host, h': Host, thread: Thread, deferred: Option<Cmd>)
    requires Frames(h, h')
    ensures ThreadFrames(h, h'.(thread := thread, deferred := deferred)) && ThreadFrames(h, h'.(thread := thread))
    ensures ThreadFrames(h, h'.(deferred := deferred)) && ThreadFrames(h, h')
  {
  }

  lemma ThenPark(h: Host, thread: Thread, h': Host)
    requires Frames(h.(thread := thread), h')
    ensures ThreadFrames(h, h')
  {
  }

  lemma DeferFramesThread(h: Host, lines: Lines)
    ensures ThreadFrames(h, ThreadDefers(h, lines))
  {
    assert Frames(h, h);
    hide Frames, ThreadFrames, Send;
    ParkFrames(h, h, Sleeping, None);
    if h.deferred.Some? {
      var c := h.deferred.value;
      var h1 := Send(h, c, lines).0;
      SendFrames(h, c, lines);
      ParkFrames(h, h1, Sleeping, None);
      ParkFrames(h, h1, Retrying(c, RETRIES - 1), None);
    }
  }

  /** Trying to send once more, or giving up before or after. */
  lemma TryFrames(h: Host, c: Cmd, lines: Lines)
    ensures Frames(h, FinishMrqQueued(SetError(h, c, true), c.mrq))
    ensures var h1 := Send(h, c, lines).0;
      Frames(h, h1) && Frames(h, FinishMrqQueued(SetError(h1, c, true), c.mrq))
  {
    var h1 := Send(h, c, lines).0;
    hide Frames, FinishMrqQueued, SetError, Send;
    FailFrames(h, c);
    SendFrames(h, c, lines);
    FailFrames(h1, c);
    Then(h, h1, FinishMrqQueued(SetError(h1, c, true), c.mrq));
  }

  lemma RetryFrames(h: Host, present: bool, lines: Lines)
    requires h.thread.Retrying?
    ensures ThreadFrames(h, ThreadWakes(h, present, lines))
  {
    var Retrying(c, left) := h.thread;
    var awake := h.(thread := Sleeping);
    var h1 := Send(awake, c, lines).0;
    WokenFrames(awake);
    hide Frames, ThreadFrames, FinishMrqQueued, SetError, Send;
    TryFrames(awake, c, lines);
    ThenPark(h, Sleeping, awake);
    ThenPark(h, Sleeping, h1);
    if h.deferred == Some(c) {
      if !present || h.dead {
        ThenPark(h, Sleeping, FinishMrqQueued(SetError(awake, c, true), c.mrq));
      } else if Send(awake, c, lines).1 {
        TakenFrames(h, h1);
      } else if left == 0 {
        ThenPark(h, Sleeping, FinishMrqQueued(SetError(h1, c, true), c.mrq));
      } else {
        ReparkFrames(h, h1, Retrying(c, left - 1));
      }
    }
  }

  lemma TakenFrames(h: Host, h': Host)
    requires ThreadFrames(h, h')
    ensures ThreadFrames(h, h'.(deferred := None))
  {
  }

  lemma ReparkFrames(h: Host, h': Host, thread: Thread)
    requires ThreadFrames(h, h')
    ensures ThreadFrames(h, h'.(thread := thread))
  {
  }

  lemma CmdTimerFrames(h: Host)
    ensures Frames(h, TimeoutTimer(h))
  {
    WokenFrames(h);
    hide Frames, FinishMrqQueued, SetError, DataLine;
    if h.cmd.Some? { FailFrames(h, h.cmd.value); }
  }

  lemma TimedDataFrames(h: Host, lines: Lines)
    requires h.data.Some?
    ensures Frames(h, FinishData(SetDataError(h, h.data.value), true, lines).(workQueued := true))
  {
    var h1 := SetDataError(h, h.data.value);
    EndFrames(h, Cmd(h.data.value, Main), h.data.value);
    hide Frames, FinishData, SetDataError;
    FinishDataFrames(h1, true, lines);
    Then(h, h1, FinishData(h1, true, lines));
    QueueFrames(h, FinishData(h1, true, lines));
  }

  lemma DataTimerFrames(h: Host, lines: Lines)
    ensures Frames(h, TimeoutDataTimer(h, lines))
  {
    WokenFrames(h);
    hide Frames, FinishMrqQueued, SetError, FinishData, SetDataError, DataLine;
    if h.data.Some? {
      TimedDataFrames(h, lines);
    } else {
      if h.dataCmd.Some? { FailFrames(h, h.dataCmd.value); }
      if h.cmd.Some? { FailFrames(h, h.cmd.value); }
    }
  }

  lemma QueueFrames(h: Host, h': Host)
    requires Frames(h, h')
    ensures Frames(h, h'.(workQueued := true))
  {
  }

  lemma ResetFrames(h: Host)
    ensures Frames(h, ResetBoth(h)) && Frames(h, Recovered(h)) && Frames(h, h.(dead := true))
    ensures Frames(h, h)
  {
  }

  lemma DrainTailFrames(h: Host, i: nat, r: Request)
    ensures Frames(h, DrainTail(h, i, r).0)
    ensures DrainTail(h, i, r).0.deferred == h.deferred && DrainTail(h, i, r).0.woken == h.woken
    ensures DrainTail(h, i, r).1 ==> DrainTail(h, i, r).0 == h && (h.cmd.Some? || h.dataCmd.Some?)
  {
    var h1 := Recovered(h);
    ResetFrames(h);
    assert h1.deferred == h.deferred && h1.woken == h.woken;
    hide Frames, HandBack, NeedsReset, Recovered;
    HandBackFrames(h, i, r);
    HandBackFrames(h1, i, r);
    HandBackWakes(h, i, r);
    HandBackWakes(h1, i, r);
    Then(h, h1, HandBack(h1, i, r));
  }

  lemma BooksFrames(h: Host, r: Request, rec: Rec)
    ensures Frames(h, Store(h, r, rec)) && Store(h, r, rec).deferred == h.deferred && Store(h, r, rec).woken == h.woken
  {
  }

  lemma DrainFrames(h: Host, pc: Drainer)
    ensures Frames(h, RunDrainer(h, pc).0)
    ensures RunDrainer(h, pc).0.deferred == h.deferred && RunDrainer(h, pc).0.woken == h.woken
    ensures var (h1, pc') := RunDrainer(h, pc);
            pc'.Idle? ==> h1.cmd.Some? || h1.dataCmd.Some? || (h1.slot0.None? && h1.slot1.None?)
  {
    hide Frames, DrainTail, Store, Look;
    ResetFrames(h);
    if pc.InWindow? {
      var rec := Look(h, pc.mrq);
      var h1 := Store(h, pc.mrq, rec.(data := rec.data.(mapped := false)));
      BooksFrames(h, pc.mrq, rec.(data := rec.data.(mapped := false)));
      DrainTailFrames(h1, pc.slot, pc.mrq);
      Then(h, h1, DrainTail(h1, pc.slot, pc.mrq).0);
    } else if FirstDone(h).Some? {
      var i := FirstDone(h).value;
      var r := Slot(h, i).value;
      var rec := Look(h, r);
      BooksFrames(h, r, rec.(data := rec.data.(unmaps := rec.data.unmaps + 1)));
      DrainTailFrames(h, i, r);
    }
  }

  /** Steps never forget a request, never wait again for one handed back, and never move a
      drainer other than their own; a sleeping caller is left to its own turns, and the interrupt
      thread to its own steps. */
  predicate StepFrame(h: Host, s: Step, h': Host) {
    && h'.cfg == h.cfg && h.obj.Keys <= h'.obj.Keys
    && (forall q :: q in h.obj && q in h'.out ==> q in h.out)
    && (!s.WorkerStarts? && !s.WorkerStep? ==> h'.worker == h.worker)
    && (h.thread.Drain? && !s.ThreadDrains? ==> h'.thread == h.thread)
    && (h.thread.Retrying? && !s.ThreadStep? ==> h'.thread == h.thread)
    && (!s.Submits? && !s.CallerStep? ==> h'.caller == h.caller)
  }

  lemma FrameSubmits(h: Host, r: Request, h': Host, s: Step)
    requires r !in h.obj && (if s.Submits? then Accounts(Accept(h, r), h') else Frames(Accept(h, r), h'))
    ensures StepFrame(h, s, h')
  {
  }

  lemma FrameCaller(h: Host, h': Host, s: Step)
    requires Accounts(h, h') && s.CallerStep?
    ensures StepFrame(h, s, h')
  {
  }

  lemma FrameOf(h: Host, h0: Host, h': Host, s: Step)
    requires Frames(h0, h') && h0.cfg == h.cfg && h0.obj == h.obj && h0.out == h.out && h0.worker == h.worker
        && h0.thread == h.thread && h0.caller == h.caller
    ensures StepFrame(h, s, h')
  {
  }

  lemma FrameThread(h: Host, h': Host, s: Step)
    requires ThreadFrames(h, h') && !h.thread.Drain? && (h.thread.Retrying? ==> s.ThreadStep?)
    ensures StepFrame(h, s, h')
  {
  }

  lemma WorkerFrames(h: Host)
    ensures StepFrame(h, WorkerStep, WorkerRuns(h))
    ensures StepFrame(h, WorkerStarts, h.(workQueued := false, worker := Draining))
  {
    DrainFrames(h, h.worker);
    hide RunDrainer;
  }

  lemma ThreadRunsFrames(h: Host)
    ensures h.thread.Drain? ==> StepFrame(h, ThreadDrains, ThreadRuns(h))
    ensures h.thread.Sleeping? ==> StepFrame(h, ThreadStarts, h.(woken := false, thread := Drain(Draining)))
  {
    if h.thread.Drain? { DrainFrames(h, h.thread.pc); }
    hide RunDrainer;
  }

  lemma DriverFrames(h: Host, s: Step)
    requires Enabled(h, s)
    requires s.Submits? || s.SubmitsAtomic? || s.CallerStep? || s.Interrupt? || s.CardChanges? || s.Dies?
    ensures StepFrame(h, s, Apply(h, s))
  {
    ResetFrames(h);
    hide Accounts, Frames, StepFrame, Submit, SubmitAtomic, CallerWakes, Irq, ErrorOut, Accept, ResetBoth;
    FrameOf(h, h, h, s);
    match s
    case Submits(r, present, lines) =>
      SubmitFrames(h, r, present, lines);
      FrameSubmits(h, r, Submit(h, r, present, lines), s);
    case SubmitsAtomic(r, lines) =>
      SubmitFrames(h, r, true, lines);
      if Frames(h, SubmitAtomic(h, r, lines)) {
        FrameOf(h, h, SubmitAtomic(h, r, lines), s);
      } else {
        FrameSubmits(h, r, SubmitAtomic(h, r, lines), s);
      }
    case CallerStep(present, lines) =>
      CallerFrames(h, present, lines);
      FrameCaller(h, CallerWakes(h, present, lines), s);
    case Interrupt(rounds) =>
      IrqFrames(h, rounds);
      FrameOf(h, h, Irq(h, rounds), s);
    case CardChanges(present) =>
      ErrorOutFrames(ResetBoth(h));
      Then(h, ResetBoth(h), ErrorOut(ResetBoth(h)));
      FrameOf(h, h, ErrorOut(ResetBoth(h)), s);
    case Dies =>
      ErrorOutFrames(h.(dead := true));
      Then(h, h.(dead := true), ErrorOut(h.(dead := true)));
      FrameOf(h, h, Die(h), s);
  }

  lemma StepFrames(h: Host, s: Step)
    requires Enabled(h, s)
    ensures StepFrame(h, s, Apply(h, s))
  {
    hide Frames, StepFrame, TimeoutTimer, TimeoutDataTimer, ThreadDefers, ThreadWakes, ThreadFrames,
      WorkerRuns, ThreadRuns;
    match s
    case CmdTimeout(expired) =>
      var h0 := h.(timer := h.timer && !expired);
      CmdTimerFrames(h0);
      FrameOf(h, h0, TimeoutTimer(h0), s);
    case DataTimeout(expired, lines) =>
      var h0 := h.(dataTimer := h.dataTimer && !expired);
      DataTimerFrames(h0, lines);
      FrameOf(h, h0, TimeoutDataTimer(h0, lines), s);
    case WorkerStarts => WorkerFrames(h);
    case WorkerStep => WorkerFrames(h);
    case ThreadStarts => ThreadRunsFrames(h);
    case ThreadDrains => ThreadRunsFrames(h);
    case ThreadTakesDeferred(lines) =>
      DeferFramesThread(h, lines);
      FrameThread(h, ThreadDefers(h, lines), s);
    case ThreadStep(present, lines) =>
      RetryFrames(h, present, lines);
      FrameThread(h, ThreadWakes(h, present, lines), s);
    case _ =>
      DriverFrames(h, s);
  }
}
