/** Nothing the driver has accepted is left lying: timers watch what is on the bus, and a
    drainer or the interrupt thread is on its way to everything else. */
module RequestProgress {
  import opened Options
  import opened RequestModel
  import opened RequestInvariant
  import opened RequestFrames
  import opened RequestTheorems

  // ---------------------------------------------------------------- watchdogs

  /** The timer sdhci_mod_timer picks for a request is running. */
  predicate Armed(h: Host, r: Request) {
    if DataLine(Cmd(r, Main)) then h.dataTimer else h.timer
  }

  function Fire(r: Request, lines: Lines): Step {
    if DataLine(Cmd(r, Main)) then DataTimeout(true, lines) else CmdTimeout(true)
  }

  /** Finished, or as far as the STOP command. */
  predicate MovedOn(h: Host, r: Request) {
    Look(h, r).finishes == 1 || Look(h, r).stop.issued == 1 || h.deferred == Some(Cmd(r, Stop))
  }

  /** From the moment a main command is issued until its request is finished or reaches its
      STOP command, the timer chosen for it runs, whatever happens to the other outstanding
      request; and when it fires, the request moves on. */
  lemma Watchdog(cfg: Config, states: seq<Host>, steps: seq<Step>, i: nat, r: Request, lines: Lines)
    requires IsRun(cfg, states, steps) && i < |states| && r in states[i].obj
    requires states[i].obj[r].main.issued == 1 && !MovedOn(states[i], r)
    ensures Armed(states[i], r)
    ensures MovedOn(Apply(states[i], Fire(r, lines)), r)
  {
    RunKeeps(cfg, states, steps, i);
    Underway(states[i], r);
    hide IsRun, Apply, Inv, OnBus, TimeoutTimer, DataLine;
    assert !Blind(r, Look(states[i], r));
    if DataLine(Cmd(r, Main)) {
      DataTimerCovers(states[i], r, lines);
    } else {
      CmdTimerFinishes(states[i], r);
    }
  }

  lemma Underway(h: Host, r: Request)
    requires Inv(h) && r in h.obj && h.obj[r].main.issued == 1 && !MovedOn(h, r)
    ensures OnBus(h, r) && Armed(h, r) && h.obj[r].stop.issued == 0
  {
    assert ReqInv(h, r);
  }

  /** Finishing one of two outstanding requests leaves the other one's timer alone. */
  lemma FinishingSparesTimer(h: Host, r: Request, q: Request)
    requires Inv(h) && r in h.out && q in h.out && q != r
    ensures Armed(FinishMrq(h, r), q) == Armed(h, q)
  {
    assert Beside(h, q, r);
  }

  lemma CmdTimerFinds(h: Host, r: Request)
    requires Inv(h) && OnBus(h, r) && !DataLine(Cmd(r, Main))
    ensures h.cmd.Some? && h.cmd.value.mrq == r && !DataLine(h.cmd.value) && Look(h, r).finishes == 0
  {
    assert ReqInv(h, r);
    hide Base;
  }

  lemma CmdTimerFinishes(h: Host, r: Request)
    requires Inv(h) && OnBus(h, r) && !DataLine(Cmd(r, Main))
    ensures Look(Apply(h, CmdTimeout(true)), r).finishes == 1
  {
    CmdTimerFinds(h, r);
    CmdTimerApplies(h);
    hide *;
    CmdTimerActs(h, r);
  }

  lemma CmdTimerApplies(h: Host)
    ensures Apply(h, CmdTimeout(true)) == TimeoutTimer(h.(timer := false))
  {
    hide TimeoutTimer;
  }

  lemma CmdTimerActs(h: Host, r: Request)
    requires h.cmd.Some? && h.cmd.value.mrq == r && !DataLine(h.cmd.value) && Look(h, r).finishes == 0
    ensures Look(TimeoutTimer(h.(timer := false)), r).finishes == 1
  {
    QueuedFinish(h.(timer := false), h.cmd.value);
    hide FinishMrqQueued, SetError;
  }

  /** The phases in which the data timer finds nothing to act on. */
  predicate Blind(r: Request, rec: Rec) {
    rec.main.issued == 0 || (rec.stop.issued == 1 && !r.stopBusy)
  }

  /** The data timer acts on a request it watches exactly when that is neither in its CMD23
      phase nor waiting for the response of a STOP command without busy signalling. */
  lemma DataTimerCovers(h: Host, r: Request, lines: Lines)
    requires Inv(h) && OnBus(h, r) && DataLine(Cmd(r, Main))
    ensures var h' := Apply(h, DataTimeout(true, lines));
      if Blind(r, Look(h, r)) then Look(h', r) == Look(h, r) && OnBus(h', r)
      else Look(h', r).finishes == 1 || (Look(h, r).stop.issued == 0 && Look(h', r).stop.issued == 1)
  {
    DataTimerFinds(h, r);
    DataTimerApplies(h, lines);
    hide *;
    if Blind(r, Look(h, r)) {
      DataTimerIdles(h, r, lines);
    } else {
      DataTimerActs(h, r, lines);
    }
  }

  lemma DataTimerApplies(h: Host, lines: Lines)
    ensures Apply(h, DataTimeout(true, lines)) == TimeoutDataTimer(h.(dataTimer := false), lines)
  {
    hide TimeoutDataTimer;
  }

  lemma DataTimerIdles(h: Host, r: Request, lines: Lines)
    requires OnBus(h, r) && h.data.None? && h.dataCmd.None? && !DataLine(h.cmd.value)
    ensures var h' := TimeoutDataTimer(h.(dataTimer := false), lines);
      Look(h', r) == Look(h, r) && OnBus(h', r)
  {
  }

  lemma DataTimerActs(h: Host, r: Request, lines: Lines)
    requires h.data.Some? ==> h.data == Some(r) && Look(h, r).stop.issued == 0
    requires h.data.None? && h.dataCmd.Some? ==> h.dataCmd.value.mrq == r
    requires h.data.None? && h.dataCmd.None? ==> h.cmd.Some? && h.cmd.value.mrq == r && DataLine(h.cmd.value)
    requires Look(h, r).finishes == 0
    ensures var h' := TimeoutDataTimer(h.(dataTimer := false), lines);
      Look(h', r).finishes == 1 || (Look(h, r).stop.issued == 0 && Look(h', r).stop.issued == 1)
  {
    var h0 := h.(dataTimer := false);
    assert Look(h0, r) == Look(h, r);
    hide DataLine, FinishData, SetDataError, FinishMrqQueued, SetError;
    if h.data.Some? {
      DataErrorMoves(h0, r, lines);
    } else if h.dataCmd.Some? {
      QueuedFinish(h0, h.dataCmd.value);
    } else {
      QueuedFinish(h0, h.cmd.value);
    }
  }

  lemma QueuedFinish(h: Host, f: Cmd)
    ensures var rec := Look(FinishMrqQueued(SetError(h, f, true), f.mrq), f.mrq);
      rec.finishes == Look(h, f.mrq).finishes + 1
  {
  }

  lemma FinishCounts(h: Host, r: Request)
    ensures Look(FinishMrq(h, r), r).finishes == Look(h, r).finishes + 1
    ensures Look(FinishMrq(h, r), r).stop == Look(h, r).stop
  {
  }

  lemma IssueCounts(h: Host, r: Request)
    ensures var rec := Look(Issue(h, Cmd(r, Stop)), r);
      rec.finishes == Look(h, r).finishes && rec.stop.issued == Look(h, r).stop.issued + 1
  {
    hide Look;
    assert Look(Issue(h, Cmd(r, Stop)), r) == IssuedRec(h.cfg, Cmd(r, Stop), Look(h, r))
        by { IssueLook(h, Cmd(r, Stop)); }
  }

  lemma IssueLook(h: Host, c: Cmd)
    ensures Look(Issue(h, c), c.mrq) == IssuedRec(h.cfg, c, Look(h, c.mrq))
  {
    hide IssuedRec, DataLine, CarriesData;
  }

  lemma ClearCounts(h: Host, r: Request)
    ensures var rec := Look(SetError(h, Cmd(r, Stop), false).(warned := h.warned || h.cmd.Some?), r);
      rec.finishes == Look(h, r).finishes && rec.stop.issued == Look(h, r).stop.issued
  {
  }

  lemma SendCounts(h: Host, r: Request, lines: Lines)
    ensures var h' := Send(h, Cmd(r, Stop), lines);
      Look(h'.0, r).finishes == Look(h, r).finishes && Look(h'.0, r).stop.issued == Look(h, r).stop.issued + Bit(h'.1)
  {
    ClearCounts(h, r);
    hide Issue, SetError, Look, Refused;
    if !Refused(Cmd(r, Stop), lines) {
      IssueCounts(SetError(h, Cmd(r, Stop), false).(warned := h.warned || h.cmd.Some?), r);
    }
  }

  lemma FailCounts(h: Host, r: Request)
    ensures Look(FinishMrq(SetError(h, Cmd(r, Stop), true), r), r).finishes == Look(h, r).finishes + 1
  {
    FinishCounts(SetError(h, Cmd(r, Stop), true), r);
    hide FinishMrq;
  }

  lemma ReleaseCounts(h: Host)
    requires h.data.Some?
    ensures var r := h.data.value; Look(ReleaseData(h), r) == Look(h, r)
    ensures var r := h.data.value; Look(ReleaseData(h).(cmd := None), r) == Look(h, r)
  {
  }

  /** Whatever sdhci_timeout_data_timer leads to, its data request is finished or its STOP sent. */
  lemma TimedDataMoves(h: Host, r: Request, lines: Lines)
    requires h.data == Some(r)
    ensures var rec := Look(FinishData(h, true, lines), r);
      rec.finishes == Look(h, r).finishes + 1
      || (rec.finishes == Look(h, r).finishes && rec.stop.issued == Look(h, r).stop.issued + 1)
  {
    var h1 := ReleaseData(h);
    var h2 := h1.(cmd := None);
    ReleaseCounts(h);
    FinishCounts(h1, r);
    SendCounts(h2, r, lines);
    FailCounts(Send(h2, Cmd(r, Stop), lines).0, r);
    hide Send, FinishMrq, WantsStop, SetError, Look, ReleaseData;
  }

  lemma DataErrorMoves(h: Host, r: Request, lines: Lines)
    requires h.data == Some(r)
    ensures var rec := Look(FinishData(SetDataError(h, r), true, lines).(workQueued := true), r);
      rec.finishes == Look(h, r).finishes + 1
      || (rec.finishes == Look(h, r).finishes && rec.stop.issued == Look(h, r).stop.issued + 1)
  {
    var h0 := SetDataError(h, r);
    assert Look(h0, r).finishes == Look(h, r).finishes && Look(h0, r).stop == Look(h, r).stop;
    assert h0.data == Some(r);
    hide FinishData, SetDataError;
    TimedDataMoves(h0, r, lines);
  }

  /** What the callback of the data timer sees of a request it watches. */
  lemma DataTimerFinds(h: Host, r: Request)
    requires Inv(h) && OnBus(h, r) && DataLine(Cmd(r, Main))
    ensures h.data.Some? ==> h.data == Some(r)
    ensures h.data.None? && h.dataCmd.Some? ==> h.dataCmd.value.mrq == r
    ensures h.data.None? && h.dataCmd.None? ==> h.cmd.Some? && h.cmd.value.mrq == r
    ensures Look(h, r).finishes == 0
    ensures h.data == Some(r) ==> Look(h, r).stop.issued == 0
    ensures Blind(r, Look(h, r)) <==> h.data.None? && h.dataCmd.None? && !DataLine(h.cmd.value)
  {
    CmdKnown(h);
    assert Known(h, r);
    hide Inv, ReqInv;
    OneDataLine(h, r);
    BlindSees(h, r);
  }

  lemma BlindSees(h: Host, r: Request)
    requires ReqInv(h, r) && OnBus(h, r) && DataLine(Cmd(r, Main))
    requires (r.hasData && h.data == Some(r) && h.dataCmd == Some(Cmd(r, Main)))
         || ((h.data.None? || h.data == Some(r)) && (h.dataCmd.None? || Owns(h.dataCmd, r))
             && (h.cmd.None? || Owns(h.cmd, r)))
    ensures Look(h, r).finishes == 0
    ensures h.data == Some(r) ==> Look(h, r).stop.issued == 0
    ensures Blind(r, Look(h, r)) <==> h.data.None? && h.dataCmd.None? && !DataLine(h.cmd.value)
  {
    hide MapInv, ResetInv, Outcome, Unmapping, Asleep, Look;
  }

  lemma OneDataLine(h: Host, r: Request)
    requires Inv(h) && OnBus(h, r) && DataLine(Cmd(r, Main))
    ensures (r.hasData && h.data == Some(r) && h.dataCmd == Some(Cmd(r, Main)))
         || ((h.data.None? || h.data == Some(r)) && (h.dataCmd.None? || Owns(h.dataCmd, r))
             && (h.cmd.None? || Owns(h.cmd, r)))
  {
    CmdKnown(h);
    assert Known(h, r);
    hide Inv, ReqInv, DataLine;
    if r.cap && r.hasData && Look(h, r).cmdDone {
      CapHoldsData(h, r);
    } else {
      hide OnBus;
      Lonely(h, r);
      LonelyLines(h, r);
    }
  }

  lemma Lonely(h: Host, r: Request)
    requires Inv(h) && r in h.out && DataLine(Cmd(r, Main)) && !(r.cap && r.hasData && Look(h, r).cmdDone)
    ensures RefsInv(h) && forall q :: q in h.out ==> q == r
  {
    assert !CommandOnly(r) && !Overlaps(h, r);
    AllKnown(h);
    hide Inv, Known, RefsInv, ThreadsInv, ReqInv, CommandOnly, Overlaps;
    forall q | q in h.out ensures q == r {
      assert q != r ==> Beside(h, q, r);
    }
  }

  lemma LonelyLines(h: Host, r: Request)
    requires RefsInv(h) && forall q :: q in h.out ==> q == r
    ensures (h.data.None? || h.data == Some(r)) && (h.dataCmd.None? || Owns(h.dataCmd, r))
        && (h.cmd.None? || Owns(h.cmd, r))
  {
  }

  lemma CapHoldsData(h: Host, r: Request)
    requires ReqInv(h, r) && OnBus(h, r) && r.cap && r.hasData && Look(h, r).cmdDone
    ensures h.data == Some(r) && h.dataCmd == Some(Cmd(r, Main))
  {
    BusPlace(h, r);
    CapBooks(StandingOf(h), r, PlaceOf(h, r), Look(h, r));
    hide PlaceOf, Consistent, Look;
  }

  lemma BusPlace(h: Host, r: Request)
    requires OnBus(h, r)
    ensures var p := PlaceOf(h, r);
      && Busy(p) && p.data == (h.data == Some(r)) && (p.dataCmd == Some(Main) ==> h.dataCmd == Some(Cmd(r, Main)))
  {
    hide Unmapping, Asleep, DataLine;
  }

  lemma CapBooks(s: Standing, r: Request, p: Place, rec: Rec)
    requires Consistent(s, r, p, rec) && Busy(p) && r.cap && r.hasData && rec.cmdDone
    ensures p.data && p.dataCmd == Some(Main)
  {
    hide ResetWorthy;
  }

  // ---------------------------------------------------------------- no lost wake-up

  /** Somebody will look at what is done and at what is deferred. */
  predicate Awake(h: Host) {
    && (h.slot0.Some? || h.slot1.Some? ==>
          h.workQueued || !h.worker.Idle? || h.woken || h.thread.Drain? || h.cmd.Some? || h.dataCmd.Some?)
    && (h.deferred.Some? ==> h.woken || !h.thread.Sleeping?)
  }

  /** Nothing is running, queued, asleep or on the bus. */
  predicate Quiescent(h: Host) {
    && h.cmd.None? && h.dataCmd.None? && h.caller.None?
    && !h.workQueued && h.worker.Idle? && !h.woken && h.thread.Sleeping?
  }

  /** In every reachable state with requests in their slots somebody is on the way to hand them
      back, and the interrupt thread is on its way to every deferred command. */
  lemma {:induction false} NoLostWakeUp(cfg: Config, states: seq<Host>, steps: seq<Step>, i: nat)
    requires IsRun(cfg, states, steps) && i < |states|
    ensures Awake(states[i])
  {
    RunKeeps(cfg, states, steps, i);
    if i == 0 {
      BootAwake(cfg);
      hide Inv, Awake, Apply, Enabled, Boot;
    } else {
      hide Inv, Awake, Apply, Enabled, Boot;
      NoLostWakeUp(cfg, states, steps, i - 1);
      RunKeeps(cfg, states, steps, i - 1);
      AwakeKeeps(states[i - 1], steps[i - 1]);
    }
  }

  lemma BootAwake(cfg: Config)
    ensures Awake(Boot(cfg))
  {
  }

  /** When the driver has come to rest, every request it ever accepted has been handed back. */
  lemma NothingForgotten(cfg: Config, states: seq<Host>, steps: seq<Step>, i: nat, r: Request)
    requires IsRun(cfg, states, steps) && i < |states| && Quiescent(states[i])
    requires r in states[i].obj
    ensures states[i].obj[r].returned == 1 && r !in states[i].out
  {
    NoLostWakeUp(cfg, states, steps, i);
    Conservation(cfg, states, steps, i, r);
    Structure(cfg, states, steps, i);
  }

  /** The state `h'` owes the requests in its slots, and the deferred command, no less than `h`. */
  predicate Wakes(h: Host, h': Host) {
    && h'.worker == h.worker && h'.thread == h.thread
    && (h'.workQueued
        || (h'.slot0 == h.slot0 && h'.slot1 == h.slot1 && h'.workQueued == h.workQueued
            && ((h.cmd.Some? || h.dataCmd.Some?) ==> h'.cmd.Some? || h'.dataCmd.Some?)))
    && h'.woken == h.woken
    && (h'.deferred == h.deferred || h'.deferred.None?)
  }

  lemma WakesAwake(h: Host, h': Host)
    requires Awake(h) && Wakes(h, h')
    ensures Awake(h')
  {
  }

  lemma FailWakes(h: Host, f: Cmd)
    ensures Wakes(h, FinishMrqQueued(SetError(h, f, true), f.mrq))
  {
  }

  lemma SendWakes(h: Host, c: Cmd, lines: Lines)
    ensures Wakes(h, Send(h, c, lines).0)
  {
    var h1 := SetError(h, c, false).(warned := h.warned || h.cmd.Some?);
    ClearTells(h, c);
    IssueTells(h1, c);
    hide Wakes, Issue, SetError, Refused;
    WakesThen(h, h1, Issue(h1, c));
  }

  lemma ClearTells(h: Host, c: Cmd)
    ensures Wakes(h, SetError(h, c, false).(warned := h.warned || h.cmd.Some?))
  {
  }

  lemma IssueTells(h: Host, c: Cmd)
    ensures Wakes(h, Issue(h, c))
  {
    hide IssuedRec, DataLine, CarriesData;
  }

  lemma WakesThen(h: Host, h': Host, h'': Host)
    requires Wakes(h, h') && Wakes(h', h'')
    ensures Wakes(h, h'')
  {
  }

  lemma CallerTells(h: Host, caller: Option<Caller>)
    ensures Wakes(h, h.(caller := caller)) && Wakes(h, h)
  {
  }

  lemma AcceptWakes(h: Host, r: Request)
    ensures Wakes(h, Accept(h, r))
  {
  }

  lemma SubmitWakes(h: Host, r: Request, present: bool, lines: Lines)
    ensures Wakes(h, Submit(h, r, present, lines))
  {
    var h0 := Accept(h, r);
    var c := FirstCmd(h.cfg, r);
    var h1 := Send(h0, c, lines).0;
    hide Wakes, FinishMrqQueued, SetError, Send, FirstCmd, Accept;
    AcceptWakes(h, r);
    FailWakes(h0, Cmd(r, Main));
    SendWakes(h0, c, lines);
    CallerTells(h1, Some(Caller(c, RETRIES - 1)));
    WakesThen(h, h0, FinishMrqQueued(SetError(h0, Cmd(r, Main), true), r));
    WakesThen(h, h0, h1);
    WakesThen(h, h1, h1.(caller := Some(Caller(c, RETRIES - 1))));
  }

  lemma WarnTells(h: Host, warned: bool)
    ensures Wakes(h, h.(warned := warned))
  {
  }

  lemma AtomicWakes(h: Host, r: Request, lines: Lines)
    ensures Wakes(h, SubmitAtomic(h, r, lines))
  {
    var h0 := Accept(h, r);
    var c := FirstCmd(h.cfg, r);
    var h1 := Send(h0, c, lines).0;
    hide Wakes, FinishMrqQueued, SetError, Send, FirstCmd, Accept;
    AcceptWakes(h, r);
    FailWakes(h0, Cmd(r, Main));
    SendWakes(h0, c, lines);
    WarnTells(h, h1.warned);
    WakesThen(h, h0, FinishMrqQueued(SetError(h0, Cmd(r, Main), true), r));
    WakesThen(h, h0, h1);
  }

  lemma CallerWakesWakes(h: Host, present: bool, lines: Lines)
    requires h.caller.Some?
    ensures Wakes(h, CallerWakes(h, present, lines))
  {
    var Caller(c, left) := h.caller.value;
    var awake := h.(caller := None);
    var h1 := Send(awake, c, lines).0;
    CallerTells(h, None);
    FailWakes(awake, c);
    SendWakes(awake, c, lines);
    FailWakes(h1, c);
    hide Wakes, FinishMrqQueued, SetError, Send;
    WakesThen(h, awake, FinishMrqQueued(SetError(awake, c, true), c.mrq));
    WakesThen(h, awake, h1);
    WakesThen(h, h1, FinishMrqQueued(SetError(h1, c, true), c.mrq));
    if left > 0 {
      CallerTells(h1, Some(Caller(c, left - 1)));
      WakesThen(h, h1, h1.(caller := Some(Caller(c, left - 1))));
    }
  }

  lemma ErrorOutWakes(h: Host)
    ensures Wakes(h, ErrorOut(h))
  {
    CallerTells(h, None);
    if h.dataCmd.Some? { FailWakes(h, h.dataCmd.value); }
    var h1 := if h.dataCmd.Some?
      then FinishMrqQueued(SetError(h, h.dataCmd.value, true), h.dataCmd.value.mrq)
      else h;
    if h1.cmd.Some? { FailWakes(h1, h1.cmd.value); }
    hide Wakes, FinishMrqQueued, SetError;
    if h1.cmd.Some? { WakesThen(h, h1, ErrorOut(h)); }
  }

  lemma RemovalWakes(h: Host, present: bool)
    ensures Wakes(h, CardEvent(h, present)) && Wakes(h, Die(h))
  {
    CallerTells(h, None);
    assert Wakes(h, ResetBoth(h)) && Wakes(h, h.(dead := true));
    hide Wakes, ErrorOut, ResetBoth;
    ErrorOutWakes(ResetBoth(h));
    WakesThen(h, ResetBoth(h), ErrorOut(ResetBoth(h)));
    ErrorOutWakes(h.(dead := true));
    WakesThen(h, h.(dead := true), ErrorOut(h.(dead := true)));
  }

  lemma TimeoutWakes(h: Host, armed: bool)
    ensures Wakes(h, TimeoutTimer(h.(timer := armed)))
  {
    assert Wakes(h, h.(timer := armed));
    hide Wakes, FinishMrqQueued, SetError;
    if h.cmd.Some? {
      FailWakes(h.(timer := armed), h.cmd.value);
      WakesThen(h, h.(timer := armed),
          FinishMrqQueued(SetError(h.(timer := armed), h.cmd.value, true), h.cmd.value.mrq));
    }
  }

  lemma TimedDataWakes(h: Host, lines: Lines)
    requires h.data.Some?
    ensures Wakes(h, FinishData(SetDataError(h, h.data.value), true, lines).(workQueued := true))
  {
    var r := h.data.value;
    EndFrames(h, Cmd(r, Main), r);
    hide FinishData, SetDataError;
    FinishDataFrames(SetDataError(h, r), true, lines);
    FinishDataTells(SetDataError(h, r), lines);
  }

  lemma DataTimerWakes(h: Host, lines: Lines)
    ensures Wakes(h, TimeoutDataTimer(h, lines))
  {
    CallerTells(h, None);
    hide Wakes, FinishMrqQueued, SetError, FinishData, SetDataError, DataLine;
    if h.data.Some? {
      TimedDataWakes(h, lines);
    } else {
      if h.dataCmd.Some? { FailWakes(h, h.dataCmd.value); }
      if h.cmd.Some? { FailWakes(h, h.cmd.value); }
    }
  }

  lemma DataTimeoutWakes(h: Host, armed: bool, lines: Lines)
    ensures Wakes(h, TimeoutDataTimer(h.(dataTimer := armed), lines))
  {
    var h0 := h.(dataTimer := armed);
    assert Wakes(h, h0);
    hide Wakes, TimeoutDataTimer;
    DataTimerWakes(h0, lines);
    WakesThen(h, h0, TimeoutDataTimer(h0, lines));
  }

  lemma FinishDataTells(h: Host, lines: Lines)
    requires h.data.Some?
    ensures FinishData(h, true, lines).woken == h.woken
  {
    var r := h.data.value;
    var h1 := ReleaseData(h);
    var h2 := h1.(cmd := None);
    assert h1.woken == h.woken && h2.woken == h.woken;
    FinishFrames(h1, r);
    SendWakes(h2, Cmd(r, Stop), lines);
    var h3 := Send(h2, Cmd(r, Stop), lines).0;
    assert SetError(h3, Cmd(r, Stop), true).woken == h3.woken;
    FinishFrames(SetError(h3, Cmd(r, Stop), true), r);
    hide FinishMrq, SetError, Send, ReleaseData, WantsStop;
  }

  /** A state that owes no more than `h`, with the thread parked where it looks again. */
  lemma ParkedAwake(h: Host, h1: Host, thread: Thread)
    requires Awake(h) && Wakes(h, h1) && h.thread.Deferring? && !thread.Sleeping? && !thread.Drain?
    ensures Awake(h1.(thread := thread))
  {
  }

  lemma SentSleepsAwake(h: Host)
    requires h.cmd.Some?
    ensures Awake(h.(deferred := None, thread := Sleeping))
  {
  }

  lemma IdleSleepsAwake(h: Host)
    requires Awake(h) && h.thread.Deferring? && h.deferred.None?
    ensures Awake(h.(thread := Sleeping))
  {
  }

  lemma ThreadDefersAwake(h: Host, lines: Lines)
    requires Awake(h) && h.thread.Deferring?
    ensures Awake(ThreadDefers(h, lines))
  {
    hide Awake, Wakes, Send;
    if h.deferred.None? {
      IdleSleepsAwake(h);
    } else {
      var c := h.deferred.value;
      var h1 := Send(h, c, lines).0;
      SendWakes(h, c, lines);
      SendFrames(h, c, lines);
      ParkedAwake(h, h1, Retrying(c, RETRIES - 1));
      if Send(h, c, lines).1 { SentSleepsAwake(h1); }
    }
  }

  lemma ThreadWakesAwake(h: Host, present: bool, lines: Lines)
    requires Awake(h) && h.thread.Retrying? && h.deferred == Some(h.thread.cmd)
    ensures Awake(ThreadWakes(h, present, lines))
  {
    var Retrying(c, left) := h.thread;
    var awake := h.(thread := Sleeping);
    var h1 := Send(awake, c, lines).0;
    SendWakes(awake, c, lines);
    SendFrames(awake, c, lines);
    hide Send, FinishMrqQueued, SetError, Wakes, Awake;
    GivenUpAwake(awake, c);
    GivenUpAwake(h1, c);
    if Send(awake, c, lines).1 { SentAwake(h1); } else if left > 0 { StillRetrying(h, h1, Retrying(c, left - 1)); }
  }

  lemma SentAwake(h: Host)
    requires h.cmd.Some?
    ensures Awake(h.(deferred := None))
  {
  }

  lemma StillRetrying(h: Host, h1: Host, thread: Thread)
    requires Awake(h) && Wakes(h.(thread := Sleeping), h1) && h.thread.Retrying? && thread.Retrying?
    ensures Awake(h1.(thread := thread))
  {
  }

  lemma GivenUpAwake(h: Host, c: Cmd)
    requires h.deferred == Some(c)
    ensures Awake(FinishMrqQueued(SetError(h, c, true), c.mrq))
  {
  }

  lemma AwakeKeeps(h: Host, s: Step)
    requires Inv(h) && Enabled(h, s) && Awake(h)
    ensures Awake(Apply(h, s))
  {
    hide Inv, Wakes, Irq, TimeoutTimer, TimeoutDataTimer, Submit, SubmitAtomic, CallerWakes, CardEvent, Die,
      ThreadDefers, ThreadWakes, RunDrainer;
    match s
    case Submits(r, present, lines) =>
      SubmitWakes(h, r, present, lines);
      WakesAwake(h, Submit(h, r, present, lines));
    case SubmitsAtomic(r, lines) =>
      AtomicWakes(h, r, lines);
      WakesAwake(h, SubmitAtomic(h, r, lines));
    case CallerStep(present, lines) =>
      CallerWakesWakes(h, present, lines);
      WakesAwake(h, CallerWakes(h, present, lines));
    case CmdTimeout(expired) =>
      TimeoutWakes(h, h.timer && !expired);
      WakesAwake(h, TimeoutTimer(h.(timer := h.timer && !expired)));
    case DataTimeout(expired, lines) =>
      DataTimeoutWakes(h, h.dataTimer && !expired, lines);
      WakesAwake(h, TimeoutDataTimer(h.(dataTimer := h.dataTimer && !expired), lines));
    case CardChanges(present) =>
      RemovalWakes(h, present);
      WakesAwake(h, CardEvent(h, present));
    case Dies =>
      RemovalWakes(h, false);
      WakesAwake(h, Die(h));
    case Interrupt(rounds) =>
      IrqAwake(h, rounds);
    case WorkerStep =>
      DrainFrames(h, h.worker);
      DrainFlags(h, h.worker);
    case ThreadDrains =>
      DrainFrames(h, h.thread.pc);
      DrainFlags(h, h.thread.pc);
    case ThreadTakesDeferred(lines) =>
      ThreadDefersAwake(h, lines);
    case ThreadStep(present, lines) =>
      assert h.deferred == Some(h.thread.cmd) by { StructureOf(h); }
      ThreadWakesAwake(h, present, lines);
    case _ =>
  }

  lemma StructureOf(h: Host)
    requires Inv(h)
    ensures h.thread.Retrying? ==> h.deferred == Some(h.thread.cmd)
  {
  }

  lemma IrqAwake(h: Host, rounds: seq<Round>)
    requires Awake(h)
    ensures Awake(Irq(h, rounds))
  {
    IrqFrames(h, rounds);
    IrqWakes(h, rounds);
    assert rounds == [] ==> Irq(h, rounds) == if h.deferred.Some? then h.(woken := true) else h;
    hide Irq;
  }

  lemma HandBackFlags(h: Host, i: nat, r: Request)
    ensures HandBack(h, i, r).workQueued == h.workQueued
    ensures HandBack(Recovered(h), i, r).workQueued == h.workQueued
  {
  }

  lemma DrainTailFlags(h: Host, i: nat, r: Request)
    ensures DrainTail(h, i, r).0.workQueued == h.workQueued
  {
    HandBackFlags(h, i, r);
    hide HandBack, Recovered, NeedsReset;
  }

  lemma DrainFlags(h: Host, pc: Drainer)
    ensures RunDrainer(h, pc).0.workQueued == h.workQueued
  {
    if pc.InWindow? {
      var rec := Look(h, pc.mrq);
      DrainTailFlags(Store(h, pc.mrq, rec.(data := rec.data.(mapped := false))), pc.slot, pc.mrq);
    } else if FirstDone(h).Some? {
      DrainTailFlags(h, FirstDone(h).value, Slot(h, FirstDone(h).value).value);
    }
    hide DrainTail, Look;
  }
}
