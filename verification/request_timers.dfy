/** A timer never outlives the requests it watches. */
module RequestTimers {
  import opened Options
  import opened RequestModel
  import opened RequestInvariant

  /** An accepted request that is not finished yet. */
  predicate Live(h: Host, r: Request) {
    r in h.out && r in h.obj && h.obj[r].finishes == 0
  }

  ghost predicate Awaited(h: Host, viaData: bool) {
    exists r :: Live(h, r) && DataLine(Cmd(r, Main)) == viaData
  }

  /** A running timer watches for some unfinished request of its kind. */
  ghost predicate TimersOwned(h: Host) {
    && (h.timer ==> Awaited(h, false))
    && (h.dataTimer ==> Awaited(h, true))
  }

  /** No timer is armed and no request finished or given back on the way from `h` to `h'`. */
  predicate Calm(h: Host, h': Host) {
    && h.out <= h'.out && (h'.timer ==> h.timer) && (h'.dataTimer ==> h.dataTimer)
    && forall q :: q in h.obj && q in h.out ==> q in h'.obj && h'.obj[q].finishes == h.obj[q].finishes
  }

  lemma CalmOwned(h: Host, h': Host)
    requires Calm(h, h')
    ensures TimersOwned(h) ==> TimersOwned(h')
    ensures forall r :: Live(h, r) ==> Live(h', r)
  {
    if TimersOwned(h) && h'.timer {
      var r :| Live(h, r) && DataLine(Cmd(r, Main)) == false;
      assert Live(h', r);
    }
    if TimersOwned(h) && h'.dataTimer {
      var r :| Live(h, r) && DataLine(Cmd(r, Main)) == true;
      assert Live(h', r);
    }
  }

  /** Finishing a request stops its timer; the other timer watches for somebody else. */
  lemma FinishOwned(h: Host, r: Request)
    requires TimersOwned(h)
    ensures TimersOwned(FinishMrq(h, r)) && TimersOwned(FinishMrqQueued(h, r))
  {
    FinishLeaves(h, r);
    QueueCalm(FinishMrq(h, r));
    hide FinishMrq;
    CalmOwned(FinishMrq(h, r), FinishMrqQueued(h, r));
  }

  lemma QueueCalm(h: Host)
    ensures Calm(h, h.(workQueued := true))
  {
  }

  lemma FinishLeaves(h: Host, r: Request)
    requires TimersOwned(h)
    ensures TimersOwned(FinishMrq(h, r))
  {
    var h' := FinishMrq(h, r);
    if h'.timer {
      var q :| Live(h, q) && DataLine(Cmd(q, Main)) == false;
      assert Live(h', q);
    }
    if h'.dataTimer {
      var q :| Live(h, q) && DataLine(Cmd(q, Main)) == true;
      assert Live(h', q);
    }
  }

  lemma ErrorCalm(h: Host, c: Cmd, error: bool)
    ensures Calm(h, SetError(h, c, error)) && Calm(h, SetDataError(h, c.mrq))
  {
  }

  lemma FailOwned(h: Host, c: Cmd)
    requires TimersOwned(h)
    ensures TimersOwned(FinishMrq(SetError(h, c, true), c.mrq))
        && TimersOwned(FinishMrqQueued(SetError(h, c, true), c.mrq))
  {
    ErrorCalm(h, c, true);
    CalmOwned(h, SetError(h, c, true));
    FinishOwned(SetError(h, c, true), c.mrq);
  }

  lemma IssueOwned(h: Host, c: Cmd)
    requires TimersOwned(h) && Live(h, c.mrq)
    ensures TimersOwned(Issue(h, c)) && Live(Issue(h, c), c.mrq)
  {
    var h' := Issue(h, c);
    assert Live(h', c.mrq);
    if h'.timer && DataLine(Cmd(c.mrq, Main)) {
      var q :| Live(h, q) && DataLine(Cmd(q, Main)) == false;
      assert Live(h', q);
    }
    if h'.dataTimer && !DataLine(Cmd(c.mrq, Main)) {
      var q :| Live(h, q) && DataLine(Cmd(q, Main)) == true;
      assert Live(h', q);
    }
  }

  lemma ClearCalm(h: Host, c: Cmd)
    ensures Calm(h, SetError(h, c, false).(warned := h.warned || h.cmd.Some?))
  {
  }

  lemma SendOwned(h: Host, c: Cmd, lines: Lines)
    requires TimersOwned(h) && Live(h, c.mrq)
    ensures TimersOwned(Send(h, c, lines).0) && Live(Send(h, c, lines).0, c.mrq)
  {
    var h1 := SetError(h, c, false).(warned := h.warned || h.cmd.Some?);
    ClearCalm(h, c);
    CalmOwned(h, h1);
    IssueOwned(h1, c);
    hide TimersOwned, Live, Issue, SetError, Refused;
  }

  lemma ReleaseCalm(h: Host)
    requires h.data.Some?
    ensures Calm(h, ReleaseData(h)) && Calm(h, ReleaseData(h).(cmd := None))
  {
  }

  lemma DeferCalm(h: Host, c: Cmd)
    ensures Calm(h, Defer(h, c))
  {
  }

  lemma FinishDataOwned(h: Host, swTimeout: bool, lines: Lines)
    requires TimersOwned(h) && h.data.Some? && Live(h, h.data.value)
    ensures TimersOwned(FinishData(h, swTimeout, lines))
  {
    var r := h.data.value;
    var h1 := ReleaseData(h);
    var h2 := h1.(cmd := None);
    var h3 := Send(h2, Cmd(r, Stop), lines).0;
    ReleaseCalm(h);
    hide TimersOwned, Calm, Live, FinishMrq, Send, SetError, ReleaseData, WantsStop, Defer;
    CalmOwned(h, h1);
    CalmOwned(h, h2);
    FinishOwned(h1, r);
    SendOwned(h2, Cmd(r, Stop), lines);
    FailOwned(h3, Cmd(r, Stop));
    DeferCalm(h3, Cmd(r, Stop));
    CalmOwned(h3, Defer(h3, Cmd(r, Stop)));
  }

  lemma RespondCalm(h: Host)
    requires h.cmd.Some?
    ensures Calm(h, Respond(h)) && Respond(h).data == h.data
  {
  }

  lemma FinishCommandOwned(h: Host, lines: Lines)
    requires TimersOwned(h) && h.cmd.Some? && Live(h, h.cmd.value.mrq)
    requires h.data.Some? ==> Live(h, h.data.value)
    ensures TimersOwned(FinishCommand(h, lines))
  {
    var c := h.cmd.value;
    var h1 := Respond(h);
    RespondCalm(h);
    hide TimersOwned, Calm, Live, FinishMrq, Send, Respond, FinishData, Defer, RspBusy, CarriesData;
    CalmOwned(h, h1);
    if c.role == Sbc {
      var h2 := Send(h1, Cmd(c.mrq, Main), lines).0;
      SendOwned(h1, Cmd(c.mrq, Main), lines);
      DeferCalm(h2, Cmd(c.mrq, Main));
      CalmOwned(h2, Defer(h2, Cmd(c.mrq, Main)));
    } else {
      FinishOwned(h1, c.mrq);
      if h1.data.Some? && h1.dataEarly {
        FinishDataOwned(h1, false, lines);
        FinishOwned(FinishData(h1, false, lines), c.mrq);
      }
    }
  }

  /** Whatever the bus or the interrupt thread holds is not finished yet. */
  lemma Unfinished(h: Host, r: Request)
    requires Known(h, r) && (OnBus(h, r) || Owns(h.deferred, r) || Asleep(h, r))
    ensures Live(h, r)
  {
    hide MapInv, ResetInv, Outcome, Unmapping, InMain, InStop, InSbc, Deferrable, Ready, DataLine;
  }

  lemma HeldLive(h: Host)
    requires Inv(h)
    ensures h.cmd.Some? ==> Live(h, h.cmd.value.mrq)
    ensures h.data.Some? ==> Live(h, h.data.value)
    ensures h.deferred.Some? ==> Live(h, h.deferred.value.mrq)
    ensures h.caller.Some? ==> Live(h, h.caller.value.cmd.mrq)
  {
    CmdKnown(h);
    WaitingKnown(h);
    hide Inv, Known, Live;
    if h.cmd.Some? { Unfinished(h, h.cmd.value.mrq); }
    if h.data.Some? { Unfinished(h, h.data.value); }
    if h.deferred.Some? { Unfinished(h, h.deferred.value.mrq); }
    if h.caller.Some? { Unfinished(h, h.caller.value.cmd.mrq); }
  }

  lemma CmdIrqOwned(h: Host, m: Mask, lines: Lines)
    requires Inv(h) && TimersOwned(h)
    ensures TimersOwned(CmdIrq(h, m, lines).0)
  {
    HeldLive(h);
    hide Inv, TimersOwned, Live, FinishMrq, SetError, FinishCommand, CarriesData, Calm;
    if h.cmd.Some? {
      var c := h.cmd.value;
      FailOwned(h, c);
      FailOwned(h, Cmd(c.mrq, Sbc));
      FinishCommandOwned(h, lines);
      CrcCalm(h, c);
      CalmOwned(h, SetError(h, c, true).(cmd := None));
    }
  }

  lemma Recorded(h: Host, h': Host, r: Request, rec: Rec)
    requires h'.obj == h.obj[r := rec] && rec.finishes == Look(h, r).finishes
    requires h'.out == h.out && h'.timer == h.timer && h'.dataTimer == h.dataTimer
    ensures Calm(h, h')
  {
  }

  lemma SameFinishes(rec: Rec, role: Role, c: CmdRec)
    ensures WithCmd(rec, role, c).finishes == rec.finishes
  {
  }

  lemma CrcCalm(h: Host, c: Cmd)
    ensures Calm(h, SetError(h, c, true).(cmd := None))
  {
    var rec := Look(h, c.mrq);
    var rec' := WithCmd(rec, c.role, CmdOf(rec, c.role).(error := true));
    SameFinishes(rec, c.role, CmdOf(rec, c.role).(error := true));
    hide WithCmd, CmdOf, Look, Calm;
    Recorded(h, SetError(h, c, true).(cmd := None), c.mrq, rec');
  }

  lemma BusyCalm(h: Host, c: Cmd)
    ensures Calm(h, h.(dataCmd := None)) && Calm(h, EndBusy(h, c))
  {
    assert Calm(h, h.(dataCmd := None));
    var rec := Look(h, c.mrq);
    var prev := CmdOf(rec, c.role);
    SameFinishes(rec, c.role, prev.(busyEnded := prev.busyEnded + 1));
    hide WithCmd, CmdOf, Look, Calm;
    Recorded(h, EndBusy(h, c), c.mrq, WithCmd(rec, c.role, prev.(busyEnded := prev.busyEnded + 1)));
  }

  lemma EndCalm(h: Host, r: Request)
    ensures Calm(h, EndData(h, r)) && Calm(h, EndData(h, r).(dataEarly := true)) && Calm(h, SetDataError(h, r))
    ensures EndData(h, r).data == h.data && SetDataError(h, r).data == h.data
  {
    var rec := Look(h, r);
    hide Look, Calm;
    Recorded(h, EndData(h, r), r, rec.(data := rec.data.(ended := rec.data.ended + 1)));
    Recorded(h, EndData(h, r).(dataEarly := true), r, rec.(data := rec.data.(ended := rec.data.ended + 1)));
    Recorded(h, SetDataError(h, r), r, rec.(data := rec.data.(error := true)));
  }

  lemma BusyIrqOwned(h: Host, m: Mask)
    requires TimersOwned(h)
    ensures TimersOwned(BusyIrq(h, m))
  {
    if h.dataCmd.Some? {
      var c := h.dataCmd.value;
      BusyCalm(h, c);
      hide TimersOwned, FinishMrq, SetError, EndBusy, Calm, RspBusy;
      CalmOwned(h, h.(dataCmd := None));
      FailOwned(h.(dataCmd := None), c);
      CalmOwned(h, EndBusy(h, c));
      FinishOwned(EndBusy(h, c), c.mrq);
    }
  }

  lemma DataIrqOwned(h: Host, m: Mask, lines: Lines)
    requires Inv(h) && TimersOwned(h)
    ensures TimersOwned(DataIrq(h, m, lines))
  {
    HeldLive(h);
    BusyIrqOwned(h, m);
    if h.data.Some? {
      var r := h.data.value;
      EndCalm(h, r);
      hide Inv, TimersOwned, Live, FinishData, SetDataError, EndData, BusyIrq, Calm, Look;
      CalmOwned(h, SetDataError(h, r));
      CalmOwned(h, EndData(h, r));
      CalmOwned(h, EndData(h, r).(dataEarly := true));
      FinishDataOwned(h, false, lines);
      FinishDataOwned(SetDataError(h, r), false, lines);
      FinishDataOwned(EndData(h, r), false, lines);
    }
  }

  lemma {:induction false} IrqRoundsOwned(h: Host, rounds: seq<Round>)
    requires Inv(h) && TimersOwned(h)
    ensures TimersOwned(IrqRounds(h, rounds))
    decreases |rounds|
  {
    if rounds != [] {
      var n := |rounds| - 1;
      var h0 := IrqRounds(h, rounds[..n]);
      var round := rounds[n];
      hide Inv, TimersOwned, CmdIrq, DataIrq, CmdBits, DataBits;
      IrqRoundsOwned(h, rounds[..n]);
      IrqRoundsKeep(h, rounds[..n]);
      CmdIrqOwned(h0, round.mask, round.cmdLines);
      CmdIrqKeeps(h0, round.mask, round.cmdLines);
      var (h1, m) := if CmdBits(round.mask) then CmdIrq(h0, round.mask, round.cmdLines) else (h0, round.mask);
      DataIrqOwned(h1, m, round.dataLines);
    }
  }

  /** A request that goes back has been finished, so no timer was watching for it. */
  lemma HandBackOwned(h: Host, i: nat, r: Request)
    requires TimersOwned(h) && Look(h, r).finishes > 0
    ensures TimersOwned(HandBack(h, i, r))
  {
    var h' := HandBack(h, i, r);
    if h'.timer {
      var q :| Live(h, q) && DataLine(Cmd(q, Main)) == false;
      assert Live(h', q);
    }
    if h'.dataTimer {
      var q :| Live(h, q) && DataLine(Cmd(q, Main)) == true;
      assert Live(h', q);
    }
  }

  lemma SlotDone(h: Host, i: nat)
    requires Inv(h) && Slot(h, i).Some?
    ensures Look(h, Slot(h, i).value).finishes > 0
  {
    SlotKnown(h, i);
    hide Inv;
    SlotPlace(h, if i == 0 then 0 else 1, Slot(h, i).value);
  }

  lemma ScanOwned(h: Host, i: nat)
    requires Inv(h) && TimersOwned(h)
    ensures TimersOwned(Scan(h, i))
  {
    WokenCalm(h);
    CalmOwned(h, h.(woken := true));
    if Slot(h, i).Some? {
      SlotDone(h, i);
      HandBackOwned(h, i, Slot(h, i).value);
    }
    hide Inv, TimersOwned, HandBack, DeferDone;
  }

  lemma WokenCalm(h: Host)
    ensures Calm(h, h.(woken := true)) && Calm(h, h.(workQueued := true)) && Calm(h, h)
  {
  }

  lemma IrqOwned(h: Host, rounds: seq<Round>)
    requires Inv(h) && TimersOwned(h)
    ensures TimersOwned(Irq(h, rounds))
  {
    var h1 := IrqRounds(h, rounds);
    var h2 := Scan(h1, 0);
    var h3 := Scan(h2, 1);
    hide Inv, TimersOwned, IrqRounds, Scan, Calm;
    IrqRoundsOwned(h, rounds);
    IrqRoundsKeep(h, rounds);
    ScanOwned(h1, 0);
    ScanKeeps(h1, 0);
    ScanOwned(h2, 1);
    var h4 := if rounds == [] then h else h3;
    WokenCalm(h4);
    CalmOwned(h4, h4.(woken := true));
  }

  // ---------------------------------------------------------------- timers, removal, submission

  lemma ExpiryCalm(h: Host, timer: bool, dataTimer: bool)
    requires (timer ==> h.timer) && (dataTimer ==> h.dataTimer)
    ensures Calm(h, h.(timer := timer)) && Calm(h, h.(dataTimer := dataTimer))
  {
  }

  lemma TimeoutOwned(h: Host, timer: bool)
    requires TimersOwned(h) && (timer ==> h.timer)
    ensures TimersOwned(TimeoutTimer(h.(timer := timer)))
  {
    ExpiryCalm(h, timer, h.dataTimer);
    CalmOwned(h, h.(timer := timer));
    hide TimersOwned, Calm, FinishMrqQueued, SetError;
    if h.cmd.Some? { FailOwned(h.(timer := timer), h.cmd.value); }
  }

  lemma TimedDataOwned(h: Host, lines: Lines)
    requires TimersOwned(h) && h.data.Some? && Live(h, h.data.value)
    ensures TimersOwned(FinishData(SetDataError(h, h.data.value), true, lines).(workQueued := true))
  {
    EndCalm(h, h.data.value);
    hide TimersOwned, Calm, FinishData, SetDataError, Live;
    var h1 := SetDataError(h, h.data.value);
    CalmOwned(h, h1);
    FinishDataOwned(h1, true, lines);
    QueueCalm(FinishData(h1, true, lines));
    CalmOwned(FinishData(h1, true, lines), FinishData(h1, true, lines).(workQueued := true));
  }

  lemma DataTimerOwned(h: Host, lines: Lines)
    requires TimersOwned(h) && (h.data.Some? ==> Live(h, h.data.value))
    ensures TimersOwned(TimeoutDataTimer(h, lines))
  {
    hide TimersOwned, FinishMrqQueued, SetError, FinishData, SetDataError, Live, DataLine;
    if h.data.Some? {
      TimedDataOwned(h, lines);
    } else {
      if h.dataCmd.Some? { FailOwned(h, h.dataCmd.value); }
      if h.cmd.Some? { FailOwned(h, h.cmd.value); }
    }
  }

  lemma DataTimeoutOwned(h: Host, dataTimer: bool, lines: Lines)
    requires Inv(h) && TimersOwned(h) && (dataTimer ==> h.dataTimer)
    ensures TimersOwned(TimeoutDataTimer(h.(dataTimer := dataTimer), lines))
  {
    var h0 := h.(dataTimer := dataTimer);
    ExpiryCalm(h, h.timer, dataTimer);
    hide Inv, TimersOwned, Calm, TimeoutDataTimer, Live;
    HeldLive(h);
    CalmOwned(h, h0);
    DataTimerOwned(h0, lines);
  }

  lemma ErrorOutOwned(h: Host)
    requires TimersOwned(h)
    ensures TimersOwned(ErrorOut(h))
  {
    hide TimersOwned, FinishMrqQueued, SetError;
    if h.dataCmd.Some? { FailOwned(h, h.dataCmd.value); }
    var h1 := if h.dataCmd.Some?
      then FinishMrqQueued(SetError(h, h.dataCmd.value, true), h.dataCmd.value.mrq)
      else h;
    if h1.cmd.Some? { FailOwned(h1, h1.cmd.value); }
  }

  lemma RemovalCalm(h: Host)
    ensures Calm(h, ResetBoth(h)) && Calm(h, h.(dead := true)) && Calm(h, Recovered(h))
  {
  }

  lemma RemovalOwned(h: Host, present: bool)
    requires TimersOwned(h)
    ensures TimersOwned(CardEvent(h, present)) && TimersOwned(Die(h))
  {
    RemovalCalm(h);
    hide TimersOwned, Calm, ErrorOut, ResetBoth;
    CalmOwned(h, ResetBoth(h));
    ErrorOutOwned(ResetBoth(h));
    CalmOwned(h, h.(dead := true));
    ErrorOutOwned(h.(dead := true));
  }

  lemma AcceptCalm(h: Host, r: Request)
    requires r !in h.obj
    ensures Calm(h, Accept(h, r)) && Live(Accept(h, r), r)
  {
  }

  lemma SidesCalm(h: Host, caller: Option<Caller>, thread: Thread, warned: bool)
    ensures Calm(h, h.(caller := caller)) && Calm(h, h.(thread := thread)) && Calm(h, h.(warned := warned))
    ensures Calm(h, h.(deferred := None)) && Calm(h, h.(deferred := None, thread := thread))
  {
  }

  lemma SubmitOwned(h: Host, r: Request, present: bool, lines: Lines)
    requires TimersOwned(h) && r !in h.obj
    ensures TimersOwned(Submit(h, r, present, lines)) && TimersOwned(SubmitAtomic(h, r, lines))
  {
    var h0 := Accept(h, r);
    var c := FirstCmd(h.cfg, r);
    var h1 := Send(h0, c, lines).0;
    var caller := Some(Caller(c, RETRIES - 1));
    assert c.mrq == r;
    AcceptCalm(h, r);
    SidesCalm(h1, caller, h.thread, h1.warned);
    SidesCalm(h, caller, h.thread, h1.warned);
    hide TimersOwned, Calm, Live, FinishMrqQueued, SetError, Send, FirstCmd, Accept;
    CalmOwned(h, h0);
    FailOwned(h0, Cmd(r, Main));
    SendOwned(h0, c, lines);
    CalmOwned(h1, h1.(caller := caller));
    CalmOwned(h, h.(warned := h1.warned));
  }

  /** Trying to send once more, or giving up before or after. */
  lemma TryOwned(h: Host, c: Cmd, lines: Lines)
    requires TimersOwned(h) && Live(h, c.mrq)
    ensures TimersOwned(FinishMrqQueued(SetError(h, c, true), c.mrq))
    ensures var h1 := Send(h, c, lines).0;
      && TimersOwned(h1) && TimersOwned(FinishMrqQueued(SetError(h1, c, true), c.mrq))
      && TimersOwned(h1.(deferred := None))
      && forall caller, thread :: TimersOwned(h1.(caller := caller)) && TimersOwned(h1.(thread := thread))
  {
    hide TimersOwned, Calm, Live, FinishMrqQueued, SetError, Send;
    var h1 := Send(h, c, lines).0;
    FailOwned(h, c);
    SendOwned(h, c, lines);
    FailOwned(h1, c);
    forall caller, thread ensures TimersOwned(h1.(caller := caller)) && TimersOwned(h1.(thread := thread)) {
      SidesCalm(h1, caller, thread, false);
      CalmOwned(h1, h1.(caller := caller));
      CalmOwned(h1, h1.(thread := thread));
    }
    SidesCalm(h1, None, Sleeping, false);
    CalmOwned(h1, h1.(deferred := None));
  }

  lemma CallerOwned(h: Host, present: bool, lines: Lines)
    requires Inv(h) && TimersOwned(h) && h.caller.Some?
    ensures TimersOwned(CallerWakes(h, present, lines))
  {
    var awake := h.(caller := None);
    hide Inv, TimersOwned, Calm, Live, FinishMrqQueued, SetError, Send;
    HeldLive(h);
    SidesCalm(h, None, h.thread, h.warned);
    CalmOwned(h, awake);
    TryOwned(awake, h.caller.value.cmd, lines);
  }

  lemma ThreadDefersOwned(h: Host, lines: Lines)
    requires Inv(h) && TimersOwned(h)
    ensures TimersOwned(ThreadDefers(h, lines))
  {
    HeldLive(h);
    SidesCalm(h, None, Sleeping, h.warned);
    hide Inv, TimersOwned, Calm, Live, Send;
    CalmOwned(h, h.(thread := Sleeping));
    if h.deferred.Some? {
      var c := h.deferred.value;
      var h1 := Send(h, c, lines).0;
      SendOwned(h, c, lines);
      SidesCalm(h1, None, Sleeping, h.warned);
      SidesCalm(h1, None, Retrying(c, RETRIES - 1), h.warned);
      CalmOwned(h1, h1.(deferred := None, thread := Sleeping));
      CalmOwned(h1, h1.(thread := Retrying(c, RETRIES - 1)));
    }
  }

  lemma RetryingLive(h: Host)
    requires Inv(h) && h.thread.Retrying?
    ensures Live(h, h.thread.cmd.mrq)
  {
    RetryingHolds(h);
    hide Inv, Live;
    HeldLive(h);
  }

  lemma ThreadWakesOwned(h: Host, present: bool, lines: Lines)
    requires Inv(h) && TimersOwned(h) && h.thread.Retrying?
    ensures TimersOwned(ThreadWakes(h, present, lines))
  {
    var awake := h.(thread := Sleeping);
    hide Inv, TimersOwned, Calm, Live, FinishMrqQueued, SetError, Send;
    RetryingLive(h);
    SidesCalm(h, None, Sleeping, h.warned);
    CalmOwned(h, awake);
    TryOwned(awake, h.thread.cmd, lines);
  }

  // ---------------------------------------------------------------- the drainers

  lemma TailOwned(h: Host, i: nat, r: Request)
    requires TimersOwned(h) && Look(h, r).finishes > 0
    ensures TimersOwned(DrainTail(h, i, r).0)
  {
    var h1 := Recovered(h);
    RemovalCalm(h);
    CalmOwned(h, h1);
    assert Look(h1, r) == Look(h, r);
    hide TimersOwned, HandBack, Recovered, NeedsReset, Look, Calm;
    HandBackOwned(h, i, r);
    HandBackOwned(h1, i, r);
  }

  lemma StoreCalm(h: Host, r: Request, rec: Rec)
    requires rec.finishes == Look(h, r).finishes
    ensures Calm(h, Store(h, r, rec)) && Look(Store(h, r, rec), r) == rec
  {
  }

  lemma WindowEndOwned(h: Host, i: nat, r: Request)
    requires Inv(h) && TimersOwned(h) && Slot(h, i) == Some(r)
    ensures TimersOwned(WindowEnd(h, i, r).0)
  {
    var rec := Look(h, r);
    var rec' := rec.(data := rec.data.(mapped := false));
    SlotDone(h, i);
    StoreCalm(h, r, rec');
    hide Inv, TimersOwned, DrainTail, Store, Calm, Look;
    CalmOwned(h, Store(h, r, rec'));
    TailOwned(Store(h, r, rec'), i, r);
  }

  lemma UnmapOwned(h: Host, r: Request)
    requires TimersOwned(h)
    ensures var rec := Look(h, r);
      TimersOwned(Store(h, r, rec.(data := rec.data.(unmaps := rec.data.unmaps + 1))))
  {
    var rec := Look(h, r);
    var rec' := rec.(data := rec.data.(unmaps := rec.data.unmaps + 1));
    StoreCalm(h, r, rec');
    hide TimersOwned, Store, Calm, Look;
    CalmOwned(h, Store(h, r, rec'));
  }

  lemma DrainStepOwned(h: Host)
    requires Inv(h) && TimersOwned(h)
    ensures TimersOwned(DrainStep(h).0)
  {
    hide Inv, TimersOwned, DrainTail, Store, Look;
    if FirstDone(h).Some? {
      var i := FirstDone(h).value;
      SlotDone(h, i);
      UnmapOwned(h, Slot(h, i).value);
      TailOwned(h, i, Slot(h, i).value);
    }
  }

  lemma DrainOwned(h: Host, pc: Drainer)
    requires Inv(h) && TimersOwned(h) && (pc.InWindow? ==> pc.slot < 2 && Slot(h, pc.slot) == Some(pc.mrq))
    ensures TimersOwned(RunDrainer(h, pc).0)
  {
    if pc.InWindow? { WindowEndOwned(h, pc.slot, pc.mrq); } else { DrainStepOwned(h); }
    hide WindowEnd, DrainStep, TimersOwned, Inv;
  }

  lemma Windows(h: Host)
    requires Inv(h)
    ensures h.worker.InWindow? ==> h.worker.slot < 2 && Slot(h, h.worker.slot) == Some(h.worker.mrq)
    ensures ThreadInWindow(h) ==> h.thread.pc.slot < 2 && Slot(h, h.thread.pc.slot) == Some(h.thread.pc.mrq)
  {
  }

  lemma PcCalm(h: Host, worker: Drainer, thread: Thread, flag: bool)
    ensures Calm(h, h.(worker := worker)) && Calm(h, h.(thread := thread))
    ensures Calm(h, h.(workQueued := flag, worker := worker)) && Calm(h, h.(woken := flag, thread := thread))
  {
  }

  lemma DrainersOwned(h: Host, s: Step)
    requires Inv(h) && TimersOwned(h) && Enabled(h, s) && (s.WorkerStep? || s.ThreadDrains?)
    ensures TimersOwned(Apply(h, s))
  {
    Windows(h);
    hide Inv, TimersOwned, RunDrainer, Calm;
    if s.WorkerStep? {
      var (h1, pc) := RunDrainer(h, h.worker);
      DrainOwned(h, h.worker);
      PcCalm(h1, pc, h.thread, false);
      CalmOwned(h1, h1.(worker := pc));
    } else {
      var (h1, pc) := RunDrainer(h, h.thread.pc);
      var thread := if pc.Idle? then Deferring else Drain(pc);
      DrainOwned(h, h.thread.pc);
      PcCalm(h1, pc, thread, false);
      CalmOwned(h1, h1.(thread := thread));
    }
  }

  lemma StepOwned(h: Host, s: Step)
    requires Inv(h) && TimersOwned(h) && Enabled(h, s)
    ensures TimersOwned(Apply(h, s))
  {
    hide Inv, TimersOwned, Calm, Submit, SubmitAtomic, CallerWakes, Irq, TimeoutTimer, TimeoutDataTimer,
      WorkerRuns, ThreadRuns, ThreadDefers, ThreadWakes, CardEvent, Die;
    match s
    case Submits(r, present, lines) => SubmitOwned(h, r, present, lines);
    case SubmitsAtomic(r, lines) => SubmitOwned(h, r, true, lines);
    case CallerStep(present, lines) => CallerOwned(h, present, lines);
    case Interrupt(rounds) => IrqOwned(h, rounds);
    case CmdTimeout(expired) => TimeoutOwned(h, h.timer && !expired);
    case DataTimeout(expired, lines) => DataTimeoutOwned(h, h.dataTimer && !expired, lines);
    case WorkerStarts =>
      PcCalm(h, Draining, h.thread, false);
      CalmOwned(h, h.(workQueued := false, worker := Draining));
    case ThreadStarts =>
      PcCalm(h, h.worker, Drain(Draining), false);
      CalmOwned(h, h.(woken := false, thread := Drain(Draining)));
    case ThreadTakesDeferred(lines) => ThreadDefersOwned(h, lines);
    case ThreadStep(present, lines) => ThreadWakesOwned(h, present, lines);
    case CardChanges(present) => RemovalOwned(h, present);
    case Dies => RemovalOwned(h, false);
    case _ => DrainersOwned(h, s);
  }

  /** In every reachable state a running timer watches for an accepted request that is not
      finished yet; with none left, no timer runs. */
  lemma {:induction false} NoStaleTimer(cfg: Config, states: seq<Host>, steps: seq<Step>, i: nat)
    requires IsRun(cfg, states, steps) && i < |states|
    ensures TimersOwned(states[i])
    ensures (forall r :: r in states[i].obj ==> states[i].obj[r].finishes > 0)
        ==> !states[i].timer && !states[i].dataTimer
  {
    if i > 0 {
      NoStaleTimer(cfg, states, steps, i - 1);
      RunKeeps(cfg, states, steps, i - 1);
      StepOwned(states[i - 1], steps[i - 1]);
    }
    hide Inv, Apply, Enabled;
  }
}
