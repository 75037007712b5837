/** What the request life cycle guarantees over whole runs. */
module RequestTheorems {
  import opened Options
  import opened RequestModel
  import opened RequestInvariant
  import opened RequestFrames

  // ---------------------------------------------------------------- conservation

  function Places(h: Host, r: Request): nat {
    Bit(OnBus(h, r)) + Bit(Owns(h.deferred, r)) + Bit(Asleep(h, r))
    + Bit(h.slot0 == Some(r)) + Bit(h.slot1 == Some(r))
  }

  /** In every reachable state an accepted request is in exactly one place (on the bus, deferred,
      with its sleeping caller, in one slot of mrqs_done) or it has been handed back, once. */
  lemma Conservation(cfg: Config, states: seq<Host>, steps: seq<Step>, i: nat, r: Request)
    requires IsRun(cfg, states, steps) && i < |states| && r in states[i].obj
    ensures Places(states[i], r) + states[i].obj[r].returned == 1
    ensures (r in states[i].out) == (states[i].obj[r].returned == 0)
    ensures states[i].obj[r].finishes
        == Bit(states[i].slot0 == Some(r)) + Bit(states[i].slot1 == Some(r)) + states[i].obj[r].returned
  {
    RunKeeps(cfg, states, steps, i);
    assert ReqInv(states[i], r);
  }

  /** None of the WARN_ONs of sdhci_send_command, sdhci_initialize_data, __sdhci_finish_data,
      sdhci_finish_command and sdhci_set_mrq_done fires, two slots always suffice, and a
      command is only ever sent with the command line idle. */
  lemma NoWarnings(cfg: Config, states: seq<Host>, steps: seq<Step>, i: nat)
    requires IsRun(cfg, states, steps) && i < |states|
    ensures !states[i].warned
  {
    RunKeeps(cfg, states, steps, i);
  }

  /** Ownership of the data path and of the deferred command, in every reachable state. */
  lemma Structure(cfg: Config, states: seq<Host>, steps: seq<Step>, i: nat)
    requires IsRun(cfg, states, steps) && i < |states|
    ensures var h := states[i];
      && (h.data.Some? ==> h.dataCmd == Some(Cmd(h.data.value, Main)))
      && (h.cmd.Some? && CarriesData(h.cmd.value) ==> h.dataCmd == h.cmd && h.data == Some(h.cmd.value.mrq))
      && (h.deferred.Some? ==> h.cmd.None? && h.dataCmd.None? && h.data.None?)
      && (h.thread.Retrying? ==> h.deferred == Some(h.thread.cmd))
  {
    var h := states[i];
    RunKeeps(cfg, states, steps, i);
    hide IsRun, Inv, ReqInv, CarriesData;
    CmdKnown(h);
    RetryingHolds(h);
    if h.data.Some? { DataBooked(h, h.data.value); }
    if h.cmd.Some? { CmdBooked(h, h.cmd.value); }
    if h.deferred.Some? { DeferredAlone(h); }
  }

  lemma DataBooked(h: Host, r: Request)
    requires ReqInv(h, r) && h.data == Some(r)
    ensures h.dataCmd == Some(Cmd(r, Main)) && (h.cmd.Some? && h.cmd.value.mrq == r ==> h.cmd == h.dataCmd)
  {
    hide MapInv, ResetInv, Outcome, Unmapping, Asleep, Look;
  }

  lemma CmdBooked(h: Host, c: Cmd)
    requires ReqInv(h, c.mrq) && h.cmd == Some(c)
    ensures CarriesData(c) ==> h.dataCmd == h.cmd && h.data == Some(c.mrq)
  {
    hide MapInv, ResetInv, Outcome, Unmapping, Asleep, Look;
  }

  lemma DeferredAlone(h: Host)
    requires Inv(h) && h.deferred.Some?
    ensures h.cmd.None? && h.dataCmd.None? && h.data.None?
  {
    var r := h.deferred.value.mrq;
    WaitingKnown(h);
    DeferredBooks(h, r);
    AllKnown(h);
    hide Inv, ReqInv, Known, ThreadsInv, Overlaps;
    forall q | q in h.out ensures q == r {
      assert q != r ==> Beside(h, q, r);
    }
  }

  /** A deferred request is off the bus and shares the controller with nobody. */
  lemma DeferredBooks(h: Host, r: Request)
    requires ReqInv(h, r) && Owns(h.deferred, r)
    ensures !OnBus(h, r) && !CommandOnly(r) && !Overlaps(h, r)
  {
    hide MapInv, ResetInv, Outcome, Unmapping;
  }

  /** Accepted requests are never forgotten and none comes back to life after its return. */
  lemma {:induction false} Persistence(cfg: Config, states: seq<Host>, steps: seq<Step>, i: nat, j: nat, r: Request)
    requires IsRun(cfg, states, steps) && i <= j < |states| && r in states[i].obj
    ensures r in states[j].obj
    ensures states[i].obj[r].returned <= states[j].obj[r].returned <= 1
    decreases j
  {
    hide Apply, Enabled, Inv, Boot, Places;
    Conservation(cfg, states, steps, i, r);
    if i < j {
      Persistence(cfg, states, steps, i, j - 1, r);
      StepFrames(states[j - 1], steps[j - 1]);
      Conservation(cfg, states, steps, j - 1, r);
      Conservation(cfg, states, steps, j, r);
    }
  }

  // ---------------------------------------------------------------- how requests finish

  /** The record of a request that has been finished, in some reachable state. */
  predicate Finished(cfg: Config, states: seq<Host>, steps: seq<Step>, i: nat, r: Request) {
    IsRun(cfg, states, steps) && i < |states| && r in states[i].obj && states[i].obj[r].finishes >= 1
  }

  lemma {:induction false} RunConfig(cfg: Config, states: seq<Host>, steps: seq<Step>, i: nat)
    requires IsRun(cfg, states, steps) && i < |states|
    ensures states[i].cfg == cfg
  {
    if i > 0 {
      RunConfig(cfg, states, steps, i - 1);
      StepFrames(states[i - 1], steps[i - 1]);
    }
  }

  lemma FinishedOutcome(cfg: Config, states: seq<Host>, steps: seq<Step>, i: nat, r: Request)
    requires Finished(cfg, states, steps, i, r)
    ensures Outcome(cfg, r, states[i].obj[r]) && WellFormed(r) && states[i].cfg == cfg
    ensures states[i].obj[r].finishes == 1
  {
    RunKeeps(cfg, states, steps, i);
    RunConfig(cfg, states, steps, i);
    assert ReqInv(states[i], r);
  }

  /** The rendezvous: a request finished without error has had its response handled, its data
      transfer or busy phase ended, whichever came first, and its CMD12 answered if it needed one. */
  lemma Rendezvous(cfg: Config, states: seq<Host>, steps: seq<Step>, i: nat, r: Request)
    requires Finished(cfg, states, steps, i, r) && ErrorFree(states[i].obj[r])
    ensures var rec := states[i].obj[r];
      && rec.main.issued == 1 && rec.main.responded == 1
      && (ManualCmd23(cfg, r) ==> rec.sbc.issued == 1 && rec.sbc.responded == 1)
      && (r.hasData ==> rec.data.ended >= 1)
      && (!r.hasData && r.busy && !cfg.noBusyIrq ==> rec.main.busyEnded >= 1)
      && (rec.stop.issued >= 1 ==> rec.stop.responded == 1)
      && (rec.stop.issued >= 1 && r.stopBusy && !cfg.noBusyIrq ==> rec.stop.busyEnded >= 1)
  {
    FinishedOutcome(cfg, states, steps, i, r);
  }

  /** A successful multi-block transfer with a stop command is terminated exactly once: by CMD23
      sent by hand, by auto CMD23, by auto CMD12 or by a CMD12 of the driver. */
  lemma OneTerminator(cfg: Config, states: seq<Host>, steps: seq<Step>, i: nat, r: Request)
    requires Finished(cfg, states, steps, i, r) && ErrorFree(states[i].obj[r])
    requires r.hasStop && r.multi && !r.ioExtended && !r.cap
    ensures var rec := states[i].obj[r];
      rec.sbc.issued + rec.auto23 + rec.auto12 + rec.stop.issued == 1
  {
    FinishedOutcome(cfg, states, steps, i, r);
  }

  /** A successful request was written with exactly the automatic command that its configuration and
      its kind ask for. */
  lemma AutoCommands(cfg: Config, states: seq<Host>, steps: seq<Step>, i: nat, r: Request)
    requires Finished(cfg, states, steps, i, r) && ErrorFree(states[i].obj[r])
    ensures var rec := states[i].obj[r];
      && rec.auto12 == Bit(r.hasData && r.multi && !r.ioExtended && !r.hasSbc && !r.cap && cfg.autoCmd12)
      && rec.auto23 == Bit(r.hasData && r.multi && r.hasSbc && cfg.autoCmd23)
      && rec.sbc.issued == Bit(r.hasSbc && !cfg.autoCmd23)
      && rec.stop.issued == Bit(r.hasStop && !r.cap && !r.hasSbc && !cfg.autoCmd12)
  {
    FinishedOutcome(cfg, states, steps, i, r);
  }

  /** After a data error the driver has sent CMD12, or could not and says so. */
  lemma DataErrorStops(cfg: Config, states: seq<Host>, steps: seq<Step>, i: nat, r: Request)
    requires Finished(cfg, states, steps, i, r) && states[i].obj[r].data.error
    requires r.hasStop && !r.cap
    ensures states[i].obj[r].stop.issued == 1 || states[i].obj[r].stop.error
  {
    FinishedOutcome(cfg, states, steps, i, r);
  }

  // ---------------------------------------------------------------- resets

  /** While the controller lives, a request that finished with a command, CMD23 or CMD12 error
      is handed back, by whomever, only after both lines have been reset together with neither
      `cmd` nor `data_cmd` set, at least once since it finished. */
  lemma ResetBeforeReturn(cfg: Config, states: seq<Host>, steps: seq<Step>, i: nat, r: Request)
    requires IsRun(cfg, states, steps) && i < |states| && r in states[i].obj
    requires states[i].obj[r].returned >= 1 && !states[i].dead
    ensures var rec := states[i].obj[r];
      rec.main.error || (r.hasSbc && rec.sbc.error) || (r.hasStop && rec.stop.error) || cfg.resetAfterRequest ==>
        && rec.handedBack.cmdResets > rec.finished.cmdResets
        && rec.handedBack.dataResets > rec.finished.dataResets
        && rec.handedBack.idleResets > rec.finished.idleResets
  {
    RunKeeps(cfg, states, steps, i);
    RunConfig(cfg, states, steps, i);
    assert ReqInv(states[i], r);
  }

  /** A data error resets the data line at once, and the command line with it unless the command
      of another request is on it. */
  lemma DataErrorResets(h: Host, r: Request, swTimeout: bool, lines: Lines)
    requires Inv(h) && h.data == Some(r)
    ensures SetDataError(h, r).data.Some?
    ensures Now(FinishData(SetDataError(h, r), swTimeout, lines)) ==
      Mark(h.cmdResets + Bit(h.cmd.None? || h.cmd.value.mrq == r), h.dataResets + 1, h.idleResets)
  {
    CmdKnown(h);
    hide Inv, ReqInv, FinishData, SetDataError, ReleaseData, Bit, Now;
    DataBooked(h, r);
    ReleaseResets(h, r);
    FinishDataResets(SetDataError(h, r), swTimeout, lines);
  }

  /** A transfer that ends well resets nothing. */
  lemma DataEndResetsNothing(h: Host, r: Request, swTimeout: bool, lines: Lines)
    requires h.data == Some(r) && !Look(h, r).data.error
    ensures Now(FinishData(h, swTimeout, lines)) == Now(h)
  {
    assert Now(ReleaseData(h)) == Now(h);
    hide FinishData, ReleaseData, Now;
    FinishDataResets(h, swTimeout, lines);
  }

  lemma ReleaseResets(h: Host, r: Request)
    requires h.data == Some(r) && h.dataCmd == Some(Cmd(r, Main))
    requires h.cmd.Some? && h.cmd.value.mrq == r ==> h.cmd == h.dataCmd
    ensures SetDataError(h, r).data.Some?
    ensures Now(ReleaseData(SetDataError(h, r))) ==
      Mark(h.cmdResets + Bit(h.cmd.None? || h.cmd.value.mrq == r), h.dataResets + 1, h.idleResets)
  {
    assert Look(SetDataError(h, r), r).data.error;
    hide Look;
  }

  /** After the release the lines are not reset again, whether a stop command is sent or not. */
  lemma FinishDataResets(h: Host, swTimeout: bool, lines: Lines)
    requires h.data.Some?
    ensures Now(FinishData(h, swTimeout, lines)) == Now(ReleaseData(h))
  {
    var c := Cmd(h.data.value, Stop);
    var h1 := ReleaseData(h);
    var h2 := h1.(cmd := None);
    var h3 := Send(h2, c, lines).0;
    FinishResets(h1, c.mrq);
    SendResets(h2, c, lines);
    ErrorResets(h3, c);
    FinishResets(SetError(h3, c, true), c.mrq);
    assert Now(h2) == Now(h1) && Now(Defer(h3, c)) == Now(h3);
    hide ReleaseData, Send, FinishMrq, WantsStop, SetError, Defer, Now;
  }

  lemma FinishResets(h: Host, r: Request)
    ensures Now(FinishMrq(h, r)) == Now(h)
  {
  }

  lemma ErrorResets(h: Host, c: Cmd)
    ensures Now(SetError(h, c, true)) == Now(h)
  {
    hide WithCmd, CmdOf;
  }

  lemma SendResets(h: Host, c: Cmd, lines: Lines)
    ensures Now(Send(h, c, lines).0) == Now(h)
  {
    hide WithCmd, CmdOf, IssuedRec, DataLine, CarriesData;
  }

  /** Finishing a request owes the controller a reset exactly for an error of one of its commands, or
      for the quirk, and only while it lives. */
  lemma FinishOwesReset(h: Host, r: Request)
    ensures var rec := Look(h, r);
            var fails := rec.main.error || (r.hasSbc && rec.sbc.error) || (r.hasStop && rec.stop.error);
      FinishMrq(h, r).pendingReset == (h.pendingReset || (!h.dead && (fails || h.cfg.resetAfterRequest)))
  {
    hide SlotTrouble, DataLine;
  }

  lemma BusyElsewhere(h: Host, i: nat, r: Request)
    requires Inv(h) && i < 2 && Slot(h, i) == Some(r) && (h.cmd.Some? || h.dataCmd.Some?)
    ensures exists q :: q in h.out && q != r && OnBus(h, q)
  {
    assert ReqInv(h, r);
    var q := if h.cmd.Some? then h.cmd.value.mrq else h.dataCmd.value.mrq;
    assert q in h.out && OnBus(h, q);
  }

  lemma HandBackGone(h: Host, i: nat, r: Request)
    ensures Slot(HandBack(h, i, r), i).None? && r !in HandBack(h, i, r).out
    ensures Now(HandBack(h, i, r)) == Now(h) && HandBack(h, i, r).pendingReset == h.pendingReset
  {
  }

  /** The drainer resets a live controller exactly for an error of a command, or for the quirk, and
      only with both lines idle; if it leaves a request in its slot, another request is still on
      the bus. */
  lemma DrainerWaitsForTheBus(h: Host, i: nat, r: Request)
    requires Inv(h) && i < 2 && Slot(h, i) == Some(r)
    ensures var (h', stop) := DrainTail(h, i, r);
            var rec := Look(h, r);
            var demands := !h.dead && (rec.main.error || (r.hasSbc && rec.sbc.error) || (r.hasStop && rec.stop.error)
                                       || h.cfg.resetAfterRequest);
      if demands && (h.cmd.Some? || h.dataCmd.Some?)
      then stop && h' == h && exists q :: q in h.out && q != r && OnBus(h, q)
      else !stop && Slot(h', i).None? && r !in h'.out
           && h'.cmdResets == h.cmdResets + Bit(demands)
           && h'.dataResets == h.dataResets + Bit(demands)
           && h'.idleResets == h.idleResets + Bit(demands) && (demands ==> !h'.pendingReset)
  {
    if h.cmd.Some? || h.dataCmd.Some? { BusyElsewhere(h, i, r); }
    HandBackGone(h, i, r);
    HandBackGone(Recovered(h), i, r);
    hide Inv, NeedsReset, OnBus, HandBack, Slot;
  }

  // ---------------------------------------------------------------- returned by the handler

  /** What is done when the handler leaves goes back at once, unless a reset is owed, everything is
      to be deferred, or the buffers are still mapped. */
  predicate MayGo(h: Host, r: Request) {
    !h.pendingReset && !h.cfg.alwaysDefer && !(h.reqUseDma && r.hasData && Look(h, r).data.mapped)
  }

  lemma HandlerReturns(h: Host, rounds: seq<Round>, i: nat, r: Request)
    requires Inv(h) && rounds != [] && i < 2 && Slot(IrqRounds(h, rounds), i) == Some(r)
    ensures var h1 := IrqRounds(h, rounds);
            var h' := Irq(h, rounds);
      if MayGo(h1, r) then r !in h'.out && Slot(h', i).None?
      else r in h'.out && Slot(h', i) == Some(r) && h'.woken
  {
    var h1 := IrqRounds(h, rounds);
    hide Inv, IrqRounds, Scan, MayGo, Known;
    IrqRoundsKeep(h, rounds);
    SlotOut(h1, i);
    ScanBoth(h1, i, r);
  }

  lemma SlotOut(h: Host, i: nat)
    requires Inv(h) && Slot(h, i).Some?
    ensures Slot(h, i).value in h.out
  {
    hide Inv;
    SlotKnown(h, i);
  }

  lemma ScanBoth(h: Host, i: nat, r: Request)
    requires Inv(h) && i < 2 && Slot(h, i) == Some(r) && r in h.out
    ensures var h' := Scan(Scan(h, 0), 1);
      if MayGo(h, r) then r !in h'.out && Slot(h', i).None?
      else r in h'.out && Slot(h', i) == Some(r) && h'.woken
  {
    var h0 := Scan(h, 0);
    hide Inv, Scan, MayGo;
    SlotsDiffer(h);
    ScanOne(h, 0, r);
    ScanOne(h0, 1, r);
  }

  lemma SlotsDiffer(h: Host)
    requires Inv(h)
    ensures h.slot0.Some? ==> h.slot0 != h.slot1
  {
    if h.slot0.Some? { assert ReqInv(h, h.slot0.value); }
  }

  /** One look at a slot, for the request in it and for any other. */
  lemma ScanOne(h: Host, i: nat, r: Request)
    requires i < 2
    ensures var h' := Scan(h, i);
      && Slot(h', 1 - i) == Slot(h, 1 - i) && (h.woken ==> h'.woken)
      && (Slot(h, i) == Some(r) ==>
            if MayGo(h, r) then r !in h'.out && Slot(h', i).None?
            else h'.out == h.out && Slot(h', i) == Some(r) && h'.woken)
      && (Slot(h, i) != Some(r) ==> (r in h'.out <==> r in h.out) && MayGo(h', r) == MayGo(h, r))
  {
    if Slot(h, i).Some? {
      var q := Slot(h, i).value;
      WokenGoes(h, r);
      HandBackGoes(h, i, q, r);
      HandBackGone(h, i, q);
      assert DeferDone(h, q) == !MayGo(h, q);
      hide DeferDone, MayGo, HandBack, Look;
    } else {
      hide DeferDone, MayGo, HandBack, Look;
    }
  }

  lemma WokenGoes(h: Host, r: Request)
    ensures MayGo(h.(woken := true), r) == MayGo(h, r)
  {
  }

  lemma HandBackGoes(h: Host, i: nat, q: Request, r: Request)
    requires i < 2
    ensures var h' := HandBack(h, i, q);
      && Slot(h', 1 - i) == Slot(h, 1 - i) && h'.woken == h.woken && h'.out == h.out - {q}
      && (r != q ==> MayGo(h', r) == MayGo(h, r))
  {
  }

  // ---------------------------------------------------------------- mappings and the unlocked window

  /** While a drainer is in its unlocked window, its slot keeps its request: every other step
      leaves the drainer there and the request in the slot, waited for and still mapped. */
  lemma WindowHolds(h: Host, s: Step, byThread: bool, i: nat, r: Request)
    requires Inv(h) && Enabled(h, s) && StandsAt(h, byThread, i, r)
    requires if byThread then !s.ThreadDrains? else !s.WorkerStep?
    ensures var h' := Apply(h, s);
      && StandsAt(h', byThread, i, r) && Slot(h', i) == Some(r)
      && r in h'.out && Look(h', r).data.mapped && Look(h', r).data.unmaps == 1
  {
    StepFrames(h, s);
    StepKeeps(h, s);
    InWindowState(Apply(h, s), byThread, i, r);
    hide Apply, Inv, Enabled;
  }

  lemma InWindowState(h: Host, byThread: bool, i: nat, r: Request)
    requires Inv(h)
    ensures StandsAt(h, byThread, i, r) ==>
      Slot(h, i) == Some(r) && r in h.out && Look(h, r).data.mapped && Look(h, r).data.unmaps == 1
  {
    if StandsAt(h, byThread, i, r) { assert ReqInv(h, r); }
  }

  /** DMA mappings balance: when a request goes back, its buffers have been unmapped exactly as
      often as they were mapped, and that is once if and only if its data command went out by DMA. */
  lemma MappingsBalance(cfg: Config, states: seq<Host>, steps: seq<Step>, i: nat, r: Request)
    requires IsRun(cfg, states, steps) && i < |states| && r in states[i].obj
    requires states[i].obj[r].returned >= 1
    ensures var rec := states[i].obj[r];
      && rec.data.unmaps == rec.data.maps <= 1 && !rec.data.mapped
      && (rec.data.unmaps == 1 <==> rec.main.issued == 1 && r.hasData && cfg.useDma && r.mappable)
  {
    RunKeeps(cfg, states, steps, i);
    RunConfig(cfg, states, steps, i);
    assert ReqInv(states[i], r);
  }

  /** Why only one drainer may be in its window: if a drainer starts while the other one is
      unmapping the request it finds, and only then, that request is unmapped a second time. */
  lemma SecondDrainer(h: Host, i: nat)
    requires Inv(h) && FirstDone(h) == Some(i)
    ensures var r := Slot(h, i).value;
      Look(DrainStep(h).0, r).data.unmaps == 2 <==> StandsAt(h, false, i, r) || StandsAt(h, true, i, r)
  {
    hide Inv, DrainStep, Unmapping, StandsAt, Look;
    var r := Slot(h, i).value;
    DoneRequest(h, i);
    BooksInSlot(h, i, r);
    OneWindow(h, i, r);
    DrainStepBooks(h, i);
  }

  lemma DrainStepBooks(h: Host, i: nat)
    requires FirstDone(h) == Some(i)
    ensures var r := Slot(h, i).value;
            var data := Look(h, r).data;
      Look(DrainStep(h).0, r).data.unmaps == data.unmaps + Bit(h.reqUseDma && r.hasData && data.mapped)
  {
    TailBooks(h, i, Slot(h, i).value);
    hide DrainTail;
  }

  lemma BooksInSlot(h: Host, i: nat, r: Request)
    requires Inv(h) && Slot(h, i) == Some(r)
    ensures var data := Look(h, r).data;
      if data.mapped then h.reqUseDma && r.hasData && data.unmaps == Bit(Unmapping(h, r))
      else data.unmaps <= 1 && !Unmapping(h, r)
  {
    assert ReqInv(h, r);
  }

  /** A window over a request is a window over the slot it is in. */
  lemma OneWindow(h: Host, i: nat, r: Request)
    requires Inv(h) && Slot(h, i) == Some(r) && i < 2
    ensures Unmapping(h, r) <==> StandsAt(h, false, i, r) || StandsAt(h, true, i, r)
  {
    SlotKnown(h, i);
    AllKnown(h);
    hide Inv, Known, RefsInv, ReqInv, Beside;
    SlotAlone(h, i, r);
  }

  lemma TailBooks(h: Host, i: nat, r: Request)
    ensures Look(DrainTail(h, i, r).0, r).data == Look(h, r).data
  {
    HandBackBooks(h, i, r);
    HandBackBooks(Recovered(h), i, r);
    hide HandBack, NeedsReset;
  }

  lemma HandBackBooks(h: Host, i: nat, r: Request)
    ensures Look(HandBack(h, i, r), r).data == Look(h, r).data
  {
  }
}
