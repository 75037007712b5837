/** What becomes of a request whose timer goes off where its callback does not look. */
module RequestStalls {
  import opened Options
  import opened RequestModel
  import opened RequestInvariant
  import opened RequestProgress
  import opened RequestTimers
  import opened RequestLimits

  /** The request waits on the bus for an answer to CMD23 or to a stop command without busy
      signalling, and no timer runs. */
  ghost predicate Stalled(h: Host, r: Request) {
    && Inv(h) && OnBus(h, r) && DataLine(Cmd(r, Main)) && Blind(r, Look(h, r))
    && !h.timer && !h.dataTimer
  }

  // ---------------------------------------------------------------- a stalled request is alone

  lemma BlindBooks(h: Host, r: Request)
    requires ReqInv(h, r) && OnBus(h, r) && Blind(r, Look(h, r))
    ensures !(r.cap && Look(h, r).cmdDone)
  {
    hide MapInv, ResetInv, Outcome, Unmapping, Asleep, HoldsLines, HoldsData;
  }

  /** Nothing else is anywhere. */
  predicate OnlyCmd(h: Host, r: Request) {
    && h.cmd.Some? && h.cmd.value.mrq == r && h.dataCmd.None? && h.data.None?
    && h.deferred.None? && h.caller.None? && h.slot0.None? && h.slot1.None?
    && !h.worker.InWindow? && !ThreadInWindow(h) && !h.thread.Retrying?
  }

  lemma BlindAlone(h: Host, r: Request)
    requires Inv(h) && OnBus(h, r) && DataLine(Cmd(r, Main)) && Blind(r, Look(h, r))
    ensures OnlyCmd(h, r) && r in h.out && !Overlaps(h, r) && forall q :: q in h.out ==> q == r
  {
    CmdKnown(h);
    assert Known(h, r);
    AllKnown(h);
    RetryingHolds(h);
    hide Inv, Known, ReqInv, DataLine, Beside;
    BlindBooks(h, r);
    DataTimerFinds(h, r);
    Lonely(h, r);
    Pick(h, r);
    hide OnBus, Blind, Look;
    AloneEverywhere(h, r);
  }

  lemma AloneEverywhere(h: Host, r: Request)
    requires RefsInv(h) && ThreadsInv(h) && Loose(h, r) && !Owns(h.deferred, r)
    requires h.data.None? && h.dataCmd.None? && h.cmd.Some? && h.cmd.value.mrq == r
    requires forall q :: q in h.out ==> q == r
    ensures OnlyCmd(h, r)
  {
    hide MapInv, Look;
  }

  // ---------------------------------------------------------------- nothing but the card can help

  /** Steps other than the hardware's and card removal; a timer callback needs its timer. */
  predicate Unaided(h: Host, s: Step) {
    !s.Interrupt? && !s.CardChanges? && !s.Dies? && (s.CmdTimeout? ==> h.timer) && (s.DataTimeout? ==> h.dataTimer)
  }

  /** When the data timer of a request goes off in a phase its callback does not see, no timer is
      left running. */
  lemma BlindExpiry(h: Host, r: Request, lines: Lines)
    requires Inv(h) && TimersOwned(h) && OnBus(h, r) && DataLine(Cmd(r, Main)) && Blind(r, Look(h, r))
    ensures var h' := TimeoutDataTimer(h.(dataTimer := false), lines);
      Stalled(h', r) && Look(h', r) == Look(h, r)
  {
    hide Inv, TimersOwned, Blind, OnBus, DataLine, Look, TimeoutDataTimer;
    BlindAlone(h, r);
    DataTimerFinds(h, r);
    NoOtherTimer(h, r);
    NoCallback(h.(dataTimer := false), lines);
    DataTimeoutKeeps(h, false, lines);
    Unwatched(h, r);
  }

  lemma Unwatched(h: Host, r: Request)
    requires OnBus(h, r) && DataLine(Cmd(r, Main)) && Blind(r, Look(h, r)) && !h.timer
    ensures var h' := h.(dataTimer := false);
      Look(h', r) == Look(h, r) && (Inv(h') ==> Stalled(h', r))
  {
    hide Inv, Blind, DataLine;
  }

  lemma NoOtherTimer(h: Host, r: Request)
    requires TimersOwned(h) && DataLine(Cmd(r, Main)) && forall q :: q in h.out ==> q == r
    ensures !h.timer
  {
  }

  lemma NoCallback(h: Host, lines: Lines)
    requires h.data.None? && h.dataCmd.None? && h.cmd.Some? && !DataLine(h.cmd.value)
    ensures TimeoutDataTimer(h, lines) == h
  {
    hide DataLine;
  }

  /** Two states with the same request on the bus and the same books. */
  predicate SameBus(h: Host, h': Host) {
    && h'.cmd == h.cmd && h'.dataCmd == h.dataCmd && h'.data == h.data && h'.obj == h.obj
    && h'.timer == h.timer && h'.dataTimer == h.dataTimer
  }

  lemma DrainsNothing(h: Host, pc: Drainer)
    requires h.slot0.None? && h.slot1.None? && !pc.InWindow?
    ensures RunDrainer(h, pc) == (h, Idle)
  {
  }

  lemma StallsDrainers(h: Host, s: Step, r: Request)
    requires OnlyCmd(h, r) && Enabled(h, s)
    requires s.WorkerStarts? || s.WorkerStep? || s.ThreadStarts? || s.ThreadDrains? || s.ThreadTakesDeferred?
    ensures SameBus(h, Apply(h, s))
  {
    hide RunDrainer;
    if s.WorkerStep? { DrainsNothing(h, h.worker); }
    if s.ThreadDrains? { DrainsNothing(h, h.thread.pc); }
  }

  lemma NobodySubmits(h: Host, s: Step, r: Request)
    requires r in h.out && !Overlaps(h, r) && Enabled(h, s)
    ensures !s.Submits? && !s.SubmitsAtomic?
  {
    hide Overlaps;
  }

  lemma SameBusStalled(h: Host, h': Host, r: Request)
    requires Stalled(h, r) && SameBus(h, h') && Inv(h')
    ensures Stalled(h', r) && Look(h', r) == Look(h, r)
  {
    hide Inv, Blind, DataLine;
  }

  /** No such step moves a stalled request. */
  lemma StallStays(h: Host, s: Step, r: Request)
    requires Stalled(h, r) && Enabled(h, s) && Unaided(h, s)
    ensures Stalled(Apply(h, s), r) && Look(Apply(h, s), r) == Look(h, r)
  {
    BlindAlone(h, r);
    NobodySubmits(h, s, r);
    assert !s.CmdTimeout? && !s.DataTimeout?;
    assert !s.CallerStep? && !s.ThreadStep?;
    hide Stalled, OnlyCmd, Apply, Inv, Overlaps;
    StallsDrainers(h, s, r);
    assert Inv(h) by { StalledInv(h, r); }
    StepKeeps(h, s);
    SameBusStalled(h, Apply(h, s), r);
  }

  lemma StalledInv(h: Host, r: Request)
    requires Stalled(h, r)
    ensures Inv(h)
  {
    hide Inv;
  }

  /** Over any stretch of a run without interrupt, card change or removal, it never finishes. */
  lemma {:induction false} HangsForGood(cfg: Config, states: seq<Host>, steps: seq<Step>, i: nat, k: nat, r: Request)
    requires IsRun(cfg, states, steps) && i <= k < |states| && Stalled(states[i], r)
    requires forall j :: i <= j < k ==> Unaided(states[j], steps[j])
    ensures Stalled(states[k], r) && Look(states[k], r) == Look(states[i], r)
    decreases k
  {
    hide Stalled, Apply, Enabled, Unaided, Look;
    if i < k {
      HangsForGood(cfg, states, steps, i, k - 1, r);
      StallStays(states[k - 1], steps[k - 1], r);
    }
  }

  /** Once the data timer has gone off for a request in CMD23 or in such a stop command, no timer
      runs, and the request stays where it is until an interrupt, a card change or removal. */
  lemma ExpiryStalls(cfg: Config, states: seq<Host>, steps: seq<Step>, i: nat, k: nat, r: Request, lines: Lines)
    requires IsRun(cfg, states, steps) && i < k < |states| && steps[i] == DataTimeout(true, lines)
    requires OnBus(states[i], r) && DataLine(Cmd(r, Main)) && Blind(r, Look(states[i], r))
    requires forall j :: i < j < k ==> Unaided(states[j], steps[j])
    ensures Stalled(states[k], r) && Look(states[k], r) == Look(states[i], r)
  {
    RunKeeps(cfg, states, steps, i);
    NoStaleTimer(cfg, states, steps, i);
    hide Inv, TimersOwned, Stalled, Apply, Enabled, Unaided, Look, Blind, OnBus, DataLine, TimeoutDataTimer, Boot;
    BlindExpiry(states[i], r, lines);
    DataTimerApplies(states[i], lines);
    HangsForGood(cfg, states, steps, i + 1, k, r);
  }

  // ---------------------------------------------------------------- a run that gets there

  /** A read of several blocks with a CMD23 the driver has to send itself. */
  const COUNTED := Request(0, true, true, true, false, false, false, true, false, true)
  const ASKED := FRESH.(sbc := CmdRec(false, 1, 0, 0))

  function CountSent(): Host {
    Boot(DMA).(cmd := Some(Cmd(COUNTED, Sbc)), dataTimer := true, obj := map[COUNTED := ASKED], out := {COUNTED})
  }

  function CountLost(): Host {
    CountSent().(dataTimer := false)
  }

  lemma CountAccepted()
    ensures var h := Boot(DMA).(obj := map[COUNTED := FRESH], out := {COUNTED});
      Accept(Boot(DMA), COUNTED) == h && FirstCmd(DMA, COUNTED) == Cmd(COUNTED, Sbc)
      && SetError(h, Cmd(COUNTED, Sbc), false) == h && Issue(h, Cmd(COUNTED, Sbc)) == CountSent()
      && h.(warned := h.warned || h.cmd.Some?) == h && !h.dead && h.cfg == DMA
  {
    var h := Boot(DMA).(obj := map[COUNTED := FRESH], out := {COUNTED});
    assert SetError(h, Cmd(COUNTED, Sbc), false).obj == h.obj;
    assert Issue(h, Cmd(COUNTED, Sbc)).obj == CountSent().obj;
  }

  lemma CountSubmitted()
    ensures var s := Submits(COUNTED, true, FREE);
      Enabled(Boot(DMA), s) && Apply(Boot(DMA), s) == CountSent()
  {
    CountAccepted();
    assert Enabled(Boot(DMA), Submits(COUNTED, true, FREE));
    assert !Boot(DMA).dead && Boot(DMA).cfg == DMA;
    hide Issue, SetError, Accept, CountSent, Boot, FirstCmd, Enabled;
  }

  lemma CountTimedOut()
    ensures Apply(CountSent(), DataTimeout(true, FREE)) == CountLost()
  {
  }

  /** A controller that never answers CMD23 leaves the request on the bus with no timer running and
      nobody on the way to look at it. */
  lemma LostCountReachable() returns (states: seq<Host>, steps: seq<Step>)
    ensures |states| == 3 && IsRun(DMA, states, steps)
    ensures var h := states[2];
      && Stalled(h, COUNTED) && !h.workQueued && h.worker.Idle? && !h.woken && h.thread.Sleeping?
  {
    CountSubmitted();
    CountTimedOut();
    Anytime(CountSent());
    JustBooted();
    states, steps := [Boot(DMA)], [];
    LostFacts();
    hide *;
    states, steps := Extend(DMA, states, steps, Submits(COUNTED, true, FREE));
    states, steps := Extend(DMA, states, steps, DataTimeout(true, FREE));
    RunKeeps(DMA, states, steps, 2);
    LostIsStalled();
  }

  lemma LostFacts()
    ensures var h := CountLost(); !h.workQueued && h.worker.Idle? && !h.woken && h.thread.Sleeping?
  {
  }

  lemma LostIsStalled()
    ensures Inv(CountLost()) ==> Stalled(CountLost(), COUNTED)
  {
    hide Inv;
  }
}
