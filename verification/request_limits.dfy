/** Three reachable states that show where the guarantees of the request life cycle stop. */
module RequestLimits {
  import opened Options
  import opened RequestModel
  import opened RequestInvariant
  import opened RequestErrors
  import opened RequestStatus

  const DMA := Config(false, false, false, true, false, false)

  /** A plain DMA read of one block, without CMD23 or stop command. */
  const READ := Request(0, false, true, false, false, false, false, false, false, true)

  const FREE := Lines(false, false)
  const SILENT := Mask(false, false, false, false, false, false, false, false, false,
                       false, false, false, false, false, false, false)

  // ---------------------------------------------------------------- a second drainer

  const ISSUED := FRESH.(main := CmdRec(false, 1, 0, 0), data := DataRec(false, true, 0, 1, 0))
  const EXPIRED := ISSUED.(data := DataRec(true, true, 0, 1, 0), finishes := 1, finished := Mark(1, 1, 0))

  function OnTheBus(): Host {
    Boot(DMA).(cmd := Some(Cmd(READ, Main)), dataCmd := Some(Cmd(READ, Main)), data := Some(READ),
               reqUseDma := true, dataTimer := true, obj := map[READ := ISSUED], out := {READ})
  }

  function InItsSlot(): Host {
    Boot(DMA).(slot0 := Some(READ), reqUseDma := true, workQueued := true,
               obj := map[READ := EXPIRED], out := {READ}, cmdResets := 1, dataResets := 1)
  }

  function WorkerUnmaps(): Host {
    InItsSlot().(workQueued := false, woken := true, worker := InWindow(0, READ),
                 obj := map[READ := EXPIRED.(data := DataRec(true, true, 0, 1, 1))])
  }

  function Woken(): Host {
    InItsSlot().(woken := true)
  }

  function Drains(): Host {
    Woken().(workQueued := false, worker := Draining)
  }

  function BothDrain(): Host {
    WorkerUnmaps().(woken := false, thread := Drain(Draining))
  }

  lemma Submitted()
    ensures var s := Submits(READ, true, FREE);
      Enabled(Boot(DMA), s) && Apply(Boot(DMA), s) == OnTheBus()
  {
    SubmitSends();
    hide Submit, OnTheBus;
  }

  lemma SubmitSends()
    ensures Submit(Boot(DMA), READ, true, FREE) == OnTheBus()
  {
    var h := Boot(DMA).(obj := map[READ := FRESH], out := {READ});
    assert Accept(Boot(DMA), READ) == h;
    assert !h.dead && !h.warned && h.cmd.None? && FirstCmd(DMA, READ) == Cmd(READ, Main);
    assert h.(warned := h.warned || h.cmd.Some?) == h;
    hide Issue, SetError, Accept, OnTheBus, Boot, FirstCmd;
    Sent();
  }

  lemma Sent()
    ensures var h := Boot(DMA).(obj := map[READ := FRESH], out := {READ});
      SetError(h, Cmd(READ, Main), false) == h && Issue(h, Cmd(READ, Main)) == OnTheBus()
  {
    var h := Boot(DMA).(obj := map[READ := FRESH], out := {READ});
    assert SetError(h, Cmd(READ, Main), false).obj == h.obj;
    assert Issue(h, Cmd(READ, Main)).obj == OnTheBus().obj;
  }

  lemma TimedOut()
    ensures Apply(OnTheBus(), DataTimeout(true, FREE)) == InItsSlot()
  {
    var h := Apply(OnTheBus(), DataTimeout(true, FREE));
    assert h.obj == InItsSlot().obj;
  }

  lemma Interrupted()
    ensures Apply(InItsSlot(), Interrupt([Round(SILENT, FREE, FREE)])) == Woken()
  {
    var h := InItsSlot();
    var rounds := [Round(SILENT, FREE, FREE)];
    assert rounds[..0] == [];
    assert IrqRounds(h, rounds) == h;
    assert DeferDone(h, READ);
  }

  lemma WorkerUnmapped()
    ensures var h := Drains();
      Enabled(h, WorkerStep) && Apply(h, WorkerStep) == WorkerUnmaps()
  {
    var h := Drains();
    assert Apply(h, WorkerStep).obj == WorkerUnmaps().obj;
  }

  /** Nothing but the assumption of a single drainer keeps a request from being unmapped twice:
      the interrupt thread can be about to drain while the worker is in its unlocked window. */
  lemma SecondDrainerReachable() returns (states: seq<Host>, steps: seq<Step>)
    ensures |states| == 7 && IsRun(DMA, states, steps)
    ensures var h := states[6];
      && h.thread == Drain(Draining) && WorkerInWindow(h)
      && Look(h, READ).data.unmaps == 1 && Look(DrainStep(h).0, READ).data.unmaps == 2
  {
    Submitted();
    TimedOut();
    Interrupted();
    WorkerUnmapped();
    Starting();
    TwiceUnmapped();
    Anytime(OnTheBus());
    Anytime(InItsSlot());
    JustBooted();
    states, steps := [Boot(DMA)], [];
    hide *;
    states, steps := Extend(DMA, states, steps, Submits(READ, true, FREE));
    states, steps := Extend(DMA, states, steps, DataTimeout(true, FREE));
    states, steps := Extend(DMA, states, steps, Interrupt([Round(SILENT, FREE, FREE)]));
    states, steps := Extend(DMA, states, steps, WorkerStarts);
    states, steps := Extend(DMA, states, steps, WorkerStep);
    states, steps := Extend(DMA, states, steps, ThreadStarts);
  }

  lemma Starting()
    ensures Enabled(Woken(), WorkerStarts) && Apply(Woken(), WorkerStarts) == Drains()
    ensures Enabled(WorkerUnmaps(), ThreadStarts) && Apply(WorkerUnmaps(), ThreadStarts) == BothDrain()
  {
  }

  lemma JustBooted()
    ensures IsRun(DMA, [Boot(DMA)], [])
  {
  }

  lemma Anytime(h: Host)
    ensures Enabled(h, DataTimeout(true, FREE)) && Enabled(h, Interrupt([Round(SILENT, FREE, FREE)]))
  {
  }

  lemma Extend(cfg: Config, states: seq<Host>, steps: seq<Step>, s: Step)
      returns (states': seq<Host>, steps': seq<Step>)
    requires IsRun(cfg, states, steps) && Enabled(states[|states| - 1], s)
    ensures states' == states + [Apply(states[|states| - 1], s)] && steps' == steps + [s]
    ensures IsRun(cfg, states', steps')
  {
    hide Apply, Enabled, Boot;
    states', steps' := states + [Apply(states[|states| - 1], s)], steps + [s];
  }

  lemma TwiceUnmapped()
    ensures var h := BothDrain();
      && h.thread == Drain(Draining) && WorkerInWindow(h)
      && Look(h, READ).data.unmaps == 1 && Look(DrainStep(h).0, READ).data.unmaps == 2
  {
  }

  // ---------------------------------------------------------------- refused before mapping

  const REFUSED := FRESH.(main := CmdRec(true, 0, 0, 0), finishes := 1)

  function Rejected(): Host {
    Boot(DMA).(slot0 := Some(READ), pendingReset := true, workQueued := true,
               obj := map[READ := REFUSED], out := {READ})
  }

  function RejectedDrains(): Host {
    Rejected().(workQueued := false, worker := Draining)
  }

  /** A request rejected because the card is gone is handed back without its data ever being
      unmapped: whatever its buffers were prepared with stays with the caller. */
  lemma RejectedNeverUnmapped() returns (states: seq<Host>, steps: seq<Step>)
    ensures |states| == 4 && IsRun(DMA, states, steps)
    ensures READ in states[3].obj
    ensures var rec := states[3].obj[READ];
      rec.returned == 1 && rec.main.error && rec.data.maps == 0 && rec.data.unmaps == 0
  {
    RejectedAtOnce();
    RejectedTaken();
    RejectedReturned();
    JustBooted();
    states, steps := [Boot(DMA)], [];
    hide *;
    states, steps := Extend(DMA, states, steps, Submits(READ, false, FREE));
    states, steps := Extend(DMA, states, steps, WorkerStarts);
    states, steps := Extend(DMA, states, steps, WorkerStep);
  }

  lemma RejectedTaken()
    ensures Enabled(Rejected(), WorkerStarts) && Apply(Rejected(), WorkerStarts) == RejectedDrains()
  {
  }

  lemma RejectedReturned()
    ensures Enabled(RejectedDrains(), WorkerStep)
    ensures var h := Apply(RejectedDrains(), WorkerStep);
      && READ in h.obj && var rec := h.obj[READ];
      rec.returned == 1 && rec.main.error && rec.data.maps == 0 && rec.data.unmaps == 0
  {
  }

  lemma RejectedAtOnce()
    ensures var s := Submits(READ, false, FREE);
      Enabled(Boot(DMA), s) && Apply(Boot(DMA), s) == Rejected()
  {
    var h := Apply(Boot(DMA), Submits(READ, false, FREE));
    assert h.obj == Rejected().obj;
  }

  // ---------------------------------------------------------------- an error nobody records

  const AUTO := Config(false, false, false, true, true, false)

  /** A read that lets other commands pass once it has been answered, and such a command. */
  const LONG := READ.(cap := true)
  const PING := Request(1, false, false, false, false, false, false, false, false, false)

  const ANSWER := SILENT.(response := true)
  const STRAY := SILENT.(crc := true, autoErr := true)

  const UNDERWAY := FRESH.(main := CmdRec(false, 1, 1, 0), data := DataRec(false, true, 0, 1, 0), cmdDone := true)
  const PINGED := FRESH.(main := CmdRec(false, 1, 0, 0))

  function LongSent(): Host {
    Boot(AUTO).(cmd := Some(Cmd(LONG, Main)), dataCmd := Some(Cmd(LONG, Main)), data := Some(LONG),
                reqUseDma := true, dataTimer := true, obj := map[LONG := ISSUED], out := {LONG})
  }

  function LongAnswered(): Host {
    LongSent().(cmd := None, obj := map[LONG := UNDERWAY])
  }

  function PingSent(): Host {
    LongAnswered().(cmd := Some(Cmd(PING, Main)), timer := true, obj := map[LONG := UNDERWAY, PING := PINGED],
                    out := {LONG, PING})
  }

  lemma LongIsSent()
    ensures var s := Submits(LONG, true, FREE);
      Enabled(Boot(AUTO), s) && Apply(Boot(AUTO), s) == LongSent()
  {
    LongStarts();
    hide Issue, SetError, Accept, LongSent, Boot, FirstCmd, Enabled;
  }

  lemma LongStarts()
    ensures var h := Boot(AUTO).(obj := map[LONG := FRESH], out := {LONG});
      && Accept(Boot(AUTO), LONG) == h && FirstCmd(AUTO, LONG) == Cmd(LONG, Main)
      && SetError(h, Cmd(LONG, Main), false).(warned := h.warned || h.cmd.Some?) == h
      && Issue(h, Cmd(LONG, Main)) == LongSent()
      && !Boot(AUTO).dead && Boot(AUTO).cfg == AUTO && !Refused(Cmd(LONG, Main), FREE)
      && Enabled(Boot(AUTO), Submits(LONG, true, FREE))
  {
    var h := Boot(AUTO).(obj := map[LONG := FRESH], out := {LONG});
    assert SetError(h, Cmd(LONG, Main), false).obj == h.obj;
    assert Issue(h, Cmd(LONG, Main)).obj == LongSent().obj;
  }

  lemma LongIsAnswered()
    ensures Apply(LongSent(), Interrupt([Round(ANSWER, FREE, FREE)])) == LongAnswered()
  {
    var h := LongSent();
    var rounds := [Round(ANSWER, FREE, FREE)];
    assert rounds[..0] == [];
    assert Respond(h).obj == LongAnswered().obj;
    assert FinishCommand(h, FREE) == LongAnswered();
    assert IrqRounds(h, rounds) == IrqRound(h, rounds[0]) == LongAnswered();
  }

  lemma PingStarts()
    ensures var h := LongAnswered().(obj := map[LONG := UNDERWAY, PING := FRESH], out := {LONG, PING});
      && Accept(LongAnswered(), PING) == h && FirstCmd(AUTO, PING) == Cmd(PING, Main)
      && SetError(h, Cmd(PING, Main), false).(warned := h.warned || h.cmd.Some?) == h
      && Issue(h, Cmd(PING, Main)) == PingSent()
      && !LongAnswered().dead && LongAnswered().cfg == AUTO && !Refused(Cmd(PING, Main), FREE)
      && Enabled(LongAnswered(), Submits(PING, true, FREE))
  {
    var h := LongAnswered().(obj := map[LONG := UNDERWAY, PING := FRESH], out := {LONG, PING});
    assert LONG != PING;
    assert Accept(LongAnswered(), PING).obj == h.obj && Accept(LongAnswered(), PING).out == h.out;
    assert SetError(h, Cmd(PING, Main), false).obj == h.obj;
    assert Issue(h, Cmd(PING, Main)).obj == PingSent().obj;
  }

  lemma PingIsSent()
    ensures var s := Submits(PING, true, FREE);
      Enabled(LongAnswered(), s) && Apply(LongAnswered(), s) == PingSent()
  {
    PingStarts();
    hide Issue, SetError, Accept, LongAnswered, PingSent, FirstCmd, Enabled;
  }

  /** A command beside a long transfer, and a reading that reports a wrong CRC of its response
      together with an Auto CMD error: the command's record does not change. */
  lemma MissedReachable() returns (states: seq<Host>, steps: seq<Step>)
    ensures |states| == 4 && IsRun(AUTO, states, steps)
    ensures states[3].cmd == Some(Cmd(PING, Main)) && STRAY.crc
    ensures Look(IrqRound(states[3], Round(STRAY, FREE, FREE)), PING) == Look(states[3], PING) == PINGED
  {
    LongIsSent();
    LongIsAnswered();
    PingIsSent();
    AnyInterrupt(LongSent());
    AutoBooted();
    PingWaits();
    states, steps := [Boot(AUTO)], [];
    hide *;
    states, steps := Extend(AUTO, states, steps, Submits(LONG, true, FREE));
    states, steps := Extend(AUTO, states, steps, Interrupt([Round(ANSWER, FREE, FREE)]));
    states, steps := Extend(AUTO, states, steps, Submits(PING, true, FREE));
    RunKeeps(AUTO, states, steps, 3);
    CommandErrorMissed(PingSent(), Round(STRAY, FREE, FREE), Cmd(PING, Main));
  }

  lemma AnyInterrupt(h: Host)
    ensures Enabled(h, Interrupt([Round(ANSWER, FREE, FREE)]))
  {
  }

  lemma AutoBooted()
    ensures IsRun(AUTO, [Boot(AUTO)], [])
  {
  }

  lemma PingWaits()
    ensures var h := PingSent();
      && h.cmd == Some(Cmd(PING, Main)) && Auto12Error(h, STRAY) && !Owns(h.dataCmd, PING)
      && Look(h, PING) == PINGED && CmdErrorRead(STRAY) && STRAY.crc
  {
    assert LONG != PING;
  }
}
