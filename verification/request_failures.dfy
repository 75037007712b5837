/** What the timers, the removal of the card and the end of a dead controller do to what is on the
    bus, and what they leave alone. */
module RequestFailures {
  import opened Options
  import opened RequestModel
  import opened RequestInvariant
  import opened RequestStatus
  import opened RequestRetries

  /** The request is in a slot, finished with an error at the moment `now`. */
  predicate Struck(h: Host, r: Request, now: Mark) {
    && (h.slot0 == Some(r) || h.slot1 == Some(r)) && h.workQueued
    && var rec := Look(h, r);
    rec.finishes == 1 && rec.finished == now && !ErrorFree(rec)
  }

  /** A request that is not on the bus is where it was, with the record it had. */
  predicate Spares(h: Host, h': Host, q: Request) {
    Look(h', q) == Look(h, q) && PlaceOf(h', q) == PlaceOf(h, q)
  }

  ghost predicate BusCleared(h: Host, h': Host, now: Mark) {
    && h'.cmd.None? && h'.dataCmd.None? && h'.data.None?
    && (forall r :: OnBus(h, r) ==> Struck(h', r, now))
    && (forall q :: !OnBus(h, q) ==> Spares(h, h', q))
  }

  // ---------------------------------------------------------------- one request

  function Failed(h: Host, f: Cmd): Host {
    FinishMrqQueued(SetError(h, f, true), f.mrq)
  }

  lemma FailedLine(h: Host, f: Cmd)
    ensures var h' := Failed(h, f);
      && h'.cmd == (if Owns(h.cmd, f.mrq) then None else h.cmd)
      && h'.dataCmd == (if Owns(h.dataCmd, f.mrq) then None else h.dataCmd)
      && h'.data == (if h.data == Some(f.mrq) then None else h.data)
      && Now(h') == Now(h) && h'.workQueued
  {
    hide Look, WithCmd, CmdOf, SlotTrouble, NeedsReset, DataLine;
  }

  lemma FailedRecord(h: Host, f: Cmd)
    requires Look(h, f.mrq).finishes == 0 && Look(h, f.mrq).returned == 0
    ensures var rec := Look(Failed(h, f), f.mrq);
      rec.finishes == 1 && rec.finished == Now(h) && !ErrorFree(rec) && rec.returned == 0 && f.mrq in Failed(h, f).obj
  {
    hide SlotTrouble, NeedsReset, DataLine;
  }

  lemma FailedSpares(h: Host, f: Cmd, q: Request)
    requires q != f.mrq
    ensures var h' := Failed(h, f);
      && Look(h', q) == Look(h, q) && OnBus(h', q) == OnBus(h, q)
      && (!OnBus(h, q) ==> PlaceOf(h', q) == PlaceOf(h, q))
  {
    hide WithCmd, CmdOf, NeedsReset, DataLine;
  }

  lemma OnBusRecord(h: Host, r: Request)
    requires Inv(h) && OnBus(h, r)
    ensures Look(h, r).finishes == 0 && Look(h, r).returned == 0
  {
    Pick(h, r);
    hide Inv, ReqInv, Base;
  }

  lemma FailedKeeps(h: Host, f: Cmd)
    requires Inv(h) && OnBus(h, f.mrq)
    ensures Inv(Failed(h, f))
  {
    Pick(h, f.mrq);
    BusMidway(h, f.mrq);
    hide Base, Loose, Midway, FinishMrqQueued, SetError, PlaceOf, ReqInv;
    FailQueued(h, f);
  }

  lemma FailedStruck(h: Host, f: Cmd)
    requires Inv(h) && OnBus(h, f.mrq)
    ensures Inv(Failed(h, f)) && Struck(Failed(h, f), f.mrq, Now(h))
  {
    hide *;
    FailedKeeps(h, f);
    OnBusRecord(h, f.mrq);
    FailedRecord(h, f);
    FailedLine(h, f);
    Lodged(Failed(h, f), f.mrq);
    StruckIs(Failed(h, f), f.mrq, Now(h));
  }

  lemma StruckIs(h: Host, r: Request, now: Mark)
    requires (h.slot0 == Some(r) || h.slot1 == Some(r)) && h.workQueued
    requires var rec := Look(h, r); rec.finishes == 1 && rec.finished == now && !ErrorFree(rec)
    ensures Struck(h, r, now)
  {
  }

  // ---------------------------------------------------------------- everything on the bus

  lemma StaysStruck(h: Host, f: Cmd, r: Request, now: Mark)
    requires Struck(h, r, now) && r != f.mrq && !OnBus(h, r)
    ensures Struck(Failed(h, f), r, now)
  {
    FailedSpares(h, f, r);
    FailedLine(h, f);
    SlotOf(h, r);
    SlotOf(Failed(h, f), r);
    hide Failed, Look, PlaceOf;
  }

  lemma SlotOf(h: Host, r: Request)
    ensures PlaceOf(h, r).slots >= 1 <==> h.slot0 == Some(r) || h.slot1 == Some(r)
  {
    hide Unmapping, Asleep, DataLine, OnBus;
  }

  lemma OneStruck(h: Host, f: Cmd)
    requires Inv(h) && OnBus(h, f.mrq) && forall r :: OnBus(h, r) ==> r == f.mrq
    requires var h' := Failed(h, f); h'.cmd.None? && h'.dataCmd.None? && h'.data.None?
    ensures BusCleared(h, Failed(h, f), Now(h))
  {
    hide Inv, OnBus, Failed, Struck, Look, PlaceOf;
    FailedStruck(h, f);
    forall q | !OnBus(h, q) ensures Spares(h, Failed(h, f), q) { FailedSpares(h, f, q); }
  }

  lemma TwoOnBus(h: Host, f: Cmd, g: Cmd)
    requires h.dataCmd == Some(f) && h.cmd == Some(g) && f.mrq != g.mrq && (h.data.None? || h.data == Some(f.mrq))
    ensures OnBus(h, f.mrq) && OnBus(h, g.mrq) && forall r :: OnBus(h, r) ==> r == f.mrq || r == g.mrq
    ensures var h1 := Failed(h, f); Now(h1) == Now(h) && OnBus(h1, g.mrq) && !OnBus(h1, f.mrq)
    ensures var h2 := Failed(Failed(h, f), g); h2.cmd.None? && h2.dataCmd.None? && h2.data.None?
  {
    FailedLine(h, f);
    FailedLine(Failed(h, f), g);
    hide Failed, Now;
  }

  lemma BothStruck(h: Host, f: Cmd, g: Cmd)
    requires Inv(h) && h.dataCmd == Some(f) && h.cmd == Some(g) && f.mrq != g.mrq
    requires h.data.None? || h.data == Some(f.mrq)
    ensures BusCleared(h, Failed(Failed(h, f), g), Now(h))
  {
    hide Inv, OnBus, Failed, Struck, Spares, Now;
    TwoOnBus(h, f, g);
    FailedStruck(h, f);
    FailedStruck(Failed(h, f), g);
    StaysStruck(Failed(h, f), g, f.mrq, Now(h));
    forall q | !OnBus(h, q) ensures Spares(h, Failed(Failed(h, f), g), q) { TwiceSpared(h, f, g, q); }
  }

  lemma TwiceSpared(h: Host, f: Cmd, g: Cmd, q: Request)
    requires q != f.mrq && q != g.mrq && !OnBus(h, q)
    ensures Spares(h, Failed(Failed(h, f), g), q)
  {
    hide OnBus, Failed, Look, PlaceOf;
    FailedSpares(h, f, q);
    FailedSpares(Failed(h, f), g, q);
  }

  lemma OneOnBus(h: Host, f: Cmd)
    requires h.dataCmd == Some(f) || (h.dataCmd.None? && h.cmd == Some(f))
    requires (h.cmd.None? || Owns(h.cmd, f.mrq)) && (h.data.None? || h.data == Some(f.mrq))
    ensures OnBus(h, f.mrq) && forall r :: OnBus(h, r) ==> r == f.mrq
    ensures var h' := Failed(h, f); h'.cmd.None? && h'.dataCmd.None? && h'.data.None?
  {
    FailedLine(h, f);
    hide Failed;
  }

  lemma ErrorOutClears(h: Host)
    requires Inv(h)
    ensures BusCleared(h, ErrorOut(h), Now(h))
  {
    hide Inv, OnBus, Failed, BusCleared, ErrorOut, Now;
    DataOwned(h);
    ErrorOutIs(h);
    if BusEmpty(h) {
      NothingCleared(h, Now(h));
    } else {
      var f := if h.dataCmd.Some? then h.dataCmd.value else h.cmd.value;
      if h.cmd.Some? && h.cmd.value.mrq != f.mrq {
        BothStruck(h, f, h.cmd.value);
      } else {
        OneOnBus(h, f);
        OneStruck(h, f);
      }
    }
  }

  lemma DataOwned(h: Host)
    requires Inv(h)
    ensures h.data.Some? ==> h.dataCmd.Some? && h.dataCmd.value.mrq == h.data.value
  {
    hide Inv;
    if h.data.Some? { DataFacts(h, h.data.value); }
  }

  lemma ErrorOutIs(h: Host)
    ensures h.dataCmd.None? ==> ErrorOut(h) == if h.cmd.Some? then Failed(h, h.cmd.value) else h
    ensures h.dataCmd.Some? ==>
      var h1 := Failed(h, h.dataCmd.value);
      ErrorOut(h) == if h.cmd.Some? && h.cmd.value.mrq != h.dataCmd.value.mrq then Failed(h1, h.cmd.value) else h1
  {
    if h.dataCmd.Some? { FailedLine(h, h.dataCmd.value); }
    hide FinishMrqQueued, SetError;
  }

  // ---------------------------------------------------------------- removal

  /** The first half of what a removal does to a state: it moves no request. */
  lemma SameStart(h: Host, h0: Host, h': Host, now: Mark)
    requires Quiet(h, h0) && BusCleared(h0, h', now)
    ensures BusCleared(h, h', now)
  {
    forall r ensures OnBus(h0, r) == OnBus(h, r) && Look(h0, r) == Look(h, r) && PlaceOf(h0, r) == PlaceOf(h, r) {
      QuietPlaces(h, h0, r);
    }
    hide Quiet, OnBus, Struck, Look, PlaceOf;
    forall q | !OnBus(h, q) ensures Spares(h, h', q) { assert Spares(h0, h', q); }
  }

  /** Without a change nothing happens: a card that is there keeps its requests. */
  lemma CardStays(h: Host)
    ensures Apply(h, CardChanges(true)) == h
  {
    hide ErrorOut;
  }

  /** The removal of the card takes every request off the bus, into a slot, with an error, after
      both lines have been reset; nothing else is touched. */
  lemma CardRemoved(h: Host)
    requires Inv(h)
    ensures BusCleared(h, Apply(h, CardChanges(false)),
                       Mark(h.cmdResets + 1, h.dataResets + 1, h.idleResets + Bit(h.cmd.None? && h.dataCmd.None?)))
    ensures BusEmpty(h) ==> Apply(h, CardChanges(false)) == h
  {
    hide *;
    var h0 := ResetBoth(h);
    CardIs(h);
    ResetIs(h);
    if BusEmpty(h) {
      NothingCleared(h, Mark(h.cmdResets + 1, h.dataResets + 1, h.idleResets + Bit(h.cmd.None? && h.dataCmd.None?)));
    } else {
      QuietKeeps(h, h0);
      ErrorOutClears(h0);
      SameStart(h, h0, ErrorOut(h0), Now(h0));
    }
  }

  predicate BusEmpty(h: Host) {
    h.cmd.None? && h.dataCmd.None?
  }

  lemma ResetIs(h: Host)
    ensures Quiet(h, ResetBoth(h))
    ensures Now(ResetBoth(h)) ==
      Mark(h.cmdResets + 1, h.dataResets + 1, h.idleResets + Bit(h.cmd.None? && h.dataCmd.None?))
  {
  }

  lemma CardIs(h: Host)
    ensures Apply(h, CardChanges(false)) == if BusEmpty(h) then h else ErrorOut(ResetBoth(h))
  {
    hide ErrorOut, ResetBoth;
  }

  lemma NothingCleared(h: Host, now: Mark)
    requires Inv(h) && BusEmpty(h)
    ensures BusCleared(h, h, now)
  {
    DataOwned(h);
    hide Inv, Look, PlaceOf, Struck;
  }

  /** The end of a dead controller does the same without a reset. */
  lemma ControllerDies(h: Host)
    requires Inv(h)
    ensures var h' := Apply(h, Dies); h'.dead && BusCleared(h, h', Now(h))
  {
    hide *;
    var h0 := h.(dead := true);
    DyingIs(h);
    QuietKeeps(h, h0);
    ErrorOutClears(h0);
    SameStart(h, h0, ErrorOut(h0), Now(h0));
    DeadStays(h0);
  }

  lemma DyingIs(h: Host)
    ensures var h0 := h.(dead := true); Quiet(h, h0) && Now(h0) == Now(h) && Apply(h, Dies) == ErrorOut(h0)
  {
    hide ErrorOut;
  }

  lemma DeadStays(h: Host)
    ensures ErrorOut(h).dead == h.dead
  {
    ErrorOutIs(h);
    hide ErrorOut, FinishMrqQueued, SetError;
    if h.dataCmd.Some? { FailedDead(h, h.dataCmd.value); }
    if h.cmd.Some? {
      FailedDead(h, h.cmd.value);
      if h.dataCmd.Some? { FailedDead(Failed(h, h.dataCmd.value), h.cmd.value); }
    }
  }

  lemma FailedDead(h: Host, f: Cmd)
    ensures Failed(h, f).dead == h.dead
  {
    hide Look, WithCmd, CmdOf, SlotTrouble, NeedsReset, DataLine;
  }

  // ---------------------------------------------------------------- timers

  /** The command timer never touches a request that holds the data line. */
  lemma CmdTimerSparesData(h: Host, q: Request, expired: bool)
    requires Inv(h) && (h.data == Some(q) || Owns(h.dataCmd, q))
    ensures Look(Apply(h, CmdTimeout(expired)), q) == Look(h, q)
  {
    hide Inv, Look, Apply, TimeoutTimer, Failed, DataLine;
    var h0 := h.(timer := h.timer && !expired);
    LineHolder(h, q);
    TimersApply(h, expired, Lines(false, false));
    RearmedLook(h, h.timer && !expired, false, q);
    CmdTimerIs(h0);
    if h.cmd.Some? && h.cmd.value.mrq != q { FailedSpares(h0, h.cmd.value, q); }
  }

  lemma CmdTimerIs(h: Host)
    ensures TimeoutTimer(h) == if h.cmd.Some? && !DataLine(h.cmd.value) then Failed(h, h.cmd.value) else h
  {
    hide FinishMrqQueued, SetError, DataLine;
  }

  lemma LineHolder(h: Host, q: Request)
    requires Inv(h) && (h.data == Some(q) || Owns(h.dataCmd, q))
    ensures Owns(h.cmd, q) ==> DataLine(h.cmd.value)
  {
    hide Inv;
    if h.data.Some? {
      DataFacts(h, h.data.value);
    } else {
      BusyCommand(h, h.dataCmd.value);
    }
  }

  /** The data timer never touches a request that needs no data line. */
  lemma DataTimerSparesLone(h: Host, q: Request, expired: bool, l: Lines)
    requires Inv(h) && q in h.out && !q.hasData && !q.busy
    ensures Look(Apply(h, DataTimeout(expired, l)), q) == Look(h, q)
  {
    hide Inv, Look, Apply, TimeoutDataTimer, Failed, DataLine, FinishData, SetDataError;
    var h0 := h.(dataTimer := h.dataTimer && !expired);
    LoneCmd(h, q);
    TimersApply(h, expired, l);
    RearmedLook(h, false, h.dataTimer && !expired, q);
    DataTimerIs(h0, l);
    if h.data.Some? {
      TimedSpares(h0, l, q);
    } else if h.dataCmd.Some? {
      FailedSpares(h0, h.dataCmd.value, q);
    } else if h.cmd.Some? && DataLine(h.cmd.value) {
      FailedSpares(h0, h.cmd.value, q);
    }
  }

  lemma DataTimerIs(h: Host, l: Lines)
    ensures var h' := TimeoutDataTimer(h, l);
      && (h.data.Some? ==> h' == FinishData(SetDataError(h, h.data.value), true, l).(workQueued := true))
      && (h.data.None? && h.dataCmd.Some? ==> h' == Failed(h, h.dataCmd.value))
      && (h.data.None? && h.dataCmd.None? ==>
            h' == if h.cmd.Some? && DataLine(h.cmd.value) then Failed(h, h.cmd.value) else h)
  {
    hide FinishMrqQueued, SetError, FinishData, SetDataError, DataLine;
  }

  lemma TimersApply(h: Host, expired: bool, l: Lines)
    ensures Apply(h, CmdTimeout(expired)) == TimeoutTimer(h.(timer := h.timer && !expired))
    ensures Apply(h, DataTimeout(expired, l)) == TimeoutDataTimer(h.(dataTimer := h.dataTimer && !expired), l)
  {
    hide TimeoutTimer, TimeoutDataTimer;
  }

  lemma RearmedLook(h: Host, timer: bool, dataTimer: bool, q: Request)
    ensures Look(h.(timer := timer), q) == Look(h, q) && Look(h.(dataTimer := dataTimer), q) == Look(h, q)
  {
  }

  lemma LoneCmd(h: Host, q: Request)
    requires Inv(h) && q in h.out && !q.hasData && !q.busy
    ensures h.data != Some(q) && !Owns(h.dataCmd, q) && (Owns(h.cmd, q) ==> !DataLine(h.cmd.value))
  {
    AllKnown(h);
    hide Inv, ReqInv;
    LoneBooks(h, q);
  }

  lemma LoneBooks(h: Host, q: Request)
    requires ReqInv(h, q) && !q.hasData && !q.busy
    ensures h.data != Some(q) && !Owns(h.dataCmd, q) && (Owns(h.cmd, q) ==> !DataLine(h.cmd.value))
  {
    hide MapInv, ResetInv, Outcome, Unmapping, Asleep, Look;
  }

  lemma TimedSpares(h: Host, l: Lines, q: Request)
    requires h.data.Some? && h.data.value != q
    ensures var h1 := SetDataError(h, h.data.value);
      h1.data.Some? && Look(FinishData(h1, true, l).(workQueued := true), q) == Look(h, q)
  {
    var r := h.data.value;
    var h1 := SetDataError(h, r);
    DataErrorSpares(h, r, q);
    var h2 := ReleaseData(h1);
    var h3 := h2.(cmd := None);
    assert Look(h2, q) == Look(h1, q) && Look(h3, q) == Look(h1, q);
    var c := Cmd(r, Stop);
    var h4 := Send(h3, c, l).0;
    assert FinishData(h1, true, l) in {FinishMrq(h2, r), h4, FinishMrq(SetError(h4, c, true), r)}
      by { hide Look, ReleaseData, FinishMrq, Send, SetError, SetDataError, WantsStop; }
    QueuedLook(FinishData(h1, true, l), q);
    hide Look, ReleaseData, FinishMrq, Send, SetError, SetDataError, FinishData;
    FinishLook(h2, r, q);
    SendSpares(h3, c, l, q);
    FailLook(h4, c, q);
  }

  lemma QueuedLook(h: Host, q: Request)
    ensures Look(h.(workQueued := true), q) == Look(h, q)
  {
  }
}
