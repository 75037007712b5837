/** Where the errors of a request come from, and that they stay; when a command may be written. */
module RequestErrors {
  import opened Options
  import opened RequestModel
  import opened RequestInvariant

  // ---------------------------------------------------------------- what a record tells

  /** The error fields of a request, and how often each of its commands has been written. */
  datatype Story = Story(sbc: bool, main: bool, stop: bool, data: bool, sbcs: nat, mains: nat, stops: nat)

  function Telling(rec: Rec): Story {
    Story(rec.sbc.error, rec.main.error, rec.stop.error, rec.data.error,
          rec.sbc.issued, rec.main.issued, rec.stop.issued)
  }

  function StoryOf(h: Host, r: Request): Story {
    Telling(Look(h, r))
  }

  /** CMD_INHIBIT keeps every command back, DATA_INHIBIT those that need the data line, except
      a stop command. */
  predicate Permits(l: Lines, c: Cmd) {
    !l.cmdInhibit && !(l.dataInhibit && c.role == Main && (c.mrq.hasData || c.mrq.busy))
  }

  predicate SomePermits(ls: set<Lines>, c: Cmd) {
    exists l :: l in ls && Permits(l, c)
  }

  /** From `a` to `b` no error is forgotten (`clean`), none is added (`fair`), and every command
      written was permitted by one of the readings `ls`. */
  predicate Told(r: Request, a: Story, b: Story, clean: bool, fair: bool, ls: set<Lines>) {
    && (clean ==> (a.sbc ==> b.sbc) && (a.main ==> b.main) && (a.stop ==> b.stop) && (a.data ==> b.data))
    && (fair ==> (b.sbc ==> a.sbc) && (b.main ==> a.main) && (b.stop ==> a.stop) && (b.data ==> a.data))
    && (b.sbcs > a.sbcs ==> SomePermits(ls, Cmd(r, Sbc)))
    && (b.mains > a.mains ==> SomePermits(ls, Cmd(r, Main)))
    && (b.stops > a.stops ==> SomePermits(ls, Cmd(r, Stop)))
  }

  ghost predicate Tells(h: Host, h': Host, clean: bool, fair: bool, ls: set<Lines>) {
    forall r :: Told(r, StoryOf(h, r), StoryOf(h', r), clean, fair, ls)
  }

  ghost predicate Same(h: Host, h': Host) {
    forall r :: StoryOf(h', r) == StoryOf(h, r)
  }

  lemma Then(h: Host, h': Host, h'': Host, clean: bool, fair: bool, ls: set<Lines>)
    requires Tells(h, h', clean, fair, ls) && Tells(h', h'', clean, fair, ls)
    ensures Tells(h, h'', clean, fair, ls)
  {
    hide StoryOf, SomePermits;
    forall r ensures Told(r, StoryOf(h, r), StoryOf(h'', r), clean, fair, ls) {
      assert Told(r, StoryOf(h, r), StoryOf(h', r), clean, fair, ls);
      assert Told(r, StoryOf(h', r), StoryOf(h'', r), clean, fair, ls);
    }
  }

  lemma SameTells(h: Host, h': Host, clean: bool, fair: bool, ls: set<Lines>)
    requires Same(h, h')
    ensures Tells(h, h', clean, fair, ls)
  {
    hide StoryOf, SomePermits;
  }

  lemma SameThen(h: Host, h': Host, h'': Host, clean: bool, fair: bool, ls: set<Lines>)
    requires Same(h, h') && Tells(h', h'', clean, fair, ls)
    ensures Tells(h, h'', clean, fair, ls)
  {
    hide StoryOf, Told;
  }

  lemma ThenSame(h: Host, h': Host, h'': Host, clean: bool, fair: bool, ls: set<Lines>)
    requires Tells(h, h', clean, fair, ls) && Same(h', h'')
    ensures Tells(h, h'', clean, fair, ls)
  {
    hide StoryOf, Told;
  }

  lemma Widen(h: Host, h': Host, clean: bool, fair: bool, ls: set<Lines>, ms: set<Lines>)
    requires Tells(h, h', clean, fair, ls) && ls <= ms
    ensures Tells(h, h', clean, fair, ms)
  {
    hide StoryOf;
    forall r ensures Told(r, StoryOf(h, r), StoryOf(h', r), clean, fair, ms) {
      assert Told(r, StoryOf(h, r), StoryOf(h', r), clean, fair, ls);
    }
  }

  /** Two states with the same books. */
  lemma SameObj(h: Host, h': Host)
    requires h'.obj == h.obj
    ensures Same(h, h')
  {
  }

  lemma StoreSame(h: Host, h': Host, r: Request, rec: Rec)
    requires h'.obj == h.obj[r := rec] && Telling(rec) == StoryOf(h, r)
    ensures Same(h, h')
  {
  }

  // ---------------------------------------------------------------- routines

  lemma FinishSame(h: Host, r: Request)
    ensures Same(h, FinishMrq(h, r)) && Same(h, FinishMrqQueued(h, r))
  {
    var rec := Look(h, r);
    var done := rec.(finishes := rec.finishes + 1, finished := Mark(h.cmdResets, h.dataResets, h.idleResets));
    assert Telling(done) == Telling(rec);
    hide Same, Telling, Look, SlotTrouble, NeedsReset, DataLine;
    StoreSame(h, FinishMrq(h, r), r, done);
    StoreSame(h, FinishMrqQueued(h, r), r, done);
  }

  lemma StoreTells(h: Host, h': Host, r: Request, rec: Rec, clean: bool, fair: bool, ls: set<Lines>)
    requires h'.obj == h.obj[r := rec] && Told(r, StoryOf(h, r), Telling(rec), clean, fair, ls)
    ensures Tells(h, h', clean, fair, ls)
  {
    hide Telling, SomePermits;
  }

  lemma ErrorTells(h: Host, c: Cmd, clean: bool, ls: set<Lines>)
    ensures Tells(h, SetError(h, c, true), clean, false, ls)
    ensures SetError(h, c, true) == h.(obj := SetError(h, c, true).obj)
  {
    var rec := Look(h, c.mrq);
    var rec' := WithCmd(rec, c.role, CmdOf(rec, c.role).(error := true));
    assert Told(c.mrq, Telling(rec), Telling(rec'), clean, false, ls);
    hide Tells, Told, Look, Telling, WithCmd, CmdOf;
    StoreTells(h, SetError(h, c, true), c.mrq, rec', clean, false, ls);
  }

  lemma DataErrorTells(h: Host, r: Request, clean: bool, ls: set<Lines>)
    ensures Tells(h, SetDataError(h, r), clean, false, ls)
    ensures SetDataError(h, r) == h.(obj := SetDataError(h, r).obj)
  {
    var rec := Look(h, r);
    var rec' := rec.(data := rec.data.(error := true));
    assert Told(r, Telling(rec), Telling(rec'), clean, false, ls);
    hide Tells, Told, Look, Telling;
    StoreTells(h, SetDataError(h, r), r, rec', clean, false, ls);
  }

  /** Failing a request: one error more, and none less. */
  lemma FailTells(h: Host, c: Cmd, clean: bool, ls: set<Lines>)
    ensures Tells(h, FinishMrq(SetError(h, c, true), c.mrq), clean, false, ls)
    ensures Tells(h, FinishMrqQueued(SetError(h, c, true), c.mrq), clean, false, ls)
  {
    var h1 := SetError(h, c, true);
    hide Tells, Same, SetError, FinishMrq, FinishMrqQueued;
    ErrorTells(h, c, clean, ls);
    FinishSame(h1, c.mrq);
    ThenSame(h, h1, FinishMrq(h1, c.mrq), clean, false, ls);
    ThenSame(h, h1, FinishMrqQueued(h1, c.mrq), clean, false, ls);
  }

  lemma ClearTells(h: Host, c: Cmd, clean: bool, fair: bool, ls: set<Lines>)
    requires clean ==> !CmdOf(Look(h, c.mrq), c.role).error
    ensures Tells(h, SetError(h, c, false).(warned := h.warned || h.cmd.Some?), clean, fair, ls)
  {
    var rec := Look(h, c.mrq);
    var rec' := WithCmd(rec, c.role, CmdOf(rec, c.role).(error := false));
    assert Told(c.mrq, Telling(rec), Telling(rec'), clean, fair, ls);
    hide Tells, Told, Look, Telling, WithCmd, CmdOf;
    StoreTells(h, SetError(h, c, false).(warned := h.warned || h.cmd.Some?), c.mrq, rec', clean, fair, ls);
  }

  lemma IssueTells(h: Host, c: Cmd, l: Lines, clean: bool, fair: bool, ls: set<Lines>)
    requires Permits(l, c) && l in ls
    ensures Tells(h, Issue(h, c), clean, fair, ls)
  {
    var rec := Look(h, c.mrq);
    assert SomePermits(ls, c);
    assert Told(c.mrq, Telling(rec), Telling(IssuedRec(h.cfg, c, rec)), clean, fair, ls);
    hide Tells, Told, Look, Telling, IssuedRec, DataLine, CarriesData;
    StoreTells(h, Issue(h, c), c.mrq, IssuedRec(h.cfg, c, rec), clean, fair, ls);
  }

  /** A command is refused exactly when the inhibit bits do not permit it. */
  lemma RefusedIs(c: Cmd, l: Lines)
    ensures Refused(c, l) <==> !Permits(l, c)
  {
  }

  lemma SendTells(h: Host, c: Cmd, l: Lines, clean: bool, fair: bool, ls: set<Lines>)
    requires clean ==> !CmdOf(Look(h, c.mrq), c.role).error
    requires l in ls
    ensures Tells(h, Send(h, c, l).0, clean, fair, ls) && Send(h, c, l).1 == Permits(l, c)
  {
    RefusedIs(c, l);
    var cleared := SetError(h, c, false).(warned := h.warned || h.cmd.Some?);
    hide Tells, Told, SetError, Issue, Refused, Permits, CmdOf, Look;
    ClearTells(h, c, clean, fair, ls);
    if Permits(l, c) {
      IssueTells(cleared, c, l, clean, fair, ls);
      Then(h, cleared, Issue(cleared, c), clean, fair, ls);
    }
  }

  lemma ReleaseSame(h: Host)
    requires h.data.Some?
    ensures Same(h, ReleaseData(h)) && Same(h, ReleaseData(h).(cmd := None))
    ensures ReleaseData(h).obj == h.obj && ReleaseData(h).cfg == h.cfg
  {
    hide Look, Same;
    SameObj(h, ReleaseData(h));
    SameObj(h, ReleaseData(h).(cmd := None));
  }

  lemma FinishDataTells(h: Host, swTimeout: bool, l: Lines, clean: bool, fair: bool, ls: set<Lines>)
    requires h.data.Some? && l in ls && (clean ==> !StoryOf(h, h.data.value).stop) && (fair ==> !swTimeout)
    ensures Tells(h, FinishData(h, swTimeout, l), clean, fair, ls)
  {
    var r := h.data.value;
    var h1 := ReleaseData(h);
    ReleaseSame(h);
    hide Tells, Same, Look, SetError, FinishMrq, ReleaseData, WantsStop, Send, StoryOf, Defer;
    FinishSame(h1, r);
    SameTells(h1, FinishMrq(h1, r), clean, fair, ls);
    SameThen(h, h1, FinishMrq(h1, r), clean, fair, ls);
    StopTells(h, l, clean, fair, ls);
  }

  lemma StopTells(h: Host, l: Lines, clean: bool, fair: bool, ls: set<Lines>)
    requires h.data.Some? && l in ls && (clean ==> !StoryOf(h, h.data.value).stop)
    ensures var c := Cmd(h.data.value, Stop);
            var h3 := Send(ReleaseData(h).(cmd := None), c, l).0;
      && Tells(h, h3, clean, fair, ls) && Tells(h, Defer(h3, c), clean, fair, ls)
      && (!fair ==> Tells(h, FinishMrq(SetError(h3, c, true), c.mrq), clean, fair, ls))
  {
    var c := Cmd(h.data.value, Stop);
    var h2 := ReleaseData(h).(cmd := None);
    var h3 := Send(h2, c, l).0;
    ReleaseSame(h);
    SameAt(h, h2, c.mrq);
    assert StoryOf(h2, c.mrq).stop == CmdOf(Look(h2, c.mrq), Stop).error;
    assert Defer(h3, c).obj == h3.obj;
    hide Tells, Same, Look, SetError, FinishMrq, ReleaseData, Send, StoryOf, CmdOf, Defer;
    SendTells(h2, c, l, clean, fair, ls);
    SameThen(h, h2, h3, clean, fair, ls);
    SameObj(h3, Defer(h3, c));
    ThenSame(h, h3, Defer(h3, c), clean, fair, ls);
    if !fair {
      FailTells(h3, c, clean, ls);
      Then(h, h3, FinishMrq(SetError(h3, c, true), c.mrq), clean, fair, ls);
    }
  }

  lemma AnsweredTelling(c: Cmd, rec: Rec)
    ensures Telling(Answered(c, rec)) == Telling(rec)
  {
  }

  lemma RespondObj(h: Host)
    requires h.cmd.Some?
    ensures var c := h.cmd.value; Respond(h).obj == h.obj[c.mrq := Answered(c, Look(h, c.mrq))]
    ensures Respond(h).data == h.data && Respond(h).dataEarly == h.dataEarly && Respond(h).cfg == h.cfg
  {
    hide WithCmd, CmdOf, Look;
  }

  lemma RespondSame(h: Host)
    requires h.cmd.Some?
    ensures Same(h, Respond(h))
    ensures Respond(h).data == h.data && Respond(h).dataEarly == h.dataEarly && Respond(h).cfg == h.cfg
  {
    var c := h.cmd.value;
    RespondObj(h);
    AnsweredTelling(c, Look(h, c.mrq));
    hide Same, Telling, Look, Respond, Answered;
    StoreSame(h, Respond(h), c.mrq, Answered(c, Look(h, c.mrq)));
  }

  /** What the next command of a request on the bus finds: no error of its own. */
  ghost predicate Clear(h: Host) {
    && (h.cmd.Some? && h.cmd.value.role == Sbc ==> !StoryOf(h, h.cmd.value.mrq).main)
    && (h.data.Some? ==> !StoryOf(h, h.data.value).stop)
  }

  lemma BusClear(h: Host)
    requires Inv(h)
    ensures Clear(h)
  {
    CmdKnown(h);
    hide Inv, ReqInv;
    if h.cmd.Some? && h.cmd.value.role == Sbc { SbcClear(h, h.cmd.value.mrq); }
    if h.data.Some? { StopClear(h, h.data.value); }
  }

  lemma SbcClear(h: Host, r: Request)
    requires ReqInv(h, r) && h.cmd == Some(Cmd(r, Sbc))
    ensures !StoryOf(h, r).main
  {
    hide MapInv, ResetInv, Outcome, Unmapping, Asleep, Look;
  }

  lemma StopClear(h: Host, r: Request)
    requires ReqInv(h, r) && h.data == Some(r)
    ensures !StoryOf(h, r).stop && !StoryOf(h, r).data
  {
    hide MapInv, ResetInv, Outcome, Unmapping, Asleep, Look;
  }

  lemma FinishCommandTells(h: Host, l: Lines, clean: bool, fair: bool, ls: set<Lines>)
    requires h.cmd.Some? && l in ls && (clean ==> Clear(h))
    ensures Tells(h, FinishCommand(h, l), clean, fair, ls)
  {
    var c := h.cmd.value;
    RespondSame(h);
    hide Tells, Same, Look, Respond, FinishMrq, Send, FinishData, RspBusy, CarriesData, StoryOf, CmdOf, Defer;
    SameTells(h, Respond(h), clean, fair, ls);
    if c.role == Sbc {
      NextTells(h, l, clean, fair, ls);
    } else {
      RestTells(h, l, clean, fair, ls);
    }
  }

  lemma NextTells(h: Host, l: Lines, clean: bool, fair: bool, ls: set<Lines>)
    requires h.cmd.Some? && l in ls && (clean ==> !StoryOf(h, h.cmd.value.mrq).main)
    ensures var c := Cmd(h.cmd.value.mrq, Main);
            var h2 := Send(Respond(h), c, l).0;
      Tells(h, h2, clean, fair, ls) && Tells(h, Defer(h2, c), clean, fair, ls)
  {
    var c := Cmd(h.cmd.value.mrq, Main);
    var h1 := Respond(h);
    var h2 := Send(h1, c, l).0;
    RespondSame(h);
    SameAt(h, h1, c.mrq);
    assert StoryOf(h1, c.mrq).main == CmdOf(Look(h1, c.mrq), Main).error;
    assert Defer(h2, c).obj == h2.obj;
    hide Tells, Same, Look, Respond, Send, StoryOf, CmdOf, Defer;
    SendTells(h1, c, l, clean, fair, ls);
    SameThen(h, h1, h2, clean, fair, ls);
    SameObj(h2, Defer(h2, c));
    ThenSame(h, h2, Defer(h2, c), clean, fair, ls);
  }

  lemma RestTells(h: Host, l: Lines, clean: bool, fair: bool, ls: set<Lines>)
    requires h.cmd.Some? && l in ls && (clean && h.data.Some? ==> !StoryOf(h, h.data.value).stop)
    ensures var r := h.cmd.value.mrq;
            var h1 := Respond(h);
            var h2 := if h1.data.Some? && h1.dataEarly then FinishData(h1, false, l) else h1;
      Tells(h, h2, clean, fair, ls) && Tells(h, FinishMrq(h2, r), clean, fair, ls)
  {
    var r := h.cmd.value.mrq;
    var h1 := Respond(h);
    RespondSame(h);
    if h.data.Some? { SameAt(h, h1, h.data.value); }
    hide Tells, Same, Look, Respond, FinishMrq, FinishData, StoryOf;
    SameTells(h, h1, clean, fair, ls);
    if h1.data.Some? && h1.dataEarly {
      FinishDataTells(h1, false, l, clean, fair, ls);
      Then(h, h1, FinishData(h1, false, l), clean, fair, ls);
    }
    var h2 := if h1.data.Some? && h1.dataEarly then FinishData(h1, false, l) else h1;
    FinishSame(h2, r);
    ThenSame(h, h2, FinishMrq(h2, r), clean, fair, ls);
  }

  // ---------------------------------------------------------------- the interrupt handler

  /** The reading reports an error of a command. */
  predicate CmdErrorRead(m: Mask) {
    m.timeout || m.crc || m.endBit || m.index
  }

  /** The reading reports an error of a data transfer or of a busy phase. */
  predicate DataErrorRead(m: Mask) {
    m.dataTimeout || m.dataEndBit || m.dataCrc || m.admaError
  }

  predicate ErrorRead(m: Mask) {
    CmdErrorRead(m) || m.autoErr || DataErrorRead(m)
  }

  lemma CmdIrqTells(h: Host, m: Mask, l: Lines, clean: bool, fair: bool, ls: set<Lines>)
    requires l in ls && (clean ==> Clear(h)) && (fair ==> !ErrorRead(m))
    ensures Tells(h, CmdIrq(h, m, l).0, clean, fair, ls)
    ensures fair ==> CmdIrq(h, m, l).1 == m
  {
    SameObj(h, h);
    hide Tells, Same, Clear, FinishMrq, SetError, FinishCommand, CarriesData;
    SameTells(h, h, clean, fair, ls);
    if h.cmd.Some? {
      var c := h.cmd.value;
      if !fair {
        FailTells(h, c, clean, ls);
        FailTells(h, Cmd(c.mrq, Sbc), clean, ls);
        ErrorTells(h, c, clean, ls);
        SameObj(SetError(h, c, true), SetError(h, c, true).(cmd := None));
        ThenSame(h, SetError(h, c, true), SetError(h, c, true).(cmd := None), clean, fair, ls);
      }
      FinishCommandTells(h, l, clean, fair, ls);
    }
  }

  lemma EndBusySame(h: Host, c: Cmd)
    ensures Same(h, EndBusy(h, c))
  {
    var rec := Look(h, c.mrq);
    var prev := CmdOf(rec, c.role);
    var rec' := WithCmd(rec, c.role, prev.(busyEnded := prev.busyEnded + 1));
    assert Telling(rec') == Telling(rec);
    hide Same, Telling, Look, WithCmd, CmdOf;
    StoreSame(h, EndBusy(h, c), c.mrq, rec');
  }

  lemma EndDataSame(h: Host, r: Request)
    ensures Same(h, EndData(h, r)) && Same(h, EndData(h, r).(dataEarly := true))
    ensures EndData(h, r).data == h.data
  {
    var rec := Look(h, r);
    var rec' := rec.(data := rec.data.(ended := rec.data.ended + 1));
    assert Telling(rec') == Telling(rec);
    hide Same, Telling, Look;
    StoreSame(h, EndData(h, r), r, rec');
    StoreSame(h, EndData(h, r).(dataEarly := true), r, rec');
  }

  lemma BusyIrqTells(h: Host, m: Mask, clean: bool, fair: bool, ls: set<Lines>)
    requires fair ==> !ErrorRead(m)
    ensures Tells(h, BusyIrq(h, m), clean, fair, ls)
  {
    SameObj(h, h);
    hide Tells, Same, FinishMrq, SetError, EndBusy, RspBusy;
    SameTells(h, h, clean, fair, ls);
    if h.dataCmd.Some? {
      var c := h.dataCmd.value;
      var h1 := h.(dataCmd := None);
      if !fair {
        SameObj(h, h1);
        FailTells(h1, c, clean, ls);
        SameThen(h, h1, FinishMrq(SetError(h1, c, true), c.mrq), clean, fair, ls);
      }
      var h2 := EndBusy(h, c);
      EndBusySame(h, c);
      SameTells(h, h2, clean, fair, ls);
      FinishSame(h2, c.mrq);
      ThenSame(h, h2, FinishMrq(h2, c.mrq), clean, fair, ls);
    }
  }

  lemma DataIrqTells(h: Host, m: Mask, l: Lines, clean: bool, fair: bool, ls: set<Lines>)
    requires l in ls && (clean ==> Clear(h)) && (fair ==> !ErrorRead(m))
    ensures Tells(h, DataIrq(h, m, l), clean, fair, ls)
  {
    NothingTells(h, h, clean, fair, ls);
    if m.dataAvail && m.tuning {
      hide Tells;
    } else if h.data.None? {
      BusyIrqTells(h, m, clean, fair, ls);
      hide Tells, BusyIrq;
    } else {
      DataPathTells(h, m, l, clean, fair, ls);
    }
  }

  lemma DataPathTells(h: Host, m: Mask, l: Lines, clean: bool, fair: bool, ls: set<Lines>)
    requires l in ls && h.data.Some? && (clean ==> Clear(h)) && (fair ==> !ErrorRead(m))
    ensures Tells(h, DataIrq(h, m, l), clean, fair, ls)
  {
    var stop := !clean || !StoryOf(h, h.data.value).stop;
    assert stop;
    var bad := m.dataTimeout || m.dataEndBit || (m.dataCrc && !m.busTest) || m.admaError;
    assert fair ==> !bad;
    NothingTells(h, h, clean, fair, ls);
    hide Tells, BusyIrq, FinishData, SetDataError, EndData, StoryOf, Look, Clear, ErrorRead;
    if bad {
      DataFailTells(h, l, clean, ls);
    } else if Look(h, h.data.value).data.error {
      FinishDataTells(h, false, l, clean, fair, ls);
    } else {
      DataEndTells(h, l, clean, fair, ls);
    }
  }

  lemma DataFailTells(h: Host, l: Lines, clean: bool, ls: set<Lines>)
    requires h.data.Some? && l in ls && (clean ==> !StoryOf(h, h.data.value).stop)
    ensures Tells(h, FinishData(SetDataError(h, h.data.value), false, l), clean, false, ls)
  {
    var r := h.data.value;
    var h1 := SetDataError(h, r);
    assert StoryOf(h1, r).stop == StoryOf(h, r).stop;
    hide Tells, Same, FinishData, SetDataError, StoryOf;
    DataErrorTells(h, r, clean, ls);
    FinishDataTells(h1, false, l, clean, false, ls);
    Then(h, h1, FinishData(h1, false, l), clean, false, ls);
  }

  lemma DataEndTells(h: Host, l: Lines, clean: bool, fair: bool, ls: set<Lines>)
    requires h.data.Some? && l in ls && (clean ==> !StoryOf(h, h.data.value).stop)
    ensures var h1 := EndData(h, h.data.value);
      && h1.data.Some? && Tells(h, h1.(dataEarly := true), clean, fair, ls)
      && Tells(h, FinishData(h1, false, l), clean, fair, ls)
  {
    var r := h.data.value;
    var h1 := EndData(h, r);
    EndDataSame(h, r);
    SameAt(h, h1, r);
    hide Tells, Same, FinishData, EndData, StoryOf;
    SameTells(h, h1.(dataEarly := true), clean, fair, ls);
    FinishDataTells(h1, false, l, clean, fair, ls);
    SameThen(h, h1, FinishData(h1, false, l), clean, fair, ls);
  }

  lemma SameAt(h: Host, h': Host, r: Request)
    requires Same(h, h')
    ensures StoryOf(h', r) == StoryOf(h, r)
  {
  }

  lemma IrqRoundTells(h: Host, round: Round, clean: bool, fair: bool, ls: set<Lines>)
    requires round.cmdLines in ls && round.dataLines in ls && (clean ==> Inv(h)) && (fair ==> !ErrorRead(round.mask))
    ensures Tells(h, IrqRound(h, round), clean, fair, ls)
  {
    SameObj(h, h);
    hide Tells, Same, Inv, CmdIrq, DataIrq, CmdBits, DataBits, Clear, ErrorRead;
    SameTells(h, h, clean, fair, ls);
    if clean {
      BusClear(h);
      CmdIrqKeeps(h, round.mask, round.cmdLines);
    }
    CmdIrqTells(h, round.mask, round.cmdLines, clean, fair, ls);
    var (h1, m) := if CmdBits(round.mask) then CmdIrq(h, round.mask, round.cmdLines) else (h, round.mask);
    if clean { BusClear(h1); }
    DataIrqTells(h1, m, round.dataLines, clean, fair, ls);
    Then(h, h1, DataIrq(h1, m, round.dataLines), clean, fair, ls);
  }

  predicate ReadIn(rounds: seq<Round>, ls: set<Lines>) {
    forall i :: 0 <= i < |rounds| ==> rounds[i].cmdLines in ls && rounds[i].dataLines in ls
  }

  predicate NoErrorRead(rounds: seq<Round>) {
    forall i :: 0 <= i < |rounds| ==> !ErrorRead(rounds[i].mask)
  }

  lemma {:induction false} IrqRoundsTell(h: Host, rounds: seq<Round>, clean: bool, fair: bool, ls: set<Lines>)
    requires ReadIn(rounds, ls) && (clean ==> Inv(h)) && (fair ==> NoErrorRead(rounds))
    ensures Tells(h, IrqRounds(h, rounds), clean, fair, ls)
    decreases |rounds|
  {
    hide Tells, Same, Inv, IrqRound, ErrorRead;
    if rounds == [] {
      SameObj(h, h);
      SameTells(h, h, clean, fair, ls);
    } else {
      var front := rounds[..|rounds| - 1];
      var h0 := IrqRounds(h, front);
      IrqRoundsTell(h, front, clean, fair, ls);
      if clean { IrqRoundsKeep(h, front); }
      IrqRoundTells(h0, rounds[|rounds| - 1], clean, fair, ls);
      Then(h, h0, IrqRounds(h, rounds), clean, fair, ls);
    }
  }

  lemma HandBackSame(h: Host, i: nat, r: Request)
    ensures Same(h, HandBack(h, i, r))
  {
    var rec := Look(h, r);
    var rec' :=
      rec.(returned := rec.returned + 1, handedBack := Mark(h.cmdResets, h.dataResets, h.idleResets));
    assert Telling(rec') == Telling(rec);
    hide Same, Telling, Look;
    StoreSame(h, HandBack(h, i, r), r, rec');
  }

  lemma ScanSame(h: Host, i: nat)
    ensures Same(h, Scan(h, i))
  {
    hide Same, DeferDone, HandBack;
    SameObj(h, h);
    SameObj(h, h.(woken := true));
    if Slot(h, i).Some? { HandBackSame(h, i, Slot(h, i).value); }
  }

  lemma IrqTells(h: Host, rounds: seq<Round>, clean: bool, fair: bool, ls: set<Lines>)
    requires ReadIn(rounds, ls) && (clean ==> Inv(h)) && (fair ==> NoErrorRead(rounds))
    ensures Tells(h, Irq(h, rounds), clean, fair, ls)
  {
    var h1 := IrqRounds(h, rounds);
    var h2 := Scan(h1, 0);
    var h3 := if rounds == [] then h else Scan(h2, 1);
    hide Tells, Same, Inv, IrqRounds, Scan;
    SameObj(h, h);
    SameTells(h, h, clean, fair, ls);
    IrqRoundsTell(h, rounds, clean, fair, ls);
    ScanSame(h1, 0);
    ThenSame(h, h1, h2, clean, fair, ls);
    ScanSame(h2, 1);
    ThenSame(h, h2, Scan(h2, 1), clean, fair, ls);
    SameObj(h3, h3.(woken := true));
    ThenSame(h, h3, h3.(woken := true), clean, fair, ls);
  }

  // ---------------------------------------------------------------- timers and removal

  /** Nothing is on the bus. */
  predicate BusIdle(h: Host) {
    h.cmd.None? && h.dataCmd.None? && h.data.None?
  }

  lemma CmdTimerTells(h: Host, clean: bool, fair: bool, ls: set<Lines>)
    requires fair ==> BusIdle(h)
    ensures Tells(h, TimeoutTimer(h), clean, fair, ls)
  {
    SameObj(h, h);
    hide Tells, Same, FinishMrqQueued, SetError, DataLine;
    SameTells(h, h, clean, fair, ls);
    if h.cmd.Some? { FailTells(h, h.cmd.value, clean, ls); }
  }

  lemma DataTimerTells(h: Host, l: Lines, clean: bool, fair: bool, ls: set<Lines>)
    requires l in ls && (clean ==> Clear(h)) && (fair ==> BusIdle(h))
    ensures Tells(h, TimeoutDataTimer(h, l), clean, fair, ls)
  {
    SameObj(h, h);
    SameTells(h, h, clean, fair, ls);
    if h.data.Some? {
      var r := h.data.value;
      var h1 := SetDataError(h, r);
      assert StoryOf(h1, r).stop == StoryOf(h, r).stop;
      hide Tells, Same, FinishData, SetDataError, StoryOf;
      DataErrorTells(h, r, clean, ls);
      FinishDataTells(h1, true, l, clean, false, ls);
      var h2 := FinishData(h1, true, l);
      Then(h, h1, h2, clean, false, ls);
      SameObj(h2, h2.(workQueued := true));
      ThenSame(h, h2, h2.(workQueued := true), clean, false, ls);
    } else {
      hide Tells, FinishMrqQueued, SetError, DataLine;
      if h.dataCmd.Some? { FailTells(h, h.dataCmd.value, clean, ls); }
      if h.cmd.Some? { FailTells(h, h.cmd.value, clean, ls); }
    }
  }

  lemma ErrorOutTells(h: Host, clean: bool, fair: bool, ls: set<Lines>)
    requires fair ==> BusIdle(h)
    ensures Tells(h, ErrorOut(h), clean, fair, ls)
  {
    SameObj(h, h);
    hide Tells, Same, FinishMrqQueued, SetError;
    SameTells(h, h, clean, fair, ls);
    var h1 := if h.dataCmd.Some?
      then FinishMrqQueued(SetError(h, h.dataCmd.value, true), h.dataCmd.value.mrq)
      else h;
    if h.dataCmd.Some? { FailTells(h, h.dataCmd.value, clean, ls); }
    if h1.cmd.Some? {
      FailTells(h1, h1.cmd.value, clean, ls);
      if !fair { Then(h, h1, ErrorOut(h), clean, fair, ls); }
    }
  }

  // ---------------------------------------------------------------- submission and retries

  lemma AcceptSame(h: Host, r: Request)
    requires r !in h.obj
    ensures Same(h, Accept(h, r)) && Look(Accept(h, r), r) == FRESH
  {
    assert Telling(FRESH) == StoryOf(h, r);
    hide Same, Telling;
    StoreSame(h, Accept(h, r), r, FRESH);
  }

  lemma Tweaked(h: Host, h': Host, h'': Host, clean: bool, fair: bool, ls: set<Lines>)
    requires Tells(h, h', clean, fair, ls) && h''.obj == h'.obj
    ensures Tells(h, h'', clean, fair, ls)
  {
    hide Tells, Same;
    SameObj(h', h'');
    ThenSame(h, h', h'', clean, fair, ls);
  }

  /** Giving up before or after another refusal. */
  lemma TryTells(h: Host, h0: Host, c: Cmd, l: Lines, clean: bool, fair: bool, ls: set<Lines>)
    requires Same(h, h0) && l in ls && (clean ==> !CmdOf(Look(h0, c.mrq), c.role).error)
    ensures var h1 := Send(h0, c, l).0;
      && Tells(h, h1, clean, fair, ls) && Send(h0, c, l).1 == Permits(l, c)
      && (!fair ==> Tells(h, FinishMrqQueued(SetError(h1, c, true), c.mrq), clean, fair, ls))
      && (!fair ==> Tells(h, FinishMrqQueued(SetError(h0, c, true), c.mrq), clean, fair, ls))
  {
    var h1 := Send(h0, c, l).0;
    hide Tells, Same, FinishMrqQueued, SetError, Send, CmdOf, Look;
    SendTells(h0, c, l, clean, fair, ls);
    SameThen(h, h0, h1, clean, fair, ls);
    if !fair {
      FailTells(h0, c, clean, ls);
      SameThen(h, h0, FinishMrqQueued(SetError(h0, c, true), c.mrq), clean, fair, ls);
      FailTells(h1, c, clean, ls);
      Then(h, h1, FinishMrqQueued(SetError(h1, c, true), c.mrq), clean, fair, ls);
    }
  }

  lemma SubmitTells(h: Host, r: Request, present: bool, l: Lines, clean: bool, fair: bool, ls: set<Lines>)
    requires r !in h.obj && l in ls && (fair ==> present && !h.dead)
    ensures Tells(h, Submit(h, r, present, l), clean, fair, ls)
  {
    hide Tells;
    if !present || h.dead {
      RejectTells(h, r, clean, ls);
    } else {
      FirstTells(h, r, l, clean, fair, ls);
      hide *;
    }
  }

  lemma RejectTells(h: Host, r: Request, clean: bool, ls: set<Lines>)
    requires r !in h.obj
    ensures Tells(h, FinishMrqQueued(SetError(Accept(h, r), Cmd(r, Main), true), r), clean, false, ls)
  {
    AcceptSame(h, r);
    hide *;
    FailTells(Accept(h, r), Cmd(r, Main), clean, ls);
    SameThen(h, Accept(h, r), FinishMrqQueued(SetError(Accept(h, r), Cmd(r, Main), true), r), clean, false, ls);
  }

  lemma FirstTells(h: Host, r: Request, l: Lines, clean: bool, fair: bool, ls: set<Lines>)
    requires r !in h.obj && l in ls
    ensures var c := FirstCmd(h.cfg, r);
            var h1 := Send(Accept(h, r), c, l).0;
      Tells(h, h1, clean, fair, ls) && Tells(h, h1.(caller := Some(Caller(c, RETRIES - 1))), clean, fair, ls)
  {
    var h0 := Accept(h, r);
    var c := FirstCmd(h.cfg, r);
    var h1 := Send(h0, c, l).0;
    AcceptSame(h, r);
    assert !CmdOf(FRESH, c.role).error && c.mrq == r;
    hide *;
    TryTells(h, h0, c, l, clean, fair, ls);
    Tweaked(h, h1, h1.(caller := Some(Caller(c, RETRIES - 1))), clean, fair, ls);
  }

  lemma SubmitAtomicTells(h: Host, r: Request, l: Lines, clean: bool, fair: bool, ls: set<Lines>)
    requires r !in h.obj && l in ls && (fair ==> !h.dead)
    ensures Tells(h, SubmitAtomic(h, r, l), clean, fair, ls)
  {
    hide Tells;
    if h.dead {
      RejectTells(h, r, clean, ls);
    } else {
      FirstTells(h, r, l, clean, fair, ls);
      NothingTells(h, h.(warned := Send(Accept(h, r), FirstCmd(h.cfg, r), l).0.warned), clean, fair, ls);
      hide Send, Accept, FirstCmd;
    }
  }

  lemma NothingTells(h: Host, h': Host, clean: bool, fair: bool, ls: set<Lines>)
    requires h'.obj == h.obj
    ensures Tells(h, h', clean, fair, ls)
  {
    hide Tells, Same;
    SameObj(h, h');
    SameTells(h, h', clean, fair, ls);
  }

  /** The four ways a turn of the retry loop can end. */
  lemma CallerTurn(h: Host, present: bool, l: Lines)
    requires h.caller.Some?
    ensures var c := h.caller.value.cmd;
            var awake := h.(caller := None);
      !present || h.dead ==> CallerWakes(h, present, l) == FinishMrqQueued(SetError(awake, c, true), c.mrq)
    ensures var c := h.caller.value.cmd;
            var awake := h.(caller := None);
      present && !h.dead && Permits(l, c) ==> CallerWakes(h, present, l) == Send(awake, c, l).0
    ensures var c := h.caller.value.cmd;
            var h1 := Send(h.(caller := None), c, l).0;
      present && !h.dead && !Permits(l, c) && h.caller.value.left == 0 ==>
        CallerWakes(h, present, l) == FinishMrqQueued(SetError(h1, c, true), c.mrq)
    ensures var Caller(c, left) := h.caller.value;
            var h1 := Send(h.(caller := None), c, l).0;
      present && !h.dead && !Permits(l, c) && left > 0 ==>
        CallerWakes(h, present, l) == h1.(caller := Some(Caller(c, left - 1)))
  {
    var c := h.caller.value.cmd;
    RefusedIs(c, l);
    SentIs(h.(caller := None), c, l);
    hide FinishMrqQueued, SetError, Send, Permits, Refused;
  }

  lemma SentIs(h: Host, c: Cmd, l: Lines)
    ensures Send(h, c, l).1 == !Refused(c, l)
  {
    hide SetError, Issue, Refused;
  }

  lemma CallerTells(h: Host, present: bool, l: Lines, clean: bool, fair: bool, ls: set<Lines>)
    requires h.caller.Some? && l in ls && (clean ==> Inv(h))
    requires fair ==> present && !h.dead && (h.caller.value.left > 0 || Permits(l, h.caller.value.cmd))
    ensures Tells(h, CallerWakes(h, present, l), clean, fair, ls)
  {
    var c := h.caller.value.cmd;
    var awake := h.(caller := None);
    if clean { CallerClear(h); }
    SameObj(h, awake);
    CallerTurn(h, present, l);
    hide *;
    TryTells(h, awake, c, l, clean, fair, ls);
    if present && !h.dead && !Permits(l, c) && h.caller.value.left > 0 {
      Tweaked(h, Send(awake, c, l).0, CallerWakes(h, present, l), clean, fair, ls);
    }
  }

  lemma CallerClear(h: Host)
    requires Inv(h) && h.caller.Some?
    ensures var c := h.caller.value.cmd; !CmdOf(Look(h.(caller := None), c.mrq), c.role).error
  {
    WakeKeeps(h);
    hide Inv;
  }

  lemma ThreadDefersTells(h: Host, l: Lines, clean: bool, fair: bool, ls: set<Lines>)
    requires h.thread.Deferring? && l in ls && (clean ==> Inv(h))
    ensures Tells(h, ThreadDefers(h, l), clean, fair, ls)
  {
    hide Tells, Same, Send, Inv;
    NothingTells(h, h.(thread := Sleeping), clean, fair, ls);
    if h.deferred.Some? {
      var c := h.deferred.value;
      var h1 := Send(h, c, l).0;
      if clean { DeferredReady(h, c); }
      SendTells(h, c, l, clean, fair, ls);
      Tweaked(h, h1, h1.(deferred := None, thread := Sleeping), clean, fair, ls);
      Tweaked(h, h1, h1.(thread := Retrying(c, RETRIES - 1)), clean, fair, ls);
    }
  }

  lemma ThreadTurn(h: Host, present: bool, l: Lines)
    requires h.thread.Retrying? && h.deferred == Some(h.thread.cmd)
    ensures var c := h.thread.cmd;
            var awake := h.(thread := Sleeping);
      !present || h.dead ==> ThreadWakes(h, present, l) == FinishMrqQueued(SetError(awake, c, true), c.mrq)
    ensures var c := h.thread.cmd;
            var awake := h.(thread := Sleeping);
      present && !h.dead && Permits(l, c) ==> ThreadWakes(h, present, l) == Send(awake, c, l).0.(deferred := None)
    ensures var c := h.thread.cmd;
            var h1 := Send(h.(thread := Sleeping), c, l).0;
      present && !h.dead && !Permits(l, c) && h.thread.left == 0 ==>
        ThreadWakes(h, present, l) == FinishMrqQueued(SetError(h1, c, true), c.mrq)
    ensures var Retrying(c, left) := h.thread;
            var h1 := Send(h.(thread := Sleeping), c, l).0;
      present && !h.dead && !Permits(l, c) && left > 0 ==>
        ThreadWakes(h, present, l) == h1.(thread := Retrying(c, left - 1))
  {
    var c := h.thread.cmd;
    RefusedIs(c, l);
    SentIs(h.(thread := Sleeping), c, l);
    hide FinishMrqQueued, SetError, Send, Permits, Refused;
  }

  lemma ThreadWakesTells(h: Host, present: bool, l: Lines, clean: bool, fair: bool, ls: set<Lines>)
    requires h.thread.Retrying? && l in ls && (clean ==> Inv(h))
    requires fair ==> present && !h.dead && (h.thread.left > 0 || Permits(l, h.thread.cmd))
    ensures Tells(h, ThreadWakes(h, present, l), clean, fair, ls)
  {
    var c := h.thread.cmd;
    var awake := h.(thread := Sleeping);
    SameObj(h, awake);
    if h.deferred != Some(c) {
      NothingTells(h, awake, clean, fair, ls);
      hide Tells;
    } else {
      if clean { RetryClear(h); }
      ThreadTurn(h, present, l);
      hide *;
      TryTells(h, awake, c, l, clean, fair, ls);
      if present && !h.dead && (Permits(l, c) || h.thread.left > 0) {
        Tweaked(h, Send(awake, c, l).0, ThreadWakes(h, present, l), clean, fair, ls);
      }
    }
  }

  lemma RetryClear(h: Host)
    requires Inv(h) && h.thread.Retrying?
    ensures var c := h.thread.cmd; !CmdOf(Look(h.(thread := Sleeping), c.mrq), c.role).error
  {
    RetryingHolds(h);
    hide Inv;
    Parks(h, Sleeping);
    DeferredReady(h.(thread := Sleeping), h.thread.cmd);
  }

  // ---------------------------------------------------------------- the drainers

  lemma TailSame(h: Host, i: nat, r: Request)
    ensures Same(h, DrainTail(h, i, r).0)
  {
    var h1 := Recovered(h);
    assert h1.obj == h.obj;
    hide Same, HandBack, NeedsReset, Recovered;
    SameObj(h, h);
    SameObj(h, h1);
    HandBackSame(h, i, r);
    HandBackSame(h1, i, r);
    SameTwice(h, h1, HandBack(h1, i, r));
  }

  lemma SameTwice(h: Host, h': Host, h'': Host)
    requires Same(h, h') && Same(h', h'')
    ensures Same(h, h'')
  {
    hide StoryOf;
  }

  /** What a drainer notes about a mapping. */
  lemma MappingSame(h: Host, r: Request, d: DataRec)
    requires d.error == Look(h, r).data.error
    ensures Same(h, Store(h, r, Look(h, r).(data := d)))
  {
    assert Telling(Look(h, r).(data := d)) == StoryOf(h, r);
    hide Same, Telling, Look;
    StoreSame(h, Store(h, r, Look(h, r).(data := d)), r, Look(h, r).(data := d));
  }

  lemma DrainSame(h: Host, pc: Drainer)
    ensures Same(h, RunDrainer(h, pc).0)
  {
    hide Same, DrainTail, Look, Store;
    if pc.InWindow? {
      var d := Look(h, pc.mrq).data.(mapped := false);
      var h1 := Store(h, pc.mrq, Look(h, pc.mrq).(data := d));
      MappingSame(h, pc.mrq, d);
      TailSame(h1, pc.slot, pc.mrq);
      SameTwice(h, h1, DrainTail(h1, pc.slot, pc.mrq).0);
    } else {
      DrainStepSame(h);
    }
  }

  lemma DrainStepSame(h: Host)
    ensures Same(h, DrainStep(h).0)
  {
    hide Same, DrainTail, Look, Store;
    SameObj(h, h);
    if FirstDone(h).Some? {
      var i := FirstDone(h).value;
      var r := Slot(h, i).value;
      var data := Look(h, r).data;
      MappingSame(h, r, data.(unmaps := data.unmaps + 1));
      TailSame(h, i, r);
    }
  }

  lemma WorkerSame(h: Host)
    ensures Same(h, WorkerRuns(h)) && (h.thread.Drain? ==> Same(h, ThreadRuns(h)))
    ensures Same(h, h.(workQueued := false, worker := Draining))
    ensures Same(h, h.(woken := false, thread := Drain(Draining)))
  {
    hide Same, RunDrainer;
    SameObj(h, h.(workQueued := false, worker := Draining));
    SameObj(h, h.(woken := false, thread := Drain(Draining)));
    DrainSame(h, h.worker);
    var h1 := RunDrainer(h, h.worker).0;
    SameObj(h1, WorkerRuns(h));
    SameTwice(h, h1, WorkerRuns(h));
    if h.thread.Drain? {
      DrainSame(h, h.thread.pc);
      var h2 := RunDrainer(h, h.thread.pc).0;
      SameObj(h2, ThreadRuns(h));
      SameTwice(h, h2, ThreadRuns(h));
    }
  }

  // ---------------------------------------------------------------- steps

  /** The readings of the inhibit bits a step has to go by. */
  function LinesOf(s: Step): set<Lines> {
    match s
    case Submits(_, _, l) => {l}
    case SubmitsAtomic(_, l) => {l}
    case CallerStep(_, l) => {l}
    case Interrupt(rounds) =>
      (set i | 0 <= i < |rounds| :: rounds[i].cmdLines) + (set i | 0 <= i < |rounds| :: rounds[i].dataLines)
    case DataTimeout(_, l) => {l}
    case ThreadTakesDeferred(l) => {l}
    case ThreadStep(_, l) => {l}
    case _ => {}
  }

  /** Nothing goes wrong in this step: the card is there, the controller alive, no error is read,
      no timer goes off and nobody is removed while something is on the bus, and nobody runs out
      of retries. */
  predicate Harmless(h: Host, s: Step) {
    match s
    case Submits(_, present, _) => present && !h.dead
    case SubmitsAtomic(_, _) => !h.dead
    case CallerStep(present, l) =>
      present && !h.dead && (h.caller.Some? ==> h.caller.value.left > 0 || Permits(l, h.caller.value.cmd))
    case ThreadStep(present, l) =>
      present && !h.dead && (h.thread.Retrying? ==> h.thread.left > 0 || Permits(l, h.thread.cmd))
    case Interrupt(rounds) => NoErrorRead(rounds)
    case CmdTimeout(_) => BusIdle(h)
    case DataTimeout(_, _) => BusIdle(h)
    case CardChanges(present) => present || BusIdle(h)
    case Dies => BusIdle(h)
    case _ => true
  }

  lemma EventTells(h: Host, s: Step, clean: bool, fair: bool)
    requires Enabled(h, s) && (clean ==> Inv(h)) && (fair ==> Harmless(h, s))
    requires s.CmdTimeout? || s.DataTimeout?
    ensures Tells(h, Apply(h, s), clean, fair, LinesOf(s))
  {
    var ls := LinesOf(s);
    hide Tells, Same, Inv, TimeoutTimer, TimeoutDataTimer, Clear, BusIdle;
    if s.CmdTimeout? {
      var timed := h.(timer := h.timer && !s.expired);
      RearmedSame(h, timed);
      CmdTimerTells(timed, clean, fair, ls);
      SameThen(h, timed, TimeoutTimer(timed), clean, fair, ls);
    } else {
      var timed := h.(dataTimer := h.dataTimer && !s.expired);
      RearmedSame(h, timed);
      DataTimerTells(timed, s.lines, clean, fair, ls);
      SameThen(h, timed, TimeoutDataTimer(timed, s.lines), clean, fair, ls);
    }
  }

  lemma RearmedSame(h: Host, timed: Host)
    requires timed == h.(timer := timed.timer, dataTimer := timed.dataTimer)
    ensures Same(h, timed) && (BusIdle(h) ==> BusIdle(timed)) && (Inv(h) ==> Clear(timed))
  {
    if Inv(h) { BusClear(h); }
    hide Inv;
    SameObj(h, timed);
  }

  lemma RemovalTells(h: Host, s: Step, clean: bool, fair: bool)
    requires (clean ==> Inv(h)) && (fair ==> Harmless(h, s)) && (s.CardChanges? || s.Dies?)
    ensures Tells(h, Apply(h, s), clean, fair, LinesOf(s))
  {
    var ls := LinesOf(s);
    var struck := if s.CardChanges? then ResetBoth(h) else h.(dead := true);
    SameObj(h, struck);
    assert BusIdle(h) ==> BusIdle(struck);
    hide Tells, Same, Inv, ErrorOut, ResetBoth;
    NothingTells(h, h, clean, fair, ls);
    if fair ==> BusIdle(h) {
      ErrorOutTells(struck, clean, fair, ls);
      SameThen(h, struck, ErrorOut(struck), clean, fair, ls);
    }
  }

  lemma StepTells(h: Host, s: Step, clean: bool, fair: bool)
    requires Enabled(h, s) && (clean ==> Inv(h)) && (fair ==> Harmless(h, s))
    ensures Tells(h, Apply(h, s), clean, fair, LinesOf(s))
  {
    var ls := LinesOf(s);
    hide Tells, Same, Inv, Submit, SubmitAtomic, CallerWakes, Irq, WorkerRuns, ThreadRuns, ThreadDefers, ThreadWakes,
      CardEvent, Die, TimeoutTimer, TimeoutDataTimer;
    match s
    case Submits(r, present, l) => SubmitTells(h, r, present, l, clean, fair, ls);
    case SubmitsAtomic(r, l) => SubmitAtomicTells(h, r, l, clean, fair, ls);
    case CallerStep(present, l) => CallerTells(h, present, l, clean, fair, ls);
    case Interrupt(rounds) =>
      assert ReadIn(rounds, ls);
      IrqTells(h, rounds, clean, fair, ls);
    case ThreadTakesDeferred(l) => ThreadDefersTells(h, l, clean, fair, ls);
    case ThreadStep(present, l) => ThreadWakesTells(h, present, l, clean, fair, ls);
    case CmdTimeout(_) => EventTells(h, s, clean, fair);
    case DataTimeout(_, _) => EventTells(h, s, clean, fair);
    case CardChanges(_) => RemovalTells(h, s, clean, fair);
    case Dies => RemovalTells(h, s, clean, fair);
    case _ =>
      WorkerSame(h);
      SameTells(h, Apply(h, s), clean, fair, ls);
  }

  // ---------------------------------------------------------------- runs

  predicate NoneLost(a: Rec, b: Rec) {
    && (a.sbc.error ==> b.sbc.error) && (a.main.error ==> b.main.error)
    && (a.stop.error ==> b.stop.error) && (a.data.error ==> b.data.error)
  }

  /** An error once recorded for a request stays in its record for good. */
  lemma {:induction false} ErrorsStay(cfg: Config, states: seq<Host>, steps: seq<Step>, i: nat, j: nat, r: Request)
    requires IsRun(cfg, states, steps) && i <= j < |states|
    ensures NoneLost(Look(states[i], r), Look(states[j], r))
    decreases j
  {
    hide Inv, Look, Apply, Enabled;
    if i < j {
      ErrorsStay(cfg, states, steps, i, j - 1, r);
      RunKeeps(cfg, states, steps, j - 1);
      StepRemembers(states[j - 1], steps[j - 1], r);
    }
  }

  lemma StepRemembers(h: Host, s: Step, r: Request)
    requires Inv(h) && Enabled(h, s)
    ensures NoneLost(Look(h, r), Look(Apply(h, s), r))
  {
    StepTells(h, s, true, false);
    hide Inv, Look, Apply, Enabled, SomePermits;
    assert Told(r, StoryOf(h, r), StoryOf(Apply(h, s), r), true, false, LinesOf(s));
  }

  /** A step in which nothing goes wrong adds no error to any request. */
  lemma NoErrorWithoutCause(h: Host, s: Step, r: Request)
    requires Enabled(h, s) && Harmless(h, s)
    ensures NoneLost(Look(Apply(h, s), r), Look(h, r))
  {
    StepTells(h, s, false, true);
    hide Look, Apply, Enabled, Harmless, SomePermits;
    assert Told(r, StoryOf(h, r), StoryOf(Apply(h, s), r), false, true, LinesOf(s));
  }

  /** Over a run in which nothing goes wrong every request stays free of errors, and what has been
      finished is complete. */
  lemma {:induction false} CleanRun(cfg: Config, states: seq<Host>, steps: seq<Step>, i: nat, r: Request)
    requires IsRun(cfg, states, steps) && i < |states|
    requires forall k :: 0 <= k < i ==> Harmless(states[k], steps[k])
    ensures ErrorFree(Look(states[i], r))
  {
    hide Apply, Enabled, Harmless;
    if i > 0 {
      CleanRun(cfg, states, steps, i - 1, r);
      NoErrorWithoutCause(states[i - 1], steps[i - 1], r);
    }
  }

  /** A step writes a command only if one of its readings of the inhibit bits permitted it. */
  lemma WrittenWhenPermitted(h: Host, s: Step, c: Cmd)
    requires Enabled(h, s)
    requires CmdOf(Look(Apply(h, s), c.mrq), c.role).issued > CmdOf(Look(h, c.mrq), c.role).issued
    ensures exists l :: l in LinesOf(s) && Permits(l, c)
  {
    var h' := Apply(h, s);
    StepTells(h, s, false, false);
    hide Look, Apply, Enabled, Permits, LinesOf, Tells;
    PermittedFor(h, h', c, LinesOf(s));
  }

  lemma PermittedFor(h: Host, h': Host, c: Cmd, ls: set<Lines>)
    requires Tells(h, h', false, false, ls)
    requires CmdOf(Look(h', c.mrq), c.role).issued > CmdOf(Look(h, c.mrq), c.role).issued
    ensures SomePermits(ls, c)
  {
    hide Look, SomePermits;
    assert Told(c.mrq, StoryOf(h, c.mrq), StoryOf(h', c.mrq), false, false, ls);
  }
}
