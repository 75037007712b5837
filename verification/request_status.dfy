/** What one reading of the interrupt status does to the request it is about: which errors it
    records, and which progress. */
module RequestStatus {
  import opened Options
  import opened RequestModel
  import opened RequestInvariant
  import opened RequestErrors
  import opened RequestTheorems

  // ---------------------------------------------------------------- single routines

  lemma FinishLook(h: Host, r: Request, q: Request)
    ensures q != r ==> Look(FinishMrq(h, r), q) == Look(h, q)
    ensures Look(FinishMrq(h, r), r).finishes == Look(h, r).finishes + 1
    ensures Look(FinishMrq(h, r), r).data == Look(h, r).data
    ensures forall role :: CmdOf(Look(FinishMrq(h, r), r), role) == CmdOf(Look(h, r), role)
    ensures FinishMrq(h, r).data == (if h.data == Some(r) then None else h.data)
    ensures FinishMrq(h, r).cmd == (if Owns(h.cmd, r) then None else h.cmd)
    ensures FinishMrq(h, r).dataCmd == (if Owns(h.dataCmd, r) then None else h.dataCmd)
  {
    hide SlotTrouble, NeedsReset, DataLine;
  }

  lemma ErrorLook(h: Host, c: Cmd, error: bool, q: Request)
    ensures q != c.mrq ==> Look(SetError(h, c, error), q) == Look(h, q)
    ensures CmdOf(Look(SetError(h, c, error), c.mrq), c.role) == CmdOf(Look(h, c.mrq), c.role).(error := error)
    ensures Look(SetError(h, c, error), c.mrq).data == Look(h, c.mrq).data
    ensures Look(SetError(h, c, error), c.mrq).finishes == Look(h, c.mrq).finishes
    ensures SetError(h, c, error) == h.(obj := SetError(h, c, error).obj)
  {
  }

  lemma IssueLooks(h: Host, c: Cmd, q: Request)
    ensures q != c.mrq ==> Look(Issue(h, c), q) == Look(h, q)
    ensures var rec := CmdOf(Look(h, c.mrq), c.role);
      CmdOf(Look(Issue(h, c), c.mrq), c.role) == rec.(issued := rec.issued + 1)
    ensures c.role != Main ==> Look(Issue(h, c), c.mrq).data == Look(h, c.mrq).data
    ensures Issue(h, c).cmd == Some(c) && (c.role != Main ==> Issue(h, c).data == h.data)
  {
    hide DataLine;
  }

  /** Sending a stop command. */
  lemma StopLook(h: Host, r: Request, l: Lines)
    ensures var (h', sent) := Send(h, Cmd(r, Stop), l);
      && sent == !l.cmdInhibit && h'.data == h.data && Look(h', r).data == Look(h, r).data
      && Look(h', r).stop.issued == Look(h, r).stop.issued + Bit(sent) && (sent ==> h'.cmd == Some(Cmd(r, Stop)))
  {
    var c := Cmd(r, Stop);
    var h1 := SetError(h, c, false).(warned := h.warned || h.cmd.Some?);
    ClearLook(h, r);
    assert Refused(c, l) == l.cmdInhibit;
    hide Look, SetError, Issue, Refused;
    StopIssued(h1, r);
  }

  lemma ClearLook(h: Host, r: Request)
    ensures var h1 := SetError(h, Cmd(r, Stop), false).(warned := h.warned || h.cmd.Some?);
      Look(h1, r).stop.issued == Look(h, r).stop.issued && Look(h1, r).data == Look(h, r).data && h1.data == h.data
  {
  }

  lemma StopIssued(h: Host, r: Request)
    ensures var h' := Issue(h, Cmd(r, Stop));
      && h'.data == h.data && Look(h', r).data == Look(h, r).data && h'.cmd == Some(Cmd(r, Stop))
      && Look(h', r).stop.issued == Look(h, r).stop.issued + 1
  {
    IssueLooks(h, Cmd(r, Stop), r);
    hide Look, Issue;
  }

  /** Where a data request goes when its transfer has ended: to its stop command, at once or as
      soon as the command line is free, or into a slot. */
  predicate Moves(h: Host, r: Request, l: Lines, stops: bool) {
    && h.data.None?
    && (if !stops then Look(h, r).finishes == 1
        else if l.cmdInhibit then h.deferred == Some(Cmd(r, Stop))
        else h.cmd == Some(Cmd(r, Stop)) && Look(h, r).stop.issued == 1)
  }

  lemma FinishDataCases(h: Host, l: Lines)
    requires h.data.Some?
    ensures var r := h.data.value;
            var c := Cmd(r, Stop);
            var h3 := Send(ReleaseData(h).(cmd := None), c, l).0;
      FinishData(h, false, l) ==
        if !(r.hasStop && !r.cap && (Look(h, r).data.error || (!r.hasSbc && !h.cfg.autoCmd12)))
        then FinishMrq(ReleaseData(h), r)
        else if !l.cmdInhibit then h3 else Defer(h3, c)
  {
    var c := Cmd(h.data.value, Stop);
    SentIs(ReleaseData(h).(cmd := None), c, l);
    assert Refused(c, l) == l.cmdInhibit;
    hide Look, ReleaseData, FinishMrq, Send, SetError, Defer, Refused;
  }

  lemma FinishDataMoves(h: Host, l: Lines)
    requires h.data.Some?
    requires Look(h, h.data.value).stop.issued == 0 && Look(h, h.data.value).finishes == 0
    ensures var r := h.data.value;
            var h' := FinishData(h, false, l);
      && Look(h', r).data == Look(h, r).data
      && Moves(h', r, l, r.hasStop && !r.cap && (Look(h, r).data.error || (!r.hasSbc && !h.cfg.autoCmd12)))
  {
    var r := h.data.value;
    var h1 := ReleaseData(h);
    var h2 := h1.(cmd := None);
    var h3 := Send(h2, Cmd(r, Stop), l).0;
    assert h1.data.None? && Look(h1, r) == Look(h, r) && Look(h2, r) == Look(h, r);
    FinishDataCases(h, l);
    hide Look, ReleaseData, FinishMrq, Send, FinishData, Defer;
    FinishLook(h1, r, r);
    StopLook(h2, r, l);
    DeferLook(h3, Cmd(r, Stop), r);
  }

  lemma DeferLook(h: Host, c: Cmd, q: Request)
    ensures Look(Defer(h, c), q) == Look(h, q) && Defer(h, c).data == h.data && Defer(h, c).cmd == h.cmd
    ensures Defer(h, c).deferred == Some(c)
  {
  }

  // ---------------------------------------------------------------- the data half

  /** A data error the handler takes notice of: CRC errors of a bus test do not count. */
  predicate DataFails(m: Mask) {
    m.dataTimeout || m.dataEndBit || (m.dataCrc && !m.busTest) || m.admaError
  }

  predicate TuningReturn(m: Mask) {
    m.dataAvail && m.tuning
  }

  lemma DataErrorLook(h: Host, r: Request)
    ensures var rec := Look(h, r); Look(SetDataError(h, r), r) == rec.(data := rec.data.(error := true))
    ensures SetDataError(h, r).data == h.data && SetDataError(h, r).cfg == h.cfg
  {
  }

  lemma EndDataLook(h: Host, r: Request)
    ensures var rec := Look(h, r); Look(EndData(h, r), r) == rec.(data := rec.data.(ended := rec.data.ended + 1))
    ensures Look(EndData(h, r).(dataEarly := true), r) == Look(EndData(h, r), r)
    ensures EndData(h, r).data == h.data && EndData(h, r).cfg == h.cfg
  {
  }

  lemma DataHalf(h: Host, m: Mask, l: Lines, r: Request)
    requires h.data == Some(r)
    requires Look(h, r).stop.issued == 0 && Look(h, r).finishes == 0 && !Look(h, r).data.error
    ensures var h' := DataIrq(h, m, l);
      && (Look(h', r).data.error <==> !TuningReturn(m) && DataFails(m))
      && (Look(h', r).data.error ==> Moves(h', r, l, r.hasStop && !r.cap))
      && Look(h', r).data.ended ==
           Look(h, r).data.ended + Bit(!TuningReturn(m) && !DataFails(m) && m.dataEnd)
      && (!TuningReturn(m) && !DataFails(m) && m.dataEnd && h.cmd == h.dataCmd ==> h'.data == Some(r) && h'.dataEarly)
      && (!TuningReturn(m) && !DataFails(m) && m.dataEnd && h.cmd != h.dataCmd ==>
            Moves(h', r, l, r.hasStop && !r.cap && !r.hasSbc && !h.cfg.autoCmd12))
  {
    DataErrorLook(h, r);
    EndDataLook(h, r);
    hide Look, SetDataError, EndData, FinishData, Moves, BusyIrq;
    FinishDataMoves(SetDataError(h, r), l);
    FinishDataMoves(EndData(h, r), l);
  }

  // ---------------------------------------------------------------- what the data half leaves alone

  lemma SendSpares(h: Host, c: Cmd, l: Lines, q: Request)
    requires q != c.mrq
    ensures Look(Send(h, c, l).0, q) == Look(h, q)
  {
    var h1 := SetError(h, c, false).(warned := h.warned || h.cmd.Some?);
    ErrorLook(h, c, false, q);
    assert Look(h1, q) == Look(SetError(h, c, false), q);
    hide Look, SetError, Issue, Refused;
    IssueLooks(h1, c, q);
  }

  lemma FinishDataSpares(h: Host, l: Lines, q: Request)
    requires h.data.Some? && q != h.data.value
    ensures Look(FinishData(h, false, l), q) == Look(h, q)
  {
    var r := h.data.value;
    var h1 := ReleaseData(h);
    var h2 := h1.(cmd := None);
    assert Look(h1, q) == Look(h, q) && Look(h2, q) == Look(h, q);
    FinishDataCases(h, l);
    hide Look, ReleaseData, FinishMrq, Send, Defer, FinishData;
    FinishLook(h1, r, q);
    SendSpares(h2, Cmd(r, Stop), l, q);
    DeferLook(Send(h2, Cmd(r, Stop), l).0, Cmd(r, Stop), q);
  }

  lemma BusyIrqSpares(h: Host, m: Mask, q: Request)
    ensures Owns(h.dataCmd, q) || Look(BusyIrq(h, m), q) == Look(h, q)
    ensures Look(BusyIrq(h, m), q).data == Look(h, q).data
  {
    if h.dataCmd.Some? {
      var c := h.dataCmd.value;
      var h1 := h.(dataCmd := None);
      assert Look(h1, q) == Look(h, q);
      FailLook(h1, c, q);
      EndBusyLook(h, c, q);
      BusyCases(h, m, c);
      hide Look, SetError, FinishMrq, EndBusy, BusyIrq;
      FinishLook(EndBusy(h, c), c.mrq, q);
    }
  }

  lemma BusyCases(h: Host, m: Mask, c: Cmd)
    requires h.dataCmd == Some(c)
    ensures var h' := BusyIrq(h, m);
            var h1 := h.(dataCmd := None);
      || h' == h || h' == FinishMrq(SetError(h1, c, true), c.mrq)
      || h' == EndBusy(h, c) || h' == FinishMrq(EndBusy(h, c), c.mrq)
  {
    hide SetError, FinishMrq, EndBusy, RspBusy;
  }

  lemma FailLook(h: Host, c: Cmd, q: Request)
    ensures q != c.mrq ==> Look(FinishMrq(SetError(h, c, true), c.mrq), q) == Look(h, q)
    ensures Look(FinishMrq(SetError(h, c, true), c.mrq), q).data == Look(h, q).data
    ensures var rec := Look(FinishMrq(SetError(h, c, true), c.mrq), c.mrq);
      CmdOf(rec, c.role).error && rec.finishes == Look(h, c.mrq).finishes + 1
  {
    ErrorLook(h, c, true, q);
    ErrorLook(h, c, true, c.mrq);
    hide Look, SetError, FinishMrq, CmdOf;
    FinishLook(SetError(h, c, true), c.mrq, q);
    FinishLook(SetError(h, c, true), c.mrq, c.mrq);
  }

  lemma EndBusyLook(h: Host, c: Cmd, q: Request)
    ensures q != c.mrq ==> Look(EndBusy(h, c), q) == Look(h, q)
    ensures Look(EndBusy(h, c), c.mrq).data == Look(h, c.mrq).data
    ensures Look(EndBusy(h, c), c.mrq).finishes == Look(h, c.mrq).finishes
    ensures var rec := CmdOf(Look(h, c.mrq), c.role);
      CmdOf(Look(EndBusy(h, c), c.mrq), c.role) == rec.(busyEnded := rec.busyEnded + 1)
  {
  }

  lemma DataIrqSpares(h: Host, m: Mask, l: Lines, q: Request)
    ensures !Owns(h.dataCmd, q) && h.data != Some(q) ==> Look(DataIrq(h, m, l), q) == Look(h, q)
    ensures h.data != Some(q) ==> Look(DataIrq(h, m, l), q).data == Look(h, q).data
  {
    BusyIrqSpares(h, m, q);
    if h.data.Some? && h.data != Some(q) {
      var r := h.data.value;
      DataErrorSpares(h, r, q);
      hide Look, SetDataError, EndData, FinishData, BusyIrq;
      FinishDataSpares(h, l, q);
      FinishDataSpares(SetDataError(h, r), l, q);
      FinishDataSpares(EndData(h, r), l, q);
    }
  }

  lemma DataErrorSpares(h: Host, r: Request, q: Request)
    requires q != r
    ensures Look(SetDataError(h, r), q) == Look(h, q) && SetDataError(h, r).data == h.data
    ensures Look(EndData(h, r), q) == Look(h, q) && EndData(h, r).data == h.data
    ensures Look(EndData(h, r).(dataEarly := true), q) == Look(h, q)
  {
  }

  /** The data half puts nothing on the command line but the stop command of the data request,
      and never starts a transfer. */
  lemma DataIrqLines(h: Host, m: Mask, l: Lines)
    ensures var h' := DataIrq(h, m, l);
      && (h'.cmd == h.cmd || h'.cmd.None? || (h.data.Some? && h'.cmd == Some(Cmd(h.data.value, Stop))))
      && (h'.data == h.data || h'.data.None?)
  {
    BusyIrqLines(h, m);
    if h.data.Some? {
      var r := h.data.value;
      DataErrorLook(h, r);
      EndDataLook(h, r);
      assert SetDataError(h, r).cmd == h.cmd && EndData(h, r).cmd == h.cmd;
      hide Look, SetDataError, EndData, FinishData, BusyIrq;
      FinishDataLines(h, l);
      FinishDataLines(SetDataError(h, r), l);
      FinishDataLines(EndData(h, r), l);
    }
  }

  lemma BusyIrqLines(h: Host, m: Mask)
    ensures BusyIrq(h, m).cmd == h.cmd || BusyIrq(h, m).cmd.None?
    ensures BusyIrq(h, m).data == h.data || BusyIrq(h, m).data.None?
  {
    if h.dataCmd.Some? {
      var c := h.dataCmd.value;
      var h1 := h.(dataCmd := None);
      var h2 := EndBusy(h, c);
      assert h2.cmd == h.cmd && h2.data == h.data;
      BusyCases(h, m, c);
      ErrorLook(h1, c, true, c.mrq);
      hide BusyIrq, SetError, EndBusy, FinishMrq, Look;
      FinishLook(SetError(h1, c, true), c.mrq, c.mrq);
      FinishLook(h2, c.mrq, c.mrq);
    }
  }

  lemma FinishDataLines(h: Host, l: Lines)
    requires h.data.Some?
    ensures var h' := FinishData(h, false, l);
      h'.data.None? && (h'.cmd == h.cmd || h'.cmd.None? || h'.cmd == Some(Cmd(h.data.value, Stop)))
  {
    var r := h.data.value;
    var h1 := ReleaseData(h);
    var h2 := h1.(cmd := None);
    assert h1.data.None? && h1.cmd == h.cmd;
    FinishDataCases(h, l);
    hide Look, ReleaseData, FinishMrq, Send, FinishData, Defer;
    FinishLook(h1, r, r);
    StopLook(h2, r, l);
    SendRefused(h2, Cmd(r, Stop), l);
    DeferLook(Send(h2, Cmd(r, Stop), l).0, Cmd(r, Stop), r);
  }

  lemma SendRefused(h: Host, c: Cmd, l: Lines)
    ensures !Send(h, c, l).1 ==> Send(h, c, l).0.cmd == h.cmd
  {
    hide WithCmd, CmdOf, Issue, Refused;
  }

  // ---------------------------------------------------------------- the command half

  /** An Auto CMD error that belongs to an Auto CMD12: it is charged to the data. */
  predicate Auto12Error(h: Host, m: Mask) {
    m.autoErr && h.cfg.autoCmd12 && h.dataCmd.Some? && !h.dataCmd.value.mrq.hasSbc
  }

  /** A wrong response CRC to a data command, with a response: the transfer goes on to its end. */
  predicate OnlyCrc(c: Cmd, m: Mask) {
    c.role == Main && c.mrq.hasData && m.crc && !m.timeout
  }

  lemma CmdHalfFails(h: Host, m: Mask, l: Lines, c: Cmd)
    requires h.cmd == Some(c) && CmdErrorRead(m) && !Auto12Error(h, m)
    ensures var (h1, m1) := CmdIrq(h, m, l);
            var failed := SetError(h, c, true);
      if OnlyCrc(c, m) then h1 == failed.(cmd := None) && m1 == m.(dataCrc := true)
      else h1 == FinishMrq(failed, c.mrq) && m1 == m
  {
    hide SetError, FinishMrq, FinishCommand;
  }

  lemma CrcLook(h: Host, c: Cmd, q: Request)
    ensures var h1 := SetError(h, c, true).(cmd := None);
      && Look(h1, q).data == Look(h, q).data && CmdOf(Look(h1, c.mrq), c.role).error && h1.data == h.data
      && Look(h1, q).finishes == Look(h, q).finishes && (c.role == Main ==> Look(h1, q).stop == Look(h, q).stop)
  {
  }

  // ---------------------------------------------------------------- errors of commands

  function CmdHalf(h: Host, round: Round): (Host, Mask) {
    if CmdBits(round.mask) then CmdIrq(h, round.mask, round.cmdLines) else (h, round.mask)
  }

  lemma RoundIs(h: Host, round: Round)
    ensures var (h1, m1) := CmdHalf(h, round);
      IrqRound(h, round) == if DataBits(m1) then DataIrq(h1, m1, round.dataLines) else h1
  {
    hide CmdIrq, DataIrq, CmdBits, DataBits;
  }

  lemma HalfKeeps(h: Host, round: Round)
    requires Inv(h)
    ensures Inv(CmdHalf(h, round).0)
  {
    CmdIrqKeeps(h, round.mask, round.cmdLines);
    hide Inv, CmdIrq, CmdBits;
  }

  /** What is off the bus and in the books after the command half stays as it is. */
  lemma RestSpares(h: Host, round: Round, q: Request)
    requires var h1 := CmdHalf(h, round).0; !Owns(h1.dataCmd, q) && h1.data != Some(q) && h1.cmd.None?
    ensures Look(IrqRound(h, round), q) == Look(CmdHalf(h, round).0, q) && !Owns(IrqRound(h, round).cmd, q)
  {
    var (h1, m1) := CmdHalf(h, round);
    RoundIs(h, round);
    DataIrqSpares(h1, m1, round.dataLines, q);
    DataIrqLines(h1, m1, round.dataLines);
    hide CmdHalf, DataIrq, IrqRound, DataBits, Look;
  }

  /** The data half forgets no error, and keeps any other main command off the command line. */
  lemma RestRemembers(h: Host, round: Round, c: Cmd)
    requires Inv(h) && CmdHalf(h, round).0.cmd.None? && c.role == Main
    ensures var h1 := CmdHalf(h, round).0;
            var h' := IrqRound(h, round);
      h'.cmd != Some(c) && (Look(h1, c.mrq).main.error ==> Look(h', c.mrq).main.error)
  {
    var (h1, m1) := CmdHalf(h, round);
    var ls := {round.dataLines};
    HalfKeeps(h, round);
    BusClear(h1);
    RoundIs(h, round);
    hide Inv, CmdHalf, DataIrq, IrqRound, DataBits, Look, Clear, Tells;
    DataIrqLines(h1, m1, round.dataLines);
    DataIrqTells(h1, m1, round.dataLines, true, false, ls);
    MainStays(h1, DataIrq(h1, m1, round.dataLines), c.mrq, ls);
  }

  lemma MainStays(h: Host, h': Host, r: Request, ls: set<Lines>)
    requires Tells(h, h', true, false, ls)
    ensures Look(h, r).main.error ==> Look(h', r).main.error
  {
    hide Look;
    assert Told(r, StoryOf(h, r), StoryOf(h', r), true, false, ls);
  }

  lemma BusUnfinished(h: Host, r: Request)
    requires Inv(h) && OnBus(h, r)
    ensures Look(h, r).finishes == 0 && r in h.out
  {
    Pick(h, r);
    hide Inv, ReqInv;
  }

  /** An error reported for the command on the command line ends up in its record, and the command
      leaves the line; its request is finished unless only the CRC of the response to a data
      command is wrong. */
  lemma CommandErrorRecorded(h: Host, round: Round, c: Cmd)
    requires Inv(h) && h.cmd == Some(c) && CmdErrorRead(round.mask) && !Auto12Error(h, round.mask)
    ensures var h' := IrqRound(h, round);
      && CmdOf(Look(h', c.mrq), c.role).error && h'.cmd != Some(c)
      && (!OnlyCrc(c, round.mask) ==> Look(h', c.mrq).finishes == 1)
  {
    assert CmdHalf(h, round) == CmdIrq(h, round.mask, round.cmdLines) by { hide CmdIrq; }
    CmdHalfFails(h, round.mask, round.cmdLines, c);
    if OnlyCrc(c, round.mask) {
      hide Inv, CmdHalf, CmdIrq, IrqRound, Look, SetError;
      CrcLook(h, c, c.mrq);
      RestRemembers(h, round, c);
    } else {
      hide Inv, CmdHalf, CmdIrq, IrqRound, Look, SetError, FinishMrq, OnlyCrc;
      FailedEnds(h, round, c, c);
    }
  }

  /** Whatever fails a request of the command line in the command half finishes it for this reading. */
  lemma FailedEnds(h: Host, round: Round, c: Cmd, f: Cmd)
    requires Inv(h) && h.cmd == Some(c) && f.mrq == c.mrq
    requires CmdHalf(h, round).0 == FinishMrq(SetError(h, f, true), f.mrq)
    ensures var h' := IrqRound(h, round);
      CmdOf(Look(h', f.mrq), f.role).error && Look(h', f.mrq).finishes == 1 && h'.cmd != Some(c)
  {
    hide Inv, CmdHalf, IrqRound, Look, SetError, FinishMrq, CmdOf;
    BusUnfinished(h, c.mrq);
    FailedOffBus(h, f);
    FailLook(h, f, f.mrq);
    RestSpares(h, round, f.mrq);
  }

  /** An Auto CMD23 that failed is charged to the CMD23 of the request, which is finished. */
  lemma Auto23ErrorRecorded(h: Host, round: Round, c: Cmd)
    requires Inv(h) && h.cmd == Some(c) && round.mask.autoErr && !CmdErrorRead(round.mask)
    requires !Auto12Error(h, round.mask) && c.mrq.hasSbc && h.cfg.autoCmd23
    ensures var h' := IrqRound(h, round);
      Look(h', c.mrq).sbc.error && Look(h', c.mrq).finishes == 1 && h'.cmd != Some(c)
  {
    var sbc := Cmd(c.mrq, Sbc);
    NoCmdError(h, round.mask, round.cmdLines, c);
    assert CmdHalf(h, round).0 == FinishMrq(SetError(h, sbc, true), c.mrq) by { hide SetError, FinishMrq, CmdIrq; }
    hide Inv, CmdHalf, CmdIrq, IrqRound, Look, SetError, FinishMrq;
    FailedEnds(h, round, c, sbc);
  }

  lemma FailedOffBus(h: Host, f: Cmd)
    ensures var h1 := FinishMrq(SetError(h, f, true), f.mrq);
      && !Owns(h1.cmd, f.mrq) && !Owns(h1.dataCmd, f.mrq) && h1.data != Some(f.mrq)
      && (Owns(h.cmd, f.mrq) ==> h1.cmd.None?)
  {
    ErrorLook(h, f, true, f.mrq);
    FinishLook(SetError(h, f, true), f.mrq, f.mrq);
    hide SetError, FinishMrq;
  }

  // ---------------------------------------------------------------- errors of data

  /** What is known of the request whose data is being transferred. */
  lemma DataFacts(h: Host, r: Request)
    requires Inv(h) && h.data == Some(r)
    ensures r.hasData && h.dataCmd == Some(Cmd(r, Main)) && (Owns(h.cmd, r) ==> h.cmd == h.dataCmd)
    ensures var rec := Look(h, r); rec.stop.issued == 0 && rec.finishes == 0 && !rec.data.error
  {
    CmdKnown(h);
    hide Inv, ReqInv;
    DataBooked(h, r);
    DataRecord(h, r);
  }

  lemma DataRecord(h: Host, r: Request)
    requires ReqInv(h, r) && h.data == Some(r)
    ensures r.hasData && var rec := Look(h, r); rec.stop.issued == 0 && rec.finishes == 0 && !rec.data.error
  {
    hide MapInv, ResetInv, Outcome, Unmapping, Asleep, Look;
  }

  lemma SbcNoData(h: Host, c: Cmd)
    requires Inv(h) && h.cmd == Some(c) && c.role == Sbc
    ensures h.data.None?
  {
    Pick(h, c.mrq);
    SbcBooks(h, c.mrq);
    BusUnfinished(h, c.mrq);
    hide Inv, Base, ReqInv, Look;
    Alone(h, c.mrq);
  }

  lemma SbcBooks(h: Host, r: Request)
    requires ReqInv(h, r) && h.cmd == Some(Cmd(r, Sbc))
    ensures r.hasData && !Look(h, r).cmdDone && h.data != Some(r)
  {
    hide MapInv, ResetInv, Outcome, Unmapping, Asleep, Look;
  }

  /** The command half ends the request or its transfer before the data half sees the reading. */
  predicate TakenAway(h: Host, m: Mask, r: Request) {
    && Owns(h.cmd, r) && !Auto12Error(h, m)
    && (if CmdErrorRead(m) then m.timeout || !m.crc
        else (m.autoErr && r.hasSbc && h.cfg.autoCmd23) || (m.response && h.dataEarly))
  }

  /** The command half charges an error of a command to the data. */
  predicate Charged(h: Host, m: Mask, r: Request) {
    if Auto12Error(h, m) then m.autoTimeout || !m.busTest
    else Owns(h.cmd, r) && m.crc && !m.timeout && !m.busTest
  }

  /** The data request and what the reading says about it are as before. */
  predicate DataAsBefore(h: Host, h1: Host, r: Request) {
    && h1.data == Some(r) && h1.dataCmd == h.dataCmd && h1.cfg == h.cfg
    && var rec, rec1 := Look(h, r), Look(h1, r);
       rec1.data == rec.data && rec1.stop == rec.stop && rec1.finishes == rec.finishes
  }

  lemma RespondLook(h: Host, q: Request)
    requires h.cmd.Some?
    ensures var rec, rec' := Look(h, q), Look(Respond(h), q);
      rec'.data == rec.data && rec'.stop.issued == rec.stop.issued && rec'.finishes == rec.finishes
      && rec'.stop.error == rec.stop.error
      && (q != h.cmd.value.mrq || h.cmd.value.role == Main ==> rec'.stop == rec.stop)
    ensures Respond(h) == h.(cmd := None, obj := Respond(h).obj)
  {
  }

  lemma OtherResponse(h: Host, l: Lines, c: Cmd, r: Request)
    requires Inv(h) && h.cmd == Some(c) && h.data == Some(r) && c.mrq != r
    ensures DataAsBefore(h, FinishCommand(h, l), r)
  {
    if c.role == Sbc { SbcNoData(h, c); }
    if h.dataEarly { EarlyIsOwn(h); }
    CmdKnown(h);
    DataFacts(h, r);
    hide Inv, ReqInv, Look, FinishCommand;
    if CarriesData(c) { CmdBooked(h, c); }
    LoneResponse(h, l, c, r);
  }

  lemma LoneResponse(h: Host, l: Lines, c: Cmd, r: Request)
    requires h.cmd == Some(c) && h.data == Some(r) && h.dataCmd == Some(Cmd(r, Main)) && c.mrq != r
    requires c.role != Sbc && !h.dataEarly && !CarriesData(c)
    ensures DataAsBefore(h, FinishCommand(h, l), r)
  {
    RespondLook(h, r);
    hide Respond, FinishMrq, Look, CarriesData, FinishData, Send, RspBusy;
    FinishLook(Respond(h), c.mrq, r);
    FinishConfig(Respond(h), c.mrq);
  }

  lemma FinishConfig(h: Host, r: Request)
    ensures FinishMrq(h, r).cfg == h.cfg
  {
  }

  lemma OwnResponse(h: Host, l: Lines, r: Request)
    requires Inv(h) && h.cmd == Some(Cmd(r, Main)) && h.data == Some(r) && !h.dataEarly
    ensures DataAsBefore(h, FinishCommand(h, l), r) && FinishCommand(h, l) == Respond(h)
  {
    DataFacts(h, r);
    RespondLook(h, r);
    hide Inv, ReqInv, Respond, FinishMrq, Look, FinishData, Send;
  }

  function HandedOver(h: Host, m: Mask): Mask {
    if Auto12Error(h, m) then if m.autoTimeout then m.(dataTimeout := true) else m.(dataCrc := true)
    else if h.cmd.Some? && CmdErrorRead(m) && OnlyCrc(h.cmd.value, m) then m.(dataCrc := true)
    else m
  }

  /** Unless the command half takes the data request away, it hands it on with the reading. */
  lemma DataKept(h: Host, m: Mask, l: Lines, r: Request)
    requires Inv(h) && h.data == Some(r) && !TakenAway(h, m, r)
    ensures DataAsBefore(h, CmdIrq(h, m, l).0, r) && CmdIrq(h, m, l).1 == HandedOver(h, m)
  {
    if Auto12Error(h, m) || h.cmd.None? {
      KeptIdle(h, m, l, r);
    } else if CmdErrorRead(m) {
      DataFacts(h, r);
      hide Inv, Look, CmdIrq, DataAsBefore, HandedOver;
      KeptFailing(h, m, l, h.cmd.value, r);
    } else {
      hide *;
      KeptOtherwise(h, m, l, h.cmd.value, r);
    }
  }

  lemma KeptIdle(h: Host, m: Mask, l: Lines, r: Request)
    requires h.data == Some(r) && (Auto12Error(h, m) || h.cmd.None?)
    ensures DataAsBefore(h, CmdIrq(h, m, l).0, r) && CmdIrq(h, m, l).1 == HandedOver(h, m)
  {
    hide Look, FinishMrq, SetError, FinishCommand;
  }

  lemma KeptFailing(h: Host, m: Mask, l: Lines, c: Cmd, r: Request)
    requires h.cmd == Some(c) && h.data == Some(r) && CmdErrorRead(m) && !Auto12Error(h, m)
    requires r.hasData && h.dataCmd == Some(Cmd(r, Main)) && (c.mrq == r ==> h.cmd == h.dataCmd && m.crc && !m.timeout)
    ensures DataAsBefore(h, CmdIrq(h, m, l).0, r) && CmdIrq(h, m, l).1 == HandedOver(h, m)
  {
    CmdHalfFails(h, m, l, c);
    hide Look, CmdIrq, FinishMrq, SetError;
    if OnlyCrc(c, m) { CrcKeepsData(h, c, r); } else { FailedKeepsData(h, c, r); }
  }

  lemma CrcKeepsData(h: Host, c: Cmd, r: Request)
    requires c.role == Main && h.data == Some(r)
    ensures DataAsBefore(h, SetError(h, c, true).(cmd := None), r)
  {
  }

  lemma FailedKeepsData(h: Host, f: Cmd, r: Request)
    requires f.mrq != r && h.data == Some(r) && h.dataCmd == Some(Cmd(r, Main))
    ensures DataAsBefore(h, FinishMrq(SetError(h, f, true), f.mrq), r)
  {
    FailedLines(h, f);
    hide Look, SetError, FinishMrq;
  }

  lemma KeptOtherwise(h: Host, m: Mask, l: Lines, c: Cmd, r: Request)
    requires Inv(h) && h.cmd == Some(c) && h.data == Some(r) && !CmdErrorRead(m) && !Auto12Error(h, m)
    requires !TakenAway(h, m, r)
    ensures DataAsBefore(h, CmdIrq(h, m, l).0, r) && CmdIrq(h, m, l).1 == HandedOver(h, m)
  {
    NoCmdError(h, m, l, c);
    DataFacts(h, r);
    assert DataAsBefore(h, h, r) && HandedOver(h, m) == m;
    assert c.mrq == r ==>
      c == Cmd(r, Main) && !(m.autoErr && r.hasSbc && h.cfg.autoCmd23) && !(m.response && h.dataEarly);
    hide Inv, Look, CmdIrq, FinishCommand, SetError, FinishMrq, DataAsBefore, HandedOver, TakenAway;
    if m.autoErr && c.mrq.hasSbc && h.cfg.autoCmd23 {
      FailedKeepsData(h, Cmd(c.mrq, Sbc), r);
    } else if m.response {
      if c.mrq != r { OtherResponse(h, l, c, r); } else { OwnResponse(h, l, r); }
    }
  }

  lemma NoCmdError(h: Host, m: Mask, l: Lines, c: Cmd)
    requires h.cmd == Some(c) && !CmdErrorRead(m) && !Auto12Error(h, m)
    ensures CmdIrq(h, m, l) ==
      if m.autoErr && c.mrq.hasSbc && h.cfg.autoCmd23 then (FinishMrq(SetError(h, Cmd(c.mrq, Sbc), true), c.mrq), m)
      else if m.response then (FinishCommand(h, l), m) else (h, m)
  {
    hide FinishMrq, SetError, FinishCommand;
  }

  lemma FailedLines(h: Host, f: Cmd)
    ensures var h1 := FinishMrq(SetError(h, f, true), f.mrq);
      && h1.cfg == h.cfg && h1.data == (if h.data == Some(f.mrq) then None else h.data)
      && h1.dataCmd == (if Owns(h.dataCmd, f.mrq) then None else h.dataCmd)
    ensures forall q :: q != f.mrq ==> Look(FinishMrq(SetError(h, f, true), f.mrq), q) == Look(h, q)
  {
    ErrorLook(h, f, true, f.mrq);
    FinishLook(SetError(h, f, true), f.mrq, f.mrq);
    FinishConfig(SetError(h, f, true), f.mrq);
    forall q ensures q != f.mrq ==> Look(FinishMrq(SetError(h, f, true), f.mrq), q) == Look(h, q) {
      ErrorLook(h, f, true, q);
      FinishLook(SetError(h, f, true), f.mrq, q);
    }
    hide SetError, FinishMrq, Look;
  }

  lemma TakenData(h: Host, m: Mask, l: Lines, r: Request)
    requires Inv(h) && h.data == Some(r) && TakenAway(h, m, r)
    ensures var h1 := CmdIrq(h, m, l).0;
      h1.data.None? && Look(h1, r).data.error == false
  {
    var c := h.cmd.value;
    DataFacts(h, r);
    hide Inv, Look, CmdIrq, FinishCommand, SetError, FinishMrq;
    if CmdErrorRead(m) {
      CmdHalfFails(h, m, l, c);
      FailLook(h, c, r);
      FailedLines(h, c);
    } else {
      NoCmdError(h, m, l, c);
      FailLook(h, Cmd(r, Sbc), r);
      FailedLines(h, Cmd(r, Sbc));
      if h.dataEarly { EarlyResponse(h, l, r); }
    }
  }

  /** The response to a data command whose transfer is over already. */
  lemma EarlyResponse(h: Host, l: Lines, r: Request)
    requires h.cmd == Some(Cmd(r, Main)) && h.data == Some(r) && h.dataEarly && r.hasData
    requires var rec := Look(h, r); rec.stop.issued == 0 && rec.finishes == 0 && !rec.data.error
    ensures var h' := FinishCommand(h, l);
      && h'.data.None? && !Look(h', r).data.error
      && Moves(h', r, l, r.hasStop && !r.cap && !r.hasSbc && !h.cfg.autoCmd12)
  {
    RespondLook(h, r);
    hide Look, Respond, FinishMrq, FinishData, Send, Moves;
    FinishDataMoves(Respond(h), l);
    assert Moves(FinishCommand(h, l), r, l, r.hasStop && !r.cap && !r.hasSbc && !h.cfg.autoCmd12);
    assert FinishCommand(h, l) == FinishData(Respond(h), false, l);
    FinishDataLines(Respond(h), l);
  }

  /** A data error is recorded exactly when one is read, or charged to the data by the command
      half, and the data half gets to see it; then the transfer is over, the stop command on its
      way if there is one and the request finished if there is none. */
  lemma DataErrorRecorded(h: Host, round: Round, r: Request)
    requires Inv(h) && h.data == Some(r)
    ensures var m := round.mask;
            var h' := IrqRound(h, round);
      && (Look(h', r).data.error <==>
            !TakenAway(h, m, r) && !TuningReturn(m) && (DataFails(m) || Charged(h, m, r)))
      && (Look(h', r).data.error ==> Moves(h', r, round.dataLines, r.hasStop && !r.cap))
  {
    hide *;
    if TakenAway(h, round.mask, r) {
      TakenRecord(h, round, r);
    } else {
      KeptRecord(h, round, r);
      SameVerdict(h, round.mask, r);
    }
  }

  lemma TakenRecord(h: Host, round: Round, r: Request)
    requires Inv(h) && h.data == Some(r) && TakenAway(h, round.mask, r)
    ensures !Look(IrqRound(h, round), r).data.error
  {
    assert CmdHalf(h, round) == CmdIrq(h, round.mask, round.cmdLines) by { hide CmdIrq; }
    RoundIs(h, round);
    hide *;
    var (h1, m1) := CmdHalf(h, round);
    TakenData(h, round.mask, round.cmdLines, r);
    assert h1.data != Some(r);
    DataIrqSpares(h1, m1, round.dataLines, r);
  }

  lemma KeptHalf(h: Host, round: Round, r: Request)
    requires Inv(h) && h.data == Some(r) && !TakenAway(h, round.mask, r)
    ensures DataAsBefore(h, CmdHalf(h, round).0, r) && CmdHalf(h, round).1 == HandedOver(h, round.mask)
  {
    if CmdBits(round.mask) {
      hide Inv, CmdIrq;
      DataKept(h, round.mask, round.cmdLines, r);
    } else {
      DataFacts(h, r);
    }
  }

  lemma KeptRecord(h: Host, round: Round, r: Request)
    requires Inv(h) && h.data == Some(r) && !TakenAway(h, round.mask, r)
    ensures var m1 := HandedOver(h, round.mask);
            var h' := IrqRound(h, round);
      && (Look(h', r).data.error <==> !TuningReturn(m1) && DataFails(m1))
      && (Look(h', r).data.error ==> Moves(h', r, round.dataLines, r.hasStop && !r.cap))
  {
    var (h1, m1) := CmdHalf(h, round);
    assert !DataBits(m1) ==> !DataFails(m1);
    KeptHalf(h, round, r);
    DataFacts(h, r);
    hide Inv, Look, CmdHalf, DataIrq, IrqRound, HandedOver, DataFails, TuningReturn, Moves, DataBits;
    RoundIs(h, round);
    DataHalf(h1, m1, round.dataLines, r);
  }

  lemma SameVerdict(h: Host, m: Mask, r: Request)
    requires Inv(h) && h.data == Some(r)
    ensures DataFails(HandedOver(h, m)) <==> DataFails(m) || Charged(h, m, r)
    ensures TuningReturn(HandedOver(h, m)) <==> TuningReturn(m)
  {
    DataFacts(h, r);
    if h.cmd.Some? { CmdKnown(h); }
    hide Inv, ReqInv, Look, HandedOver, DataFails, Charged, TuningReturn;
    if h.cmd.Some? && CarriesData(h.cmd.value) { CmdBooked(h, h.cmd.value); }
    MaskVerdict(h, m, r);
  }

  lemma MaskVerdict(h: Host, m: Mask, r: Request)
    requires r.hasData && (Owns(h.cmd, r) ==> h.cmd == Some(Cmd(r, Main)))
    requires h.cmd.Some? && h.cmd.value.role == Main && h.cmd.value.mrq.hasData ==> h.cmd.value.mrq == r
    ensures DataFails(HandedOver(h, m)) <==> DataFails(m) || Charged(h, m, r)
    ensures TuningReturn(HandedOver(h, m)) <==> TuningReturn(m)
  {
    var t, d := m.(dataTimeout := true), m.(dataCrc := true);
    assert DataFails(t) && (DataFails(d) <==> DataFails(m) || !m.busTest);
    assert TuningReturn(t) == TuningReturn(m) && TuningReturn(d) == TuningReturn(m);
    hide DataFails, TuningReturn, Auto12Error;
    if !Auto12Error(h, m) {
      var crc := h.cmd.Some? && CmdErrorRead(m) && OnlyCrc(h.cmd.value, m);
      assert crc <==> Owns(h.cmd, r) && m.crc && !m.timeout;
      assert HandedOver(h, m) == if crc then d else m;
    }
  }

  /** The command half passes over everything else in a reading that says an Auto CMD12 failed: an
      error of a command of another request is acknowledged and recorded nowhere. */
  lemma CommandErrorMissed(h: Host, round: Round, c: Cmd)
    requires Inv(h) && h.cmd == Some(c) && CmdErrorRead(round.mask) && Auto12Error(h, round.mask)
    requires !Owns(h.dataCmd, c.mrq)
    ensures Look(IrqRound(h, round), c.mrq) == Look(h, c.mrq)
  {
    var m := round.mask;
    assert CmdHalf(h, round).0 == h by { hide FinishMrq, SetError, FinishCommand; }
    RoundIs(h, round);
    if h.data == Some(c.mrq) { DataFacts(h, c.mrq); }
    hide Inv, CmdHalf, DataIrq, IrqRound, Look;
    DataIrqSpares(h, CmdHalf(h, round).1, round.dataLines, c.mrq);
  }

  // ---------------------------------------------------------------- progress

  /** A reading that brings a response and nothing else. */
  predicate OnlyResponse(m: Mask) {
    m.response && !CmdErrorRead(m) && !m.autoErr && !DataBits(m)
  }

  lemma ResponseRound(h: Host, round: Round, c: Cmd)
    requires h.cmd == Some(c) && OnlyResponse(round.mask)
    ensures IrqRound(h, round) == FinishCommand(h, round.cmdLines)
  {
    hide FinishCommand, DataIrq, FinishMrq, SetError;
  }

  lemma UnansweredSbc(h: Host, r: Request)
    requires ReqInv(h, r) && h.cmd == Some(Cmd(r, Sbc))
    ensures var rec := Look(h, r); rec.sbc.responded == 0 && rec.main == FRESH_CMD
  {
    hide MapInv, ResetInv, Outcome, Unmapping, Asleep, Look;
  }

  lemma Unanswered(h: Host, c: Cmd)
    requires ReqInv(h, c.mrq) && h.cmd == Some(c)
    ensures CmdOf(Look(h, c.mrq), c.role).responded == 0
  {
    hide MapInv, ResetInv, Outcome, Unmapping, Asleep, Look;
  }

  lemma RespondCounts(h: Host, c: Cmd)
    requires h.cmd == Some(c)
    ensures var rec := CmdOf(Look(h, c.mrq), c.role);
      CmdOf(Look(Respond(h), c.mrq), c.role) == rec.(responded := rec.responded + 1)
    ensures c.role == Sbc ==> Look(Respond(h), c.mrq).main == Look(h, c.mrq).main
  {
  }

  /** CMD23 has been answered: the command behind it goes out if the lines it needs are free, and
      to the interrupt thread otherwise. */
  lemma CountAnswered(h: Host, round: Round, r: Request)
    requires Inv(h) && h.cmd == Some(Cmd(r, Sbc)) && OnlyResponse(round.mask)
    ensures var main := Cmd(r, Main);
            var h' := IrqRound(h, round);
      && Look(h', r).sbc.responded == 1
      && (if Permits(round.cmdLines, main) then h'.cmd == Some(main) && Look(h', r).main.issued == 1
          else h'.deferred == Some(main) && h'.cmd.None? && Look(h', r).main.issued == 0)
  {
    CmdKnown(h);
    ResponseRound(h, round, Cmd(r, Sbc));
    hide Inv, ReqInv, IrqRound, Look, FinishCommand, Permits;
    UnansweredSbc(h, r);
    CountFollowed(h, round.cmdLines, r);
  }

  lemma CountFollowed(h: Host, l: Lines, r: Request)
    requires h.cmd == Some(Cmd(r, Sbc)) && Look(h, r).sbc.responded == 0 && Look(h, r).main == FRESH_CMD
    ensures var main := Cmd(r, Main);
            var h' := FinishCommand(h, l);
      && Look(h', r).sbc.responded == 1
      && (if Permits(l, main) then h'.cmd == Some(main) && Look(h', r).main.issued == 1
          else h'.deferred == Some(main) && h'.cmd.None? && Look(h', r).main.issued == 0)
  {
    var h1 := Respond(h);
    CountIs(h, l, r);
    RespondCounts(h, Cmd(r, Sbc));
    assert h1.cmd.None? && Look(h1, r).sbc.responded == 1 && Look(h1, r).main == FRESH_CMD;
    hide FinishCommand, Respond, Look, Send, Defer, Permits;
    MainSent(h1, r, l);
    DeferLook(Send(h1, Cmd(r, Main), l).0, Cmd(r, Main), r);
  }

  lemma CountIs(h: Host, l: Lines, r: Request)
    requires h.cmd == Some(Cmd(r, Sbc))
    ensures var h2 := Send(Respond(h), Cmd(r, Main), l).0;
      FinishCommand(h, l) == if Permits(l, Cmd(r, Main)) then h2 else Defer(h2, Cmd(r, Main))
  {
    RefusedIs(Cmd(r, Main), l);
    SentIs(Respond(h), Cmd(r, Main), l);
    hide Respond, Send, Defer, Permits, Refused;
  }

  lemma MainSent(h: Host, r: Request, l: Lines)
    requires h.cmd.None?
    ensures var (h', sent) := Send(h, Cmd(r, Main), l);
      && sent == Permits(l, Cmd(r, Main)) && Look(h', r).main.issued == Look(h, r).main.issued + Bit(sent)
      && Look(h', r).sbc == Look(h, r).sbc && h'.cmd == (if sent then Some(Cmd(r, Main)) else None)
  {
    var c := Cmd(r, Main);
    var h1 := SetError(h, c, false).(warned := h.warned || h.cmd.Some?);
    RefusedIs(c, l);
    ClearMain(h, r);
    IssueMain(h1, r);
    hide Look, SetError, Issue, Refused, Permits;
  }

  lemma ClearMain(h: Host, r: Request)
    ensures var h1 := SetError(h, Cmd(r, Main), false).(warned := h.warned || h.cmd.Some?);
      && Look(h1, r).main.issued == Look(h, r).main.issued && Look(h1, r).sbc == Look(h, r).sbc && h1.cmd == h.cmd
  {
  }

  lemma IssueMain(h: Host, r: Request)
    ensures var h' := Issue(h, Cmd(r, Main));
      && Look(h', r).main.issued == Look(h, r).main.issued + 1 && Look(h', r).sbc == Look(h, r).sbc
      && h'.cmd == Some(Cmd(r, Main))
  {
    hide DataLine;
  }

  /** A command without data has been answered: its request is finished, unless its busy phase is
      still to end and the controller reports that. */
  lemma CommandAnswered(h: Host, round: Round, c: Cmd)
    requires Inv(h) && h.cmd == Some(c) && OnlyResponse(round.mask) && c.role != Sbc
    requires !(c.role == Main && c.mrq.hasData)
    ensures var h' := IrqRound(h, round);
            var waits := RspBusy(c) && !h.cfg.noBusyIrq && h.dataCmd == Some(c);
      && CmdOf(Look(h', c.mrq), c.role).responded == 1 && !Owns(h'.cmd, c.mrq)
      && Look(h', c.mrq).finishes == Bit(!waits) && (waits ==> h'.dataCmd == Some(c))
  {
    hide Inv, ReqInv, IrqRound, FinishCommand, Look, RspBusy, CmdOf;
    CmdKnown(h);
    ResponseRound(h, round, c);
    BusUnfinished(h, c.mrq);
    NotEarly(h, c);
    Unanswered(h, c);
    LoneCommand(h, round.cmdLines, c);
  }

  lemma NotEarly(h: Host, c: Cmd)
    requires Inv(h) && h.cmd == Some(c) && !(c.role == Main && c.mrq.hasData)
    ensures !(h.data.Some? && h.dataEarly)
  {
    hide Inv;
    if h.data.Some? && h.dataEarly {
      EarlyIsOwn(h);
      DataFacts(h, c.mrq);
    }
  }

  lemma LoneCommand(h: Host, l: Lines, c: Cmd)
    requires h.cmd == Some(c) && c.role != Sbc && !(c.role == Main && c.mrq.hasData)
    requires !(h.data.Some? && h.dataEarly) && Look(h, c.mrq).finishes == 0
    ensures var h' := FinishCommand(h, l);
            var waits := RspBusy(c) && !h.cfg.noBusyIrq && h.dataCmd == Some(c);
            var rec, rec' := Look(h, c.mrq), Look(h', c.mrq);
      && CmdOf(rec', c.role).responded == CmdOf(rec, c.role).responded + 1 && !Owns(h'.cmd, c.mrq)
      && rec'.finishes == Bit(!waits) && (waits ==> h'.dataCmd == Some(c))
  {
    var h1 := Respond(h);
    RespondCounts(h, c);
    RespondLook(h, c.mrq);
    LoneIs(h, l, c);
    hide Respond, FinishCommand, FinishMrq, Look, RspBusy, CmdOf;
    FinishLook(h1, c.mrq, c.mrq);
  }

  lemma LoneIs(h: Host, l: Lines, c: Cmd)
    requires h.cmd == Some(c) && c.role != Sbc && !(c.role == Main && c.mrq.hasData)
    requires !(h.data.Some? && h.dataEarly)
    ensures FinishCommand(h, l) ==
      if RspBusy(c) && !h.cfg.noBusyIrq && h.dataCmd == Some(c) then Respond(h) else FinishMrq(Respond(h), c.mrq)
  {
    RespondLook(h, c.mrq);
    hide Respond, FinishMrq, FinishData, Send, RspBusy, Look;
  }

  lemma FinishedAt(h: Host, r: Request)
    ensures !Owns(FinishMrq(h, r).cmd, r)
  {
  }

  /** A data command has been answered: the request waits for its data, or moves on if the data
      has been there first. */
  lemma DataCommandAnswered(h: Host, round: Round, r: Request)
    requires Inv(h) && h.cmd == Some(Cmd(r, Main)) && h.data == Some(r) && OnlyResponse(round.mask)
    ensures var h' := IrqRound(h, round);
      if h.dataEarly then Moves(h', r, round.cmdLines, r.hasStop && !r.cap && !r.hasSbc && !h.cfg.autoCmd12)
      else h'.data == Some(r) && h'.cmd.None? && Look(h', r).main.responded == 1 && Look(h', r).finishes == 0
  {
    var c := Cmd(r, Main);
    CmdKnown(h);
    DataFacts(h, r);
    ResponseRound(h, round, c);
    hide Inv, ReqInv, IrqRound, Look, FinishCommand, Moves;
    Unanswered(h, c);
    RespondCounts(h, c);
    RespondLook(h, r);
    hide Respond;
    if h.dataEarly { EarlyResponse(h, round.cmdLines, r); } else { OwnResponse(h, round.cmdLines, r); }
  }

  /** The end of a transfer is counted; before the response it is kept for later, and after it the
      request moves on. */
  lemma DataEndRead(h: Host, round: Round, r: Request)
    requires Inv(h) && h.data == Some(r) && !CmdBits(round.mask) && round.mask.dataEnd
    requires !DataFails(round.mask) && !TuningReturn(round.mask)
    ensures var h' := IrqRound(h, round);
      && Look(h', r).data.ended == Look(h, r).data.ended + 1 && !Look(h', r).data.error
      && (if Owns(h.cmd, r) then h'.data == Some(r) && h'.dataEarly
          else Moves(h', r, round.dataLines, r.hasStop && !r.cap && !r.hasSbc && !h.cfg.autoCmd12))
  {
    DataFacts(h, r);
    RoundIs(h, round);
    assert CmdHalf(h, round) == (h, round.mask) && DataBits(round.mask);
    hide Inv, CmdHalf, DataIrq, IrqRound, Look, Moves, DataFails, TuningReturn;
    DataHalf(h, round.mask, round.dataLines, r);
  }

  lemma BusyCommand(h: Host, c: Cmd)
    requires Inv(h) && h.data.None? && h.dataCmd == Some(c)
    ensures RspBusy(c) && Look(h, c.mrq).finishes == 0 && (Owns(h.cmd, c.mrq) ==> h.cmd == Some(c))
  {
    CmdKnown(h);
    BusUnfinished(h, c.mrq);
    hide Inv, ReqInv;
    BusyBooks(h, c);
  }

  lemma BusyBooks(h: Host, c: Cmd)
    requires ReqInv(h, c.mrq) && h.data.None? && h.dataCmd == Some(c)
    ensures RspBusy(c) && (Owns(h.cmd, c.mrq) ==> h.cmd == Some(c))
  {
    hide MapInv, ResetInv, Outcome, Unmapping, Asleep, Look;
  }

  /** A reading about a busy phase: a timeout fails the command, the end is counted and finishes
      the request if the response has been there, and nothing else matters. */
  lemma BusyRead(h: Host, round: Round, c: Cmd)
    requires Inv(h) && h.data.None? && h.dataCmd == Some(c) && !CmdBits(round.mask) && !TuningReturn(round.mask)
    ensures var m := round.mask;
            var h' := IrqRound(h, round);
            var rec, rec' := Look(h, c.mrq), Look(h', c.mrq);
      if m.dataTimeout then CmdOf(rec', c.role).error && rec'.finishes == 1 && h'.dataCmd.None?
      else if m.dataEnd then
        && CmdOf(rec', c.role).busyEnded == CmdOf(rec, c.role).busyEnded + 1
        && CmdOf(rec', c.role).error == CmdOf(rec, c.role).error
        && h'.dataCmd.None? && rec'.finishes == Bit(!Owns(h.cmd, c.mrq))
      else h' == h
  {
    BusyCommand(h, c);
    BusyRound(h, round);
    BusyIs(h, round.mask, c);
    hide Inv, IrqRound, Look, BusyIrq, FinishMrq, SetError, EndBusy, RspBusy;
    BusyTimesOut(h, c);
    BusyEnds(h, c);
  }

  lemma BusyRound(h: Host, round: Round)
    requires h.data.None? && !CmdBits(round.mask) && !TuningReturn(round.mask)
    ensures IrqRound(h, round) == if DataBits(round.mask) then BusyIrq(h, round.mask) else h
  {
    hide BusyIrq, CmdIrq, CmdBits, DataBits;
  }

  lemma BusyTimesOut(h: Host, c: Cmd)
    requires Look(h, c.mrq).finishes == 0
    ensures var h' := FinishMrq(SetError(h.(dataCmd := None), c, true), c.mrq);
      CmdOf(Look(h', c.mrq), c.role).error && Look(h', c.mrq).finishes == 1 && h'.dataCmd.None?
  {
    var h1 := h.(dataCmd := None);
    assert Look(h1, c.mrq) == Look(h, c.mrq);
    hide Look, SetError, FinishMrq;
    FailLook(h1, c, c.mrq);
    FailedLines(h1, c);
  }

  lemma BusyEnds(h: Host, c: Cmd)
    requires h.dataCmd == Some(c) && Look(h, c.mrq).finishes == 0
    ensures var h1 := EndBusy(h, c);
            var h2 := FinishMrq(h1, c.mrq);
            var rec, rec1, rec2 := Look(h, c.mrq), Look(h1, c.mrq), Look(h2, c.mrq);
      && CmdOf(rec1, c.role) == CmdOf(rec, c.role).(busyEnded := CmdOf(rec, c.role).busyEnded + 1)
      && CmdOf(rec2, c.role) == CmdOf(rec1, c.role) && rec1.finishes == 0 && rec2.finishes == 1
      && h1.dataCmd.None? && h2.dataCmd.None?
  {
    EndBusyLook(h, c, c.mrq);
    FinishLook(EndBusy(h, c), c.mrq, c.mrq);
    assert EndBusy(h, c).dataCmd.None?;
    hide Look, EndBusy, FinishMrq;
  }

  lemma BusyIs(h: Host, m: Mask, c: Cmd)
    requires h.dataCmd == Some(c) && RspBusy(c)
    ensures BusyIrq(h, m) ==
      if m.dataTimeout then FinishMrq(SetError(h.(dataCmd := None), c, true), c.mrq)
      else if m.dataEnd then if h.cmd == Some(c) then EndBusy(h, c) else FinishMrq(EndBusy(h, c), c.mrq)
      else h
  {
    hide FinishMrq, SetError, EndBusy, RspBusy;
  }

  // ---------------------------------------------------------------- over runs

  /** Later readings of the same interrupt forget no error. */
  lemma {:induction false} RoundsRemember(h: Host, rounds: seq<Round>, k: nat, r: Request)
    requires Inv(h) && k <= |rounds|
    ensures NoneLost(Look(IrqRounds(h, rounds[..k]), r), Look(IrqRounds(h, rounds), r))
    decreases |rounds|
  {
    hide Inv, Look, IrqRound;
    if k == |rounds| {
      assert rounds[..k] == rounds;
    } else {
      var front := rounds[..|rounds| - 1];
      assert front[..k] == rounds[..k];
      RoundsRemember(h, front, k, r);
      IrqRoundsKeep(h, front);
      RoundRemembers(IrqRounds(h, front), rounds[|rounds| - 1], r);
    }
  }

  lemma RoundRemembers(h: Host, round: Round, r: Request)
    requires Inv(h)
    ensures NoneLost(Look(h, r), Look(IrqRound(h, round), r))
  {
    var ls := {round.cmdLines, round.dataLines};
    IrqRoundTells(h, round, true, false, ls);
    hide Inv, Look, IrqRound, SomePermits;
    assert Told(r, StoryOf(h, r), StoryOf(IrqRound(h, round), r), true, false, ls);
  }

  lemma ScansRemember(h: Host, rounds: seq<Round>, r: Request)
    requires rounds != []
    ensures NoneLost(Look(IrqRounds(h, rounds), r), Look(Irq(h, rounds), r))
  {
    var h1 := IrqRounds(h, rounds);
    var h2 := Scan(h1, 0);
    var h3 := Scan(h2, 1);
    hide IrqRounds, Scan, Look, Same;
    ScanSame(h1, 0);
    SameAt(h1, h2, r);
    ScanSame(h2, 1);
    SameAt(h2, h3, r);
    SameObj(h3, h3.(woken := true));
    SameAt(h3, h3.(woken := true), r);
  }

  /** The state in which reading `k` of the interrupt of step `i` finds the driver. */
  function Before(states: seq<Host>, steps: seq<Step>, i: nat, k: nat): Host
    requires i < |steps| && i < |states| && steps[i].Interrupt? && k < |steps[i].rounds|
  {
    IrqRounds(states[i], steps[i].rounds[..k])
  }

  lemma ReadingStays(cfg: Config, states: seq<Host>, steps: seq<Step>, i: nat, k: nat, j: nat, r: Request)
    requires IsRun(cfg, states, steps) && i < j < |states| && steps[i].Interrupt? && k < |steps[i].rounds|
    ensures Inv(Before(states, steps, i, k))
    ensures NoneLost(Look(IrqRound(Before(states, steps, i, k), steps[i].rounds[k]), r), Look(states[j], r))
  {
    var rounds := steps[i].rounds;
    RunKeeps(cfg, states, steps, i);
    ErrorsStay(cfg, states, steps, i + 1, j, r);
    assert states[i + 1] == Irq(states[i], rounds) by { hide Irq, Inv, Enabled, Look; }
    hide IsRun;
    InterruptStays(states[i], rounds, k, r);
    hide Inv, Irq, IrqRound, IrqRounds, Look;
  }

  lemma InterruptStays(h: Host, rounds: seq<Round>, k: nat, r: Request)
    requires Inv(h) && k < |rounds|
    ensures Inv(IrqRounds(h, rounds[..k]))
    ensures NoneLost(Look(IrqRound(IrqRounds(h, rounds[..k]), rounds[k]), r), Look(Irq(h, rounds), r))
  {
    assert rounds[..k + 1][..k] == rounds[..k] && rounds[..k + 1][k] == rounds[k];
    assert IrqRounds(h, rounds[..k + 1]) == IrqRound(IrqRounds(h, rounds[..k]), rounds[k]);
    hide Inv, Look, Irq, IrqRound, IrqRounds;
    IrqRoundsKeep(h, rounds[..k]);
    RoundsRemember(h, rounds, k + 1, r);
    ScansRemember(h, rounds, r);
  }

  /** Over a whole run, a command for which an error has been read carries it for good; its request
      can no longer count as successful. */
  lemma CommandErrorForGood(cfg: Config, states: seq<Host>, steps: seq<Step>, i: nat, k: nat, j: nat, c: Cmd)
    requires IsRun(cfg, states, steps) && i < j < |states| && steps[i].Interrupt? && k < |steps[i].rounds|
    requires var h := Before(states, steps, i, k);
             var m := steps[i].rounds[k].mask;
      h.cmd == Some(c) && CmdErrorRead(m) && !Auto12Error(h, m)
    ensures CmdOf(Look(states[j], c.mrq), c.role).error && !ErrorFree(Look(states[j], c.mrq))
  {
    hide Inv, Look, IrqRound, Before, Enabled, Apply;
    ReadingStays(cfg, states, steps, i, k, j, c.mrq);
    CommandErrorRecorded(Before(states, steps, i, k), steps[i].rounds[k], c);
  }

  /** The same for data: a finished request is free of errors only if none of its readings had an
      error of its data that the data half got to see. */
  lemma DataErrorForGood(cfg: Config, states: seq<Host>, steps: seq<Step>, i: nat, k: nat, j: nat, r: Request)
    requires IsRun(cfg, states, steps) && i < j < |states| && steps[i].Interrupt? && k < |steps[i].rounds|
    requires var h := Before(states, steps, i, k);
             var m := steps[i].rounds[k].mask;
      h.data == Some(r) && !TakenAway(h, m, r) && !TuningReturn(m) && (DataFails(m) || Charged(h, m, r))
    ensures Look(states[j], r).data.error && !ErrorFree(Look(states[j], r))
  {
    hide Inv, Look, IrqRound, Before, Enabled, Apply;
    ReadingStays(cfg, states, steps, i, k, j, r);
    DataErrorRecorded(Before(states, steps, i, k), steps[i].rounds[k], r);
  }
}
