/** The driver's own routines, updating one `SdhciHost` in place.  Each is proved to do exactly
    what the function of the same name in RequestModel does, so everything proved about runs of
    those functions holds of this code.

    The fields from `cmd` to `dataTimer` are those of struct sdhci_host (`deviceDead`,
    `reqUseDma` and the timers are bits of it), and the error and cookie fields of the records
    in `mrqs` are those of the requests themselves.  `caller`, `workQueued`, `worker`, `woken`
    and `thread` say where the driver's threads stand.  The rest is a trace no routine branches
    on: the counters and marks in `mrqs`, `outstanding`, the reset counters and `warned`. */
module SdhciHosts {
  import opened Options
  import opened RequestModel
  import Model = RequestModel
  import opened RequestInvariant

  const MAX_MRQS: nat := 2

  // ---------------------------------------------------------------- the routines, act by act

  function Timed(h: Host, mrq: Request): Host {
    var viaData := DataLine(Cmd(mrq, Main));
    h.(timer := h.timer || !viaData, dataTimer := h.dataTimer || viaData)
  }

  function Untimed(h: Host, mrq: Request): Host {
    var viaData := DataLine(Cmd(mrq, Main));
    h.(timer := h.timer && viaData, dataTimer := h.dataTimer && !viaData)
  }

  function Lodged(h: Host, mrq: Request): Host {
    var trouble := SlotTrouble(h, mrq);
    h.(slot0 := if !trouble && h.slot0.None? then Some(mrq) else h.slot0,
       slot1 := if !trouble && h.slot0.Some? then Some(mrq) else h.slot1,
       warned := h.warned || trouble)
  }

  lemma LodgedCases(h: Host, mrq: Request)
    ensures Lodged(h, mrq) ==
      if SlotTrouble(h, mrq) then Warned(h, true)
      else if h.slot0.None? then h.(slot0 := Some(mrq)) else h.(slot1 := Some(mrq))
  {
  }

  function Released(h: Host, mrq: Request): Host {
    h.(cmd := if Owns(h.cmd, mrq) then None else h.cmd,
       dataCmd := if Owns(h.dataCmd, mrq) then None else h.dataCmd,
       deferred := if Owns(h.deferred, mrq) then None else h.deferred,
       data := if h.data == Some(mrq) then None else h.data)
  }

  function Flagged(h: Host, mrq: Request): Host {
    h.(pendingReset := h.pendingReset || NeedsReset(h, mrq))
  }

  function Booked(h: Host, mrq: Request): Host {
    var rec := Look(h, mrq);
    h.(obj := h.obj[mrq :=
        rec.(finishes := rec.finishes + 1, finished := Mark(h.cmdResets, h.dataResets, h.idleResets))])
  }

  lemma FinishInSteps(h: Host, mrq: Request)
    ensures Model.FinishMrq(h, mrq) == Booked(Untimed(Lodged(Flagged(Released(h, mrq), mrq), mrq), mrq), mrq)
  {
    hide ResetWorthy, DataLine, Owns;
    LodgedInSteps(h, mrq);
    var viaData := DataLine(Cmd(mrq, Main));
    hide Lodged, Flagged, Released;
  }

  /** The first half: every reference to the request dropped, and the request in a slot. */
  lemma LodgedInSteps(h: Host, mrq: Request)
    ensures var trouble := SlotTrouble(h, mrq);
      Lodged(Flagged(Released(h, mrq), mrq), mrq) ==
        h.(cmd := if Owns(h.cmd, mrq) then None else h.cmd,
           dataCmd := if Owns(h.dataCmd, mrq) then None else h.dataCmd,
           deferred := if Owns(h.deferred, mrq) then None else h.deferred,
           data := if h.data == Some(mrq) then None else h.data,
           pendingReset := h.pendingReset || NeedsReset(h, mrq),
           slot0 := if !trouble && h.slot0.None? then Some(mrq) else h.slot0,
           slot1 := if !trouble && h.slot0.Some? then Some(mrq) else h.slot1,
           warned := h.warned || trouble)
  {
    assert NeedsReset(Released(h, mrq), mrq) == NeedsReset(h, mrq);
    hide NeedsReset, Owns;
  }

  function Dropped(h: Host): Host {
    h.(data := None, dataCmd := None)
  }

  function Reset(h: Host, cmdLine: bool, dataLine: bool): Host {
    h.(cmdResets := h.cmdResets + Bit(cmdLine), dataResets := h.dataResets + Bit(dataLine))
  }

  function Counted(h: Host): Host {
    h.(idleResets := h.idleResets + Bit(h.cmd.None? && h.dataCmd.None?))
  }

  lemma ResetInSteps(h: Host)
    ensures Model.ResetBoth(h) == Reset(Counted(h), true, true)
  {
  }

  lemma ReleaseInSteps(h: Host)
    requires h.data.Some?
    ensures var error := Look(h, h.data.value).data.error;
            var cmdLine := error && (h.cmd.None? || h.cmd == h.dataCmd);
      Model.ReleaseData(h) == Reset(Dropped(h), cmdLine, error)
  {
    hide Look, Bit;
  }

  function Warned(h: Host, trouble: bool): Host {
    h.(warned := h.warned || trouble)
  }

  lemma Unwarned(h: Host)
    ensures Warned(h, false) == h
  {
  }

  function OnLines(h: Host, c: Cmd): Host {
    Warned(h, DataLine(c) && h.dataCmd.Some?).(cmd := Some(c), dataCmd := if DataLine(c) then Some(c) else h.dataCmd)
  }

  function WithData(h: Host, mrq: Request): Host {
    Warned(h, h.data.Some?).(data := Some(mrq), dataEarly := false)
  }

  function Chosen(h: Host, mrq: Request): Host {
    h.(reqUseDma := if h.cfg.useDma then mrq.mappable else h.reqUseDma)
  }

  lemma MappedInSteps(cfg: Config, mrq: Request, rec: Rec)
    ensures MappedRec(cfg, mrq, rec) ==
            if cfg.useDma && mrq.mappable then rec.(data := rec.data.(mapped := true, maps := rec.data.maps + 1))
                else rec
  {
  }

  function MappedRec(cfg: Config, mrq: Request, rec: Rec): Rec {
    var dma := cfg.useDma && mrq.mappable;
    rec.(data := rec.data.(mapped := rec.data.mapped || dma, maps := rec.data.maps + Bit(dma)))
  }

  function ModedRec(cfg: Config, mrq: Request, rec: Rec): Rec {
    rec.(auto12 := rec.auto12 + Bit(mrq.multi && AutoCmd12(cfg, mrq) && !mrq.ioExtended),
         auto23 := rec.auto23 + Bit(mrq.multi && AutoCmd23(cfg, mrq)))
  }

  function WrittenRec(c: Cmd, rec: Rec): Rec {
    var prev := CmdOf(rec, c.role);
    WithCmd(rec, c.role, prev.(issued := prev.issued + 1))
  }

  function Prepared(h: Host, mrq: Request): Host {
    Store(Chosen(WithData(h, mrq), mrq), mrq, MappedRec(h.cfg, mrq, Look(h, mrq)))
  }

  function Moded(h: Host, mrq: Request): Host {
    Store(h, mrq, ModedRec(h.cfg, mrq, Look(h, mrq)))
  }

  function Written(h: Host, c: Cmd): Host {
    Store(h, c.mrq, WrittenRec(c, Look(h, c.mrq)))
  }

  lemma RecInSteps(cfg: Config, c: Cmd, rec: Rec)
    ensures IssuedRec(cfg, c, rec) ==
            if CarriesData(c) then WrittenRec(c, ModedRec(cfg, c.mrq, MappedRec(cfg, c.mrq, rec)))
                else WrittenRec(c, rec)
  {
  }

  lemma IssueInSteps(h: Host, c: Cmd)
    ensures var h1 := OnLines(h, c);
            var h2 := if CarriesData(c) then Moded(Prepared(h1, c.mrq), c.mrq) else h1;
      Model.Issue(h, c) == Written(Timed(h2, c.mrq), c)
  {
    RecInSteps(h.cfg, c, Look(h, c.mrq));
    SameLook(h, c.mrq, c);
    if CarriesData(c) {
      hide Model.Issue, OnLines, Moded, Prepared, Written, Timed, Look, Store, IssuedRec, WrittenRec, ModedRec,
          MappedRec;
      BooksInSteps(OnLines(h, c), c);
      IssueFlat(h, c);
    } else {
      hide IssuedRec, WrittenRec, DataLine, CarriesData, Look;
    }
  }

  lemma SameLook(h: Host, r: Request, c: Cmd)
    ensures Look(Timed(h, c.mrq), r) == Look(h, r) == Look(OnLines(h, c), r)
    ensures Timed(h, c.mrq).cfg == h.cfg == OnLines(h, c).cfg
    ensures Look(Timed(OnLines(h, c), c.mrq), r) == Look(h, r)
  {
    hide DataLine;
  }

  lemma StoreTwice(h: Host, r: Request, a: Rec, b: Rec)
    ensures Store(Store(h, r, a), r, b) == Store(h, r, b) && Look(Store(h, r, a), r) == a
    ensures Store(h, r, a).cfg == h.cfg
  {
    assert h.obj[r := a][r := b] == h.obj[r := b];
  }

  lemma TimedStore(h: Host, r: Request, a: Rec)
    ensures Timed(Store(h, r, a), r) == Store(Timed(h, r), r, a)
  {
    hide DataLine;
  }

  /** Three entries in the books of one request are one entry. */
  lemma BooksInSteps(h: Host, c: Cmd)
    ensures var rec := ModedRec(h.cfg, c.mrq, MappedRec(h.cfg, c.mrq, Look(h, c.mrq)));
      Written(Timed(Moded(Prepared(h, c.mrq), c.mrq), c.mrq), c) ==
        Store(Timed(Chosen(WithData(h, c.mrq), c.mrq), c.mrq), c.mrq, WrittenRec(c, rec))
  {
    var r := c.mrq;
    var h0 := Chosen(WithData(h, r), r);
    var m := MappedRec(h.cfg, r, Look(h, r));
    var n := ModedRec(h.cfg, r, m);
    assert h0.cfg == h.cfg;
    hide Look, Store, Timed, Chosen, WithData, WrittenRec, ModedRec, MappedRec;
    StoreTwice(h0, r, m, n);
    TimedStore(h0, r, n);
    StoreTwice(Timed(h0, r), r, n, WrittenRec(c, n));
  }

  lemma IssueFlat(h: Host, c: Cmd)
    requires CarriesData(c)
    ensures var h1 := OnLines(h, c);
      Model.Issue(h, c)
          == Store(Timed(Chosen(WithData(h1, c.mrq), c.mrq), c.mrq), c.mrq, IssuedRec(h.cfg, c, Look(h, c.mrq)))
  {
    hide IssuedRec, DataLine, Look;
  }

  /** A command refused leaves nothing but a warning and its own error field. */
  lemma Refusal(h: Host, c: Cmd, lines: Lines)
    ensures var (h', sent) := Model.Send(h, c, lines);
      !sent ==> h'.(obj := h.obj) == h.(warned := h'.warned)
  {
    hide Issue, WithCmd, CmdOf, Refused;
  }

  lemma AtomicInSteps(h: Host, mrq: Request, lines: Lines)
    ensures var h0 := Accept(h, mrq);
            var (h1, sent) := Model.Send(h0, FirstCmd(h.cfg, mrq), lines);
      Model.SubmitAtomic(h, mrq, lines) ==
        if h.dead then Model.FinishMrqQueued(SetError(h0, Cmd(mrq, Main), true), mrq)
        else if sent then h1 else h1.(obj := h.obj, out := h.out)
  {
    Refusal(Accept(h, mrq), FirstCmd(h.cfg, mrq), lines);
    hide Model.Send, FirstCmd, Model.FinishMrqQueued, SetError;
  }

  lemma SendInSteps(h: Host, c: Cmd, lines: Lines)
    ensures var h1 := SetError(Warned(h, h.cmd.Some?), c, false);
      Model.Send(h, c, lines) ==
        if lines.cmdInhibit || (lines.dataInhibit && DataLine(c) && c.role != Stop) then (h1, false)
            else (Issue(h1, c), true)
  {
    WarnedError(h, c);
    hide Issue, SetError, DataLine, Warned;
  }

  lemma WarnedError(h: Host, c: Cmd)
    ensures SetError(h, c, false).(warned := h.warned || h.cmd.Some?) == SetError(Warned(h, h.cmd.Some?), c, false)
  {
    hide WithCmd, CmdOf;
  }

  lemma RespondInSteps(h: Host)
    requires h.cmd.Some?
    ensures var c := h.cmd.value;
      Model.Respond(h) == Store(h.(cmd := None), c.mrq, Answered(c, Look(h, c.mrq)))
  {
    hide WithCmd, CmdOf;
  }

  function Expired(h: Host, cmdTimer: bool, dataLineTimer: bool): Host {
    h.(timer := h.timer && !cmdTimer, dataTimer := h.dataTimer && !dataLineTimer)
  }

  lemma ExpiryInSteps(h: Host, expired: bool)
    ensures Expired(h, expired, false) == h.(timer := h.timer && !expired)
    ensures Expired(h, false, expired) == h.(dataTimer := h.dataTimer && !expired)
  {
  }

  // ---------------------------------------------------------------- the driver's state

  class SdhciHost {
    const cfg: Config
    var cmd: Option<Cmd>
    var dataCmd: Option<Cmd>
    var deferredCmd: Option<Cmd>
    var data: Option<Request>
    var dataEarly: bool
    const mrqsDone: array<Option<Request>>
    var pendingReset: bool
    var reqUseDma: bool
    var deviceDead: bool
    var timer: bool
    var dataTimer: bool
    var caller: Option<Caller>
    var workQueued: bool
    var worker: Drainer
    var woken: bool
    var thread: Thread
    var mrqs: map<Request, Rec>
    var outstanding: set<Request>
    var cmdResets: nat
    var dataResets: nat
    var idleResets: nat
    var warned: bool

    ghost predicate Valid() {
      mrqsDone.Length == MAX_MRQS
    }

    ghost function View(): Host
      requires Valid()
      reads this, mrqsDone
    {
      Host(cfg, cmd, dataCmd, deferredCmd, data, dataEarly, mrqsDone[0], mrqsDone[1],
           pendingReset, reqUseDma, deviceDead, timer, dataTimer, caller, workQueued, worker,
           woken, thread, mrqs, outstanding, cmdResets, dataResets, idleResets, warned)
    }

    constructor (config: Config)
      ensures Valid() && fresh(mrqsDone)
      ensures View() == Boot(config) && Inv(View())
    {
      cfg := config;
      cmd, dataCmd, deferredCmd, data, dataEarly := None, None, None, None, false;
      mrqsDone := new Option<Request>[MAX_MRQS](_ => None);
      pendingReset, reqUseDma, deviceDead, timer, dataTimer := false, false, false, false, false;
      caller, workQueued, worker, woken, thread := None, false, Idle, false, Sleeping;
      mrqs, outstanding, warned := map[], {}, false;
      cmdResets, dataResets, idleResets := 0, 0, 0;
      new;
      BootInv(config);
    }

    // -------------------------------------------------------------- one request's record

    function Record(mrq: Request): (rec: Rec)
      requires Valid()
      reads this, mrqsDone
      ensures rec == Look(View(), mrq)
    {
      if mrq in mrqs then mrqs[mrq] else FRESH
    }

    method SetRecord(mrq: Request, rec: Rec)
      requires Valid()
      modifies this`mrqs
      ensures View() == Store(old(View()), mrq, rec)
    {
      mrqs := mrqs[mrq := rec];
    }

    method SetCmdError(c: Cmd, error: bool)
      requires Valid()
      modifies this
      ensures View() == Model.SetError(old(View()), c, error)
      ensures data == old(data) && cmd == old(cmd) && dataCmd == old(dataCmd)
    {
      var rec := Record(c.mrq);
      mrqs := mrqs[c.mrq := WithCmd(rec, c.role, CmdOf(rec, c.role).(error := error))];
    }

    method SetDataError(mrq: Request)
      requires Valid()
      modifies this
      ensures View() == Model.SetDataError(old(View()), mrq) && Record(mrq).data.error
      ensures data == old(data) && cmd == old(cmd) && dataCmd == old(dataCmd)
    {
      var rec := Record(mrq);
      mrqs := mrqs[mrq := rec.(data := rec.data.(error := true))];
    }

    /** WARN_ON */
    method WarnOn(trouble: bool)
      requires Valid()
      modifies this`warned
      ensures View() == Warned(old(View()), trouble)
    {
      warned := warned || trouble;
    }

    // -------------------------------------------------------------- timers

    method ModTimer(mrq: Request)
      requires Valid()
      modifies this
      ensures View() == Timed(old(View()), mrq)
    {
      if DataLine(Cmd(mrq, Main)) { dataTimer := true; } else { timer := true; }
    }

    method DelTimer(mrq: Request)
      requires Valid()
      modifies this
      ensures View() == Untimed(old(View()), mrq)
    {
      if DataLine(Cmd(mrq, Main)) { dataTimer := false; } else { timer := false; }
    }

    // -------------------------------------------------------------- finishing a request

    /** The first slot holding `done`, or MAX_MRQS. */
    method FindSlot(done: Option<Request>) returns (i: nat)
      requires Valid()
      ensures i <= MAX_MRQS && (i < MAX_MRQS ==> mrqsDone[i] == done)
      ensures forall j :: 0 <= j < i ==> mrqsDone[j] != done
    {
      i := 0;
      while i < MAX_MRQS && mrqsDone[i] != done
        invariant i <= MAX_MRQS
        invariant forall j :: 0 <= j < i ==> mrqsDone[j] != done
      {
        i := i + 1;
      }
    }

    method SetMrqDone(mrq: Request)
      requires Valid()
      modifies this, mrqsDone
      ensures View() == Lodged(old(View()), mrq)
    {
      LodgedCases(View(), mrq);
      hide Lodged, Warned;
      var i := FindSlot(Some(mrq));
      if i < MAX_MRQS {
        WarnOn(true);
        return;
      }
      i := FindSlot(None);
      if i < MAX_MRQS { FillSlot(i, mrq); } else { WarnOn(true); }
    }

    method FillSlot(i: nat, mrq: Request)
      requires Valid() && i < MAX_MRQS
      modifies mrqsDone
      ensures View() == old(View()).(slot0 := if i == 0 then Some(mrq) else old(mrqsDone[0]),
                                     slot1 := if i == 0 then old(mrqsDone[1]) else Some(mrq))
    {
      mrqsDone[i] := Some(mrq);
    }

    method ReleaseLines(mrq: Request)
      requires Valid()
      modifies this`cmd, this`dataCmd
      ensures View() == old(View()).(cmd := if Owns(old(cmd), mrq) then None else old(cmd),
                                     dataCmd := if Owns(old(dataCmd), mrq) then None else old(dataCmd))
    {
      hide Owns;
      cmd := if Owns(cmd, mrq) then None else cmd;
      dataCmd := if Owns(dataCmd, mrq) then None else dataCmd;
    }

    method ReleaseRest(mrq: Request)
      requires Valid()
      modifies this`deferredCmd, this`data
      ensures View() == old(View()).(deferred := if Owns(old(deferredCmd), mrq) then None else old(deferredCmd),
                                     data := if old(data) == Some(mrq) then None else old(data))
    {
      hide Owns;
      deferredCmd := if Owns(deferredCmd, mrq) then None else deferredCmd;
      data := if data == Some(mrq) then None else data;
    }

    method Release(mrq: Request)
      requires Valid()
      modifies this`cmd, this`dataCmd, this`deferredCmd, this`data
      ensures View() == Released(old(View()), mrq)
    {
      hide Owns;
      ReleaseLines(mrq);
      ReleaseRest(mrq);
    }

    method FinishMrq(mrq: Request)
      requires Valid()
      modifies this, mrqsDone
      ensures View() == Model.FinishMrq(old(View()), mrq)
    {
      FinishInSteps(View(), mrq);
      hide Released, Flagged, Lodged, Untimed, Booked, Model.FinishMrq;
      Release(mrq);
      Flag(mrq);
      SetMrqDone(mrq);
      DelTimer(mrq);
      Book(mrq);
    }

    method Flag(mrq: Request)
      requires Valid()
      modifies this`pendingReset
      ensures View() == Flagged(old(View()), mrq)
    {
      hide ResetWorthy;
      if !deviceDead && ResetWorthy(cfg, mrq, Record(mrq)) { pendingReset := true; }
    }

    method Book(mrq: Request)
      requires Valid()
      modifies this
      ensures View() == Booked(old(View()), mrq)
    {
      var rec := Record(mrq);
      mrqs := mrqs[mrq := rec.(finishes := rec.finishes + 1, finished := Mark(cmdResets, dataResets, idleResets))];
    }

    method FinishMrqQueued(mrq: Request)
      requires Valid()
      modifies this, mrqsDone
      ensures View() == Model.FinishMrqQueued(old(View()), mrq)
    {
      hide Model.FinishMrq;
      FinishMrq(mrq);
      workQueued := true;
    }

    method FailMrqQueued(c: Cmd)
      requires Valid()
      modifies this, mrqsDone
      ensures View() == Model.FinishMrqQueued(SetError(old(View()), c, true), c.mrq)
    {
      hide Model.FinishMrqQueued, Model.SetError;
      SetCmdError(c, true);
      FinishMrqQueued(c.mrq);
    }

    // -------------------------------------------------------------- sending a command

    method TakeLines(c: Cmd)
      requires Valid()
      modifies this
      ensures View() == OnLines(old(View()), c)
    {
      hide DataLine, Warned;
      if DataLine(c) {
        WarnOn(dataCmd.Some?);
      } else {
        Unwarned(View());
      }
      cmd := Some(c);
      if DataLine(c) { dataCmd := Some(c); }
    }

    method InitializeData(mrq: Request)
      requires Valid()
      modifies this
      ensures View() == WithData(old(View()), mrq)
    {
      hide Warned;
      WarnOn(data.Some?);
      data := Some(mrq);
      dataEarly := false;
    }

    /** sdhci_prepare_data: map the buffers, or fall back to PIO. */
    method PrepareData(mrq: Request)
      requires Valid()
      modifies this
      ensures View() == Prepared(old(View()), mrq)
    {
      hide WithData, Chosen, MappedRec, Look, Store;
      var rec := Record(mrq);
      if cfg.useDma && mrq.mappable {
        rec := rec.(data := rec.data.(mapped := true, maps := rec.data.maps + 1));
      }
      assert rec == MappedRec(cfg, mrq, Record(mrq)) by { MappedInSteps(cfg, mrq, Record(mrq)); }
      InitializeData(mrq);
      ChooseDma(mrq);
      SetRecord(mrq, rec);
    }

    method ChooseDma(mrq: Request)
      requires Valid()
      modifies this`reqUseDma
      ensures View() == Chosen(old(View()), mrq)
    {
      if cfg.useDma { reqUseDma := mrq.mappable; }
    }

    method SetTransferMode(mrq: Request)
      requires Valid()
      modifies this
      ensures View() == Moded(old(View()), mrq)
    {
      var rec := Record(mrq);
      if mrq.multi {
        if AutoCmd12(cfg, mrq) && !mrq.ioExtended {
          rec := rec.(auto12 := rec.auto12 + 1);
        } else if AutoCmd23(cfg, mrq) {
          rec := rec.(auto23 := rec.auto23 + 1);
        }
      }
      assert rec == ModedRec(cfg, mrq, Record(mrq));
      hide ModedRec, Look, Store;
      SetRecord(mrq, rec);
    }

    /** The last act of sdhci_send_command: the write to the Command register. */
    method WriteCommand(c: Cmd)
      requires Valid()
      modifies this
      ensures View() == Written(old(View()), c)
    {
      hide WithCmd, CmdOf, Look, Store;
      var rec := Record(c.mrq);
      var prev := CmdOf(rec, c.role);
      SetRecord(c.mrq, WithCmd(rec, c.role, prev.(issued := prev.issued + 1)));
    }

    method IssueCommand(c: Cmd)
      requires Valid()
      modifies this
      ensures View() == Model.Issue(old(View()), c)
    {
      IssueInSteps(View(), c);
      hide Model.Issue, OnLines, Prepared, Moded, Timed, Written;
      TakeLines(c);
      if CarriesData(c) {
        PrepareData(c.mrq);
        SetTransferMode(c.mrq);
      }
      ModTimer(c.mrq);
      WriteCommand(c);
    }

    method SendCommand(c: Cmd, lines: Lines) returns (sent: bool)
      requires Valid()
      modifies this
      ensures (View(), sent) == Model.Send(old(View()), c, lines)
    {
      var refused := lines.cmdInhibit || (lines.dataInhibit && DataLine(c) && c.role != Stop);
      SendInSteps(View(), c, lines);
      hide Model.Send, Model.Issue, Model.SetError, DataLine, Warned, View;
      WarnOn(cmd.Some?);
      SetCmdError(c, false);
      if refused { return false; }
      IssueCommand(c);
      return true;
    }

    method DeferCommand(c: Cmd)
      requires Valid()
      modifies this
      ensures View() == Model.Defer(old(View()), c)
    {
      warned := warned || deferredCmd.Some?;
      deferredCmd := Some(c);
    }

    // -------------------------------------------------------------- finishing data and commands

    method DropData()
      requires Valid()
      modifies this`data, this`dataCmd
      ensures View() == Dropped(old(View()))
    {
      data := None;
      dataCmd := None;
    }

    method ResetCmdLine(wanted: bool)
      requires Valid()
      modifies this`cmdResets
      ensures View() == old(View()).(cmdResets := old(cmdResets) + Bit(wanted))
    {
      if wanted { cmdResets := cmdResets + 1; }
    }

    method ResetDataLine(wanted: bool)
      requires Valid()
      modifies this`dataResets
      ensures View() == old(View()).(dataResets := old(dataResets) + Bit(wanted))
    {
      if wanted { dataResets := dataResets + 1; }
    }

    /** sdhci_do_reset for the lines asked for. */
    method DoReset(cmdLine: bool, dataLine: bool)
      requires Valid()
      modifies this`cmdResets, this`dataResets
      ensures View() == Reset(old(View()), cmdLine, dataLine)
    {
      hide Bit;
      ResetCmdLine(cmdLine);
      ResetDataLine(dataLine);
    }

    /** sdhci_do_reset of the command line, then of the data line. */
    method ResetLines()
      requires Valid()
      modifies this`cmdResets, this`dataResets, this`idleResets
      ensures View() == Model.ResetBoth(old(View()))
    {
      ResetInSteps(View());
      hide Reset, Model.ResetBoth;
      CountIdle();
      DoReset(true, true);
    }

    /** Is the bus idle at the time of a reset? */
    method CountIdle()
      requires Valid()
      modifies this`idleResets
      ensures View() == Counted(old(View()))
    {
      if cmd.None? && dataCmd.None? { idleResets := idleResets + 1; }
    }

    /** The reset of sdhci_request_done. */
    method Recover()
      requires Valid()
      modifies this`cmdResets, this`dataResets, this`idleResets, this`pendingReset
      ensures View() == Model.Recovered(old(View()))
    {
      hide Model.ResetBoth;
      ResetLines();
      pendingReset := false;
    }

    method ReleaseData()
      requires Valid() && data.Some?
      modifies this
      ensures View() == Model.ReleaseData(old(View()))
    {
      ghost var h := View();
      var error := Record(data.value).data.error;
      var cmdLine := error && (cmd.None? || cmd == dataCmd);
      hide Model.ReleaseData, Reset, Dropped;
      DropData();
      DoReset(cmdLine, error);
      ReleaseInSteps(h);
    }

    /** Avoid triggering the warning in sdhci_send_command. */
    method DropCmd()
      requires Valid()
      modifies this`cmd
      ensures View() == old(View()).(cmd := None)
    {
      cmd := None;
    }

    method FinishData(swTimeout: bool, lines: Lines)
      requires Valid() && data.Some?
      modifies this, mrqsDone
      ensures View() == Model.FinishData(old(View()), swTimeout, lines)
    {
      hide Model.FinishMrq, Model.Send, Model.SetError, Model.Defer, Model.ReleaseData, AutoCmd12;
      var mrq := data.value;
      var error := Record(mrq).data.error;
      ReleaseData();
      if mrq.hasStop && ((!mrq.hasSbc && !AutoCmd12(cfg, mrq)) || error) {
        if mrq.cap {
          FinishMrq(mrq);
        } else {
          DropCmd();
          var sent := SendCommand(Cmd(mrq, Stop), lines);
          if !sent {
            if swTimeout {
              SetCmdError(Cmd(mrq, Stop), true);
              FinishMrq(mrq);
            } else {
              DeferCommand(Cmd(mrq, Stop));
            }
          }
        }
      } else {
        FinishMrq(mrq);
      }
    }

    method Respond()
      requires Valid() && cmd.Some?
      modifies this
      ensures View() == Model.Respond(old(View()))
      ensures data == old(data) && dataCmd == old(dataCmd) && dataEarly == old(dataEarly)
    {
      RespondInSteps(View());
      hide Model.Respond, Answered, Look;
      var c := cmd.value;
      var rec := Answered(c, Record(c.mrq));
      DropCmd();
      SetRecord(c.mrq, rec);
    }

    method FinishCommand(lines: Lines)
      requires Valid() && cmd.Some?
      modifies this, mrqsDone
      ensures View() == Model.FinishCommand(old(View()), lines)
    {
      hide Model.Respond, Model.FinishMrq, Model.Send, Model.Defer, Model.FinishData, RspBusy, CarriesData;
      var c := cmd.value;
      Respond();
      if RspBusy(c) && !CarriesData(c) && !cfg.noBusyIrq && dataCmd == Some(c) { return; }
      if c.role == Sbc {
        var sent := SendCommand(Cmd(c.mrq, Main), lines);
        if !sent { DeferCommand(Cmd(c.mrq, Main)); }
      } else {
        if data.Some? && dataEarly { FinishData(false, lines); }
        if !CarriesData(c) { FinishMrq(c.mrq); }
      }
    }

    // -------------------------------------------------------------- the interrupt handler

    method CmdIrq(mask: Mask, lines: Lines) returns (mask': Mask)
      requires Valid()
      modifies this, mrqsDone
      ensures (View(), mask') == Model.CmdIrq(old(View()), mask, lines)
    {
      hide Model.FinishMrq, Model.SetError, Model.FinishCommand, CarriesData;
      mask' := mask;
      if mask.autoErr && dataCmd.Some? && !dataCmd.value.mrq.hasSbc && cfg.autoCmd12 {
        if mask.autoTimeout { mask' := mask.(dataTimeout := true); } else { mask' := mask.(dataCrc := true); }
        return;
      }
      if cmd.None? { return; }
      var c := cmd.value;
      if mask.timeout || mask.crc || mask.endBit || mask.index {
        SetCmdError(c, true);
        if CarriesData(c) && mask.crc && !mask.timeout {
          cmd := None;
          mask' := mask.(dataCrc := true);
          return;
        }
        FinishMrq(c.mrq);
        return;
      }
      if mask.autoErr && c.mrq.hasSbc && cfg.autoCmd23 {
        SetCmdError(Cmd(c.mrq, Sbc), true);
        FinishMrq(c.mrq);
        return;
      }
      if mask.response { FinishCommand(lines); }
    }

    method BusyIrq(mask: Mask)
      requires Valid()
      modifies this, mrqsDone
      ensures View() == Model.BusyIrq(old(View()), mask)
    {
      hide Model.FinishMrq, Model.SetError, Model.EndBusy, RspBusy;
      if dataCmd.Some? && RspBusy(dataCmd.value) {
        var c := dataCmd.value;
        if mask.dataTimeout {
          DropDataCmd();
          SetCmdError(c, true);
          FinishMrq(c.mrq);
        } else if mask.dataEnd {
          EndBusy(c);
          if cmd == Some(c) { return; }
          FinishMrq(c.mrq);
        }
      }
    }

    method DropDataCmd()
      requires Valid()
      modifies this`dataCmd
      ensures View() == old(View()).(dataCmd := None)
    {
      dataCmd := None;
    }

    method EndBusy(c: Cmd)
      requires Valid()
      modifies this`dataCmd, this`mrqs
      ensures View() == Model.EndBusy(old(View()), c)
    {
      hide WithCmd, CmdOf, Look;
      var rec := Record(c.mrq);
      var prev := CmdOf(rec, c.role);
      DropDataCmd();
      SetRecord(c.mrq, WithCmd(rec, c.role, prev.(busyEnded := prev.busyEnded + 1)));
    }

    method EndData(mrq: Request)
      requires Valid()
      modifies this`mrqs
      ensures View() == Model.EndData(old(View()), mrq)
    {
      var rec := Record(mrq);
      SetRecord(mrq, rec.(data := rec.data.(ended := rec.data.ended + 1)));
    }

    method DataIrq(mask: Mask, lines: Lines)
      requires Valid()
      modifies this, mrqsDone
      ensures View() == Model.DataIrq(old(View()), mask, lines)
    {
      hide Model.FinishData, Model.SetDataError, Model.BusyIrq, Model.EndData;
      if mask.dataAvail && mask.tuning { return; }
      if data.None? {
        BusyIrq(mask);
        return;
      }
      var mrq := data.value;
      if mask.dataTimeout || mask.dataEndBit || (mask.dataCrc && !mask.busTest) || mask.admaError {
        SetDataError(mrq);
      }
      if Record(mrq).data.error {
        FinishData(false, lines);
      } else if mask.dataEnd {
        EndData(mrq);
        if cmd == dataCmd { dataEarly := true; } else { FinishData(false, lines); }
      }
    }

    method ClearSlot(i: nat)
      requires Valid() && i < MAX_MRQS
      modifies mrqsDone
      ensures View() == old(View()).(slot0 := if i == 0 then None else old(mrqsDone[0]),
                                     slot1 := if i == 0 then old(mrqsDone[1]) else None)
    {
      mrqsDone[i] := None;
    }

    method HandBack(i: nat, mrq: Request)
      requires Valid() && i < MAX_MRQS
      modifies this, mrqsDone
      ensures View() == Model.HandBack(old(View()), i, mrq)
    {
      ClearSlot(i);
      var rec := Record(mrq);
      outstanding := outstanding - {mrq};
      mrqs := mrqs[mrq := rec.(returned := rec.returned + 1, handedBack := Mark(cmdResets, dataResets, idleResets))];
    }

    method Irq(rounds: seq<Round>)
      requires Valid()
      modifies this, mrqsDone
      ensures View() == Model.Irq(old(View()), rounds)
    {
      hide Model.CmdIrq, Model.DataIrq, CmdBits, DataBits, Scan;
      if rounds != [] {
        var n := 0;
        while n < |rounds|
          invariant n <= |rounds|
          invariant View() == IrqRounds(old(View()), rounds[..n])
        {
          var mask := rounds[n].mask;
          if CmdBits(mask) { mask := CmdIrq(mask, rounds[n].cmdLines); }
          if DataBits(mask) { DataIrq(mask, rounds[n].dataLines); }
          assert rounds[..n + 1][..n] == rounds[..n];
          n := n + 1;
        }
        assert rounds[..n] == rounds;
        ScanSlots();
      }
      if deferredCmd.Some? { woken := true; }
    }

    /** Determine which finished requests can be handed back at once. */
    method ScanSlots()
      requires Valid()
      modifies this, mrqsDone
      ensures View() == Scan(Scan(old(View()), 0), 1)
    {
      hide Model.HandBack;
      var i := 0;
      while i < MAX_MRQS
        invariant i <= MAX_MRQS
        invariant View() == if i == 0 then old(View()) else if i == 1 then Scan(old(View()), 0)
            else Scan(Scan(old(View()), 0), 1)
      {
        var done := mrqsDone[i];
        if done.Some? {
          var mrq := done.value;
          if pendingReset || cfg.alwaysDefer || (reqUseDma && mrq.hasData && Record(mrq).data.mapped) {
            woken := true;
          } else {
            HandBack(i, mrq);
          }
        }
        i := i + 1;
      }
    }

    // -------------------------------------------------------------- timers and removal

    method TimeoutTimer()
      requires Valid()
      modifies this, mrqsDone
      ensures View() == Model.TimeoutTimer(old(View()))
    {
      hide Model.FinishMrqQueued, Model.SetError, DataLine;
      if cmd.Some? && !DataLine(cmd.value) { FailMrqQueued(cmd.value); }
    }

    method TimeoutDataTimer(lines: Lines)
      requires Valid()
      modifies this, mrqsDone
      ensures View() == Model.TimeoutDataTimer(old(View()), lines)
    {
      hide Model.FinishMrqQueued, Model.SetError, DataLine, Model.FinishData, Model.SetDataError;
      if data.Some? || dataCmd.Some? || (cmd.Some? && DataLine(cmd.value)) {
        if data.Some? {
          SetDataError(data.value);
          FinishData(true, lines);
          workQueued := true;
        } else if dataCmd.Some? {
          FailMrqQueued(dataCmd.value);
        } else {
          FailMrqQueued(cmd.value);
        }
      }
    }

    method ErrorOutMrqs()
      requires Valid()
      modifies this, mrqsDone
      ensures View() == Model.ErrorOut(old(View()))
    {
      hide Model.FinishMrqQueued, Model.SetError;
      if dataCmd.Some? { FailMrqQueued(dataCmd.value); }
      if cmd.Some? { FailMrqQueued(cmd.value); }
    }

    method CardEvent(present: bool)
      requires Valid()
      modifies this, mrqsDone
      ensures View() == Model.CardEvent(old(View()), present)
    {
      hide Model.ErrorOut, Model.ResetBoth;
      if (cmd.Some? || dataCmd.Some?) && !present {
        ResetLines();
        ErrorOutMrqs();
      }
    }

    method RemoveDead()
      requires Valid()
      modifies this, mrqsDone
      ensures View() == Model.Die(old(View()))
    {
      hide Model.ErrorOut;
      deviceDead := true;
      ErrorOutMrqs();
    }

    // -------------------------------------------------------------- submission and retries

    method Accept(mrq: Model.Request)
      requires Valid()
      modifies this`mrqs, this`outstanding
      ensures View() == Model.Accept(old(View()), mrq)
    {
      mrqs := mrqs[mrq := FRESH];
      outstanding := outstanding + {mrq};
    }

    method Request(mrq: Model.Request, present: bool, lines: Lines)
      requires Valid()
      modifies this, mrqsDone
      ensures View() == Model.Submit(old(View()), mrq, present, lines)
    {
      hide Model.FinishMrqQueued, Model.SetError, Model.Send, ManualCmd23, Model.Accept;
      Accept(mrq);
      if !present || deviceDead {
        FailMrqQueued(Cmd(mrq, Main));
        return;
      }
      var c := Cmd(mrq, if ManualCmd23(cfg, mrq) then Sbc else Main);
      var sent := SendCommand(c, lines);
      if !sent { Sleep(Some(Caller(c, RETRIES - 1))); }
    }

    method Restore(objects: map<Model.Request, Rec>, waiting: set<Model.Request>)
      requires Valid()
      modifies this`mrqs, this`outstanding
      ensures View() == old(View()).(obj := objects, out := waiting)
      ensures mrqs == objects && outstanding == waiting
    {
      mrqs, outstanding := objects, waiting;
    }

    /** A request refused because the controller is busy stays with the caller, as it was. */
    method RequestAtomic(mrq: Model.Request, lines: Lines) returns (busy: bool)
      requires Valid()
      modifies this, mrqsDone
      ensures View() == Model.SubmitAtomic(old(View()), mrq, lines)
      ensures busy ==> mrqs == old(mrqs) && outstanding == old(outstanding)
    {
      AtomicInSteps(View(), mrq, lines);
      hide Model.FinishMrqQueued, Model.SetError, Model.Send, ManualCmd23, Model.Accept, Model.SubmitAtomic;
      var mrqs0, outstanding0 := mrqs, outstanding;
      Accept(mrq);
      busy := false;
      if deviceDead {
        FailMrqQueued(Cmd(mrq, Main));
        return;
      }
      var sent := SendCommand(Cmd(mrq, if ManualCmd23(cfg, mrq) then Sbc else Main), lines);
      if !sent {
        busy := true;
        Restore(mrqs0, outstanding0);
      }
    }

    method Sleep(asleep: Option<Caller>)
      requires Valid()
      modifies this`caller
      ensures View() == old(View()).(caller := asleep)
    {
      caller := asleep;
    }

    method Park(at: Thread)
      requires Valid()
      modifies this`thread
      ensures View() == old(View()).(thread := at)
    {
      thread := at;
    }

    method TakeDeferred()
      requires Valid()
      modifies this`deferredCmd
      ensures View() == old(View()).(deferred := None)
    {
      deferredCmd := None;
    }

    /** One turn of sdhci_send_command_retry after its sleep, for the caller of sdhci_request. */
    method CallerWakes(present: bool, lines: Lines)
      requires Valid() && View().caller.Some?
      modifies this, mrqsDone
      ensures View() == Model.CallerWakes(old(View()), present, lines)
    {
      hide Model.FinishMrqQueued, Model.SetError, Model.Send;
      var Caller(c, left) := caller.value;
      Sleep(None);
      if !present || deviceDead {
        FailMrqQueued(c);
        return;
      }
      var sent := SendCommand(c, lines);
      if sent { return; }
      if left == 0 { FailMrqQueued(c); } else { Sleep(Some(Caller(c, left - 1))); }
    }

    /** The tail of sdhci_thread_irq, until it returns or goes to sleep. */
    method ThreadDefers(lines: Lines)
      requires Valid()
      modifies this, mrqsDone
      ensures View() == Model.ThreadDefers(old(View()), lines)
    {
      hide Model.Send;
      if deferredCmd.None? {
        Park(Sleeping);
        return;
      }
      var c := deferredCmd.value;
      var sent := SendCommand(c, lines);
      if sent {
        TakeDeferred();
        Park(Sleeping);
      } else {
        Park(Retrying(c, RETRIES - 1));
      }
    }

    method ThreadWakes(present: bool, lines: Lines)
      requires Valid() && View().thread.Retrying?
      modifies this, mrqsDone
      ensures View() == Model.ThreadWakes(old(View()), present, lines)
    {
      hide Model.FinishMrqQueued, Model.SetError, Model.Send;
      var Retrying(c, left) := thread;
      Park(Sleeping);
      if deferredCmd != Some(c) { return; }
      if !present || deviceDead {
        FailMrqQueued(c);
        return;
      }
      var sent := SendCommand(c, lines);
      if sent { TakeDeferred(); }
      else if left == 0 { FailMrqQueued(c); }
      else { Park(Retrying(c, left - 1)); }
    }

    // -------------------------------------------------------------- the drainers

    /** sdhci_request_done after the unmapping; `stop` is its result. */
    method ResetAndReturn(i: nat, mrq: Model.Request) returns (stop: bool)
      requires Valid() && i < MAX_MRQS
      modifies this, mrqsDone
      ensures (View(), stop) == Model.DrainTail(old(View()), i, mrq)
    {
      hide Model.HandBack, Model.Recovered, ResetWorthy;
      if !deviceDead && ResetWorthy(cfg, mrq, Record(mrq)) {
        if cmd.Some? || dataCmd.Some? { return true; }
        Recover();
      }
      HandBack(i, mrq);
      return false;
    }

    /** sdhci_request_done, until it returns or drops the lock for dma_unmap_sg. */
    method RequestDone() returns (pc: Drainer)
      requires Valid()
      modifies this, mrqsDone
      ensures (View(), pc) == Model.DrainStep(old(View()))
    {
      hide Model.DrainTail;
      var i := 0;
      while i < MAX_MRQS && mrqsDone[i].None?
        invariant i <= MAX_MRQS
        invariant forall j :: 0 <= j < i ==> mrqsDone[j].None?
      {
        i := i + 1;
      }
      if i == MAX_MRQS { return Idle; }
      var mrq := mrqsDone[i].value;
      var rec := Record(mrq);
      if reqUseDma && mrq.hasData && rec.data.mapped {
        mrqs := mrqs[mrq := rec.(data := rec.data.(unmaps := rec.data.unmaps + 1))];
        return InWindow(i, mrq);
      }
      var stop := ResetAndReturn(i, mrq);
      return if stop then Idle else Draining;
    }

    /** sdhci_request_done once it holds the lock again. */
    method RequestUnmapped(i: nat, mrq: Model.Request) returns (pc: Drainer)
      requires Valid() && i < MAX_MRQS
      modifies this, mrqsDone
      ensures (View(), pc) == Model.WindowEnd(old(View()), i, mrq)
    {
      hide Model.DrainTail, Store, Look;
      var rec := Record(mrq);
      SetRecord(mrq, rec.(data := rec.data.(mapped := false)));
      var stop := ResetAndReturn(i, mrq);
      return if stop then Idle else Draining;
    }

    method Drain(pc: Drainer) returns (pc': Drainer)
      requires Valid() && (pc.InWindow? ==> pc.slot < MAX_MRQS)
      modifies this, mrqsDone
      ensures (View(), pc') == Model.RunDrainer(old(View()), pc)
    {
      hide Model.DrainStep, Model.WindowEnd;
      if pc.InWindow? { pc' := RequestUnmapped(pc.slot, pc.mrq); } else { pc' := RequestDone(); }
    }

    // -------------------------------------------------------------- any one step

    method WorkerRuns()
      requires Valid() && (View().worker.InWindow? ==> View().worker.slot < MAX_MRQS)
      modifies this, mrqsDone
      ensures View() == Model.WorkerRuns(old(View()))
    {
      hide RunDrainer;
      var pc := Drain(worker);
      worker := pc;
    }

    method ThreadRuns()
      requires Valid() && View().thread.Drain? && (ThreadInWindow(View()) ==> View().thread.pc.slot < MAX_MRQS)
      modifies this, mrqsDone
      ensures View() == Model.ThreadRuns(old(View()))
    {
      hide RunDrainer;
      var pc := Drain(thread.pc);
      thread := if pc.Idle? then Deferring else Thread.Drain(pc);
    }

    method Expire(cmdTimer: bool, dataLineTimer: bool)
      requires Valid()
      modifies this`timer, this`dataTimer
      ensures View() == Expired(old(View()), cmdTimer, dataLineTimer)
    {
      if cmdTimer { timer := false; }
      if dataLineTimer { dataTimer := false; }
    }

    method CmdTimerFires(expired: bool)
      requires Valid()
      modifies this, mrqsDone
      ensures View() == Apply(old(View()), CmdTimeout(expired))
    {
      ExpiryInSteps(View(), expired);
      hide Model.TimeoutTimer, Expired;
      Expire(expired, false);
      TimeoutTimer();
    }

    method DataTimerFires(expired: bool, lines: Lines)
      requires Valid()
      modifies this, mrqsDone
      ensures View() == Apply(old(View()), DataTimeout(expired, lines))
    {
      ExpiryInSteps(View(), expired);
      hide Model.TimeoutDataTimer, Expired;
      Expire(false, expired);
      TimeoutDataTimer(lines);
    }

    method WorkerStarts()
      requires Valid()
      modifies this`workQueued, this`worker
      ensures View() == old(View()).(workQueued := false, worker := Draining)
    {
      workQueued := false;
      worker := Draining;
    }

    method ThreadStarts()
      requires Valid()
      modifies this`woken, this`thread
      ensures View() == old(View()).(woken := false, thread := Thread.Drain(Draining))
    {
      woken := false;
      thread := Thread.Drain(Draining);
    }

    /** A step of the block layer, of the hardware or of a timer. */
    method Event(s: Step)
      requires Valid() && Enabled(View(), s)
      requires s.Submits? || s.SubmitsAtomic? || s.Interrupt? || s.CmdTimeout? || s.DataTimeout?
          || s.CardChanges? || s.Dies?
      modifies this, mrqsDone
      ensures View() == Apply(old(View()), s)
    {
      hide View, Model.Submit, Model.SubmitAtomic, Model.Irq, Model.TimeoutTimer, Model.TimeoutDataTimer,
        Model.CardEvent, Model.Die, Admissible;
      match s
      case Submits(r, present, lines) => Request(r, present, lines);
      case SubmitsAtomic(r, lines) => var _ := RequestAtomic(r, lines);
      case Interrupt(rounds) => Irq(rounds);
      case CmdTimeout(expired) => CmdTimerFires(expired);
      case DataTimeout(expired, lines) => DataTimerFires(expired, lines);
      case CardChanges(present) => CardEvent(present);
      case Dies => RemoveDead();
    }

    /** A step of one of the driver's own threads. */
    method ThreadEvent(s: Step)
      requires Valid() && Enabled(View(), s)
      requires s.CallerStep? || s.WorkerStarts? || s.WorkerStep? || s.ThreadStarts? || s.ThreadDrains?
            || s.ThreadTakesDeferred? || s.ThreadStep?
      requires View().worker.InWindow? ==> View().worker.slot < MAX_MRQS
      requires ThreadInWindow(View()) ==> View().thread.pc.slot < MAX_MRQS
      modifies this, mrqsDone
      ensures View() == Apply(old(View()), s)
    {
      hide View, Model.CallerWakes, Model.WorkerRuns, Model.ThreadRuns, Model.ThreadDefers, Model.ThreadWakes,
          Admissible;
      match s
      case CallerStep(present, lines) => CallerWakes(present, lines);
      case WorkerStarts => WorkerStarts();
      case WorkerStep => WorkerRuns();
      case ThreadStarts => ThreadStarts();
      case ThreadDrains => ThreadRuns();
      case ThreadTakesDeferred(lines) => ThreadDefers(lines);
      case ThreadStep(present, lines) => ThreadWakes(present, lines);
    }

    /** Whatever happens next, the routine it runs takes the step of the transition system and
        leaves the driver in a state where everything in RequestInvariant still holds. */
    method Perform(s: Step)
      requires Valid() && Inv(View()) && Enabled(View(), s)
      modifies this, mrqsDone
      ensures View() == Apply(old(View()), s) && Inv(View())
    {
      StepKeeps(View(), s);
      WindowSlots(View());
      hide *;
      if s.CallerStep? || s.WorkerStarts? || s.WorkerStep? || s.ThreadStarts? || s.ThreadDrains?
         || s.ThreadTakesDeferred? || s.ThreadStep? {
        ThreadEvent(s);
      } else {
        Event(s);
      }
    }
  }

  lemma WindowSlots(h: Host)
    requires Inv(h)
    ensures h.worker.InWindow? ==> h.worker.slot < MAX_MRQS
    ensures ThreadInWindow(h) ==> h.thread.pc.slot < MAX_MRQS
  {
  }
}
