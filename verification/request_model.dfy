/** The request life cycle of the SDHCI driver, as functions from one driver state to the next.

    One function per routine that runs with `host->lock` held.  Whatever the routine reads
    from the hardware or from the block layer (interrupt status, inhibit bits, card presence)
    is a parameter.  `Apply` turns the routines into the atomic steps of a transition system:
    two steps are separated exactly where the driver drops the lock.
 */
module RequestModel {
  import opened Options

  /** A request is made of up to three commands: CMD23, the command itself, CMD12. */
  datatype Role = Sbc | Main | Stop

  /** What the block layer fixes before it submits a request; `id` names the submission.
      `busy` and `stopBusy` are the MMC_RSP_BUSY flags in force when the command is written,
      `cap` is cap_cmd_during_tfr, `multi` selects multi-block transfer mode, `ioExtended` is
      CMD53, and `mappable` says whether the data can be mapped for DMA. */
  datatype Request = Request(
    id: nat, hasSbc: bool, hasData: bool, hasStop: bool, busy: bool, stopBusy: bool,
    cap: bool, multi: bool, ioExtended: bool, mappable: bool)

  datatype Cmd = Cmd(mrq: Request, role: Role)

  /** Controller configuration: quirks and capabilities that never change while requests run. */
  datatype Config = Config(
    noBusyIrq: bool, resetAfterRequest: bool, alwaysDefer: bool,
    useDma: bool, autoCmd12: bool, autoCmd23: bool)

  /** The fields of an mmc_command the driver writes, then what has happened to it. */
  datatype CmdRec = CmdRec(error: bool, issued: nat, responded: nat, busyEnded: nat)

  datatype DataRec = DataRec(error: bool, mapped: bool, ended: nat, maps: nat, unmaps: nat)

  /** How many resets have been performed at some moment: of each line, and of both at once with
      neither `cmd` nor `data_cmd` set. */
  datatype Mark = Mark(cmdResets: nat, dataResets: nat, idleResets: nat)

  /** The mutable part of one mmc_request together with its history. */
  datatype Rec = Rec(
    sbc: CmdRec, main: CmdRec, stop: CmdRec, data: DataRec,
    auto12: nat, auto23: nat, cmdDone: bool,
    finishes: nat, finished: Mark, returned: nat, handedBack: Mark)

  /** Where a drainer of `mrqs_done` stands: `InWindow` is the unlocked dma_unmap_sg call. */
  datatype Drainer = Idle | Draining | InWindow(slot: nat, mrq: Request)

  /** The threaded interrupt handler: it drains first, then looks at the deferred command. */
  datatype Thread = Sleeping | Drain(pc: Drainer) | Deferring | Retrying(cmd: Cmd, left: nat)

  datatype Caller = Caller(cmd: Cmd, left: nat)

  datatype Host = Host(
    cfg: Config,
    cmd: Option<Cmd>, dataCmd: Option<Cmd>, deferred: Option<Cmd>, data: Option<Request>,
    dataEarly: bool, slot0: Option<Request>, slot1: Option<Request>,
    pendingReset: bool, reqUseDma: bool, dead: bool, timer: bool, dataTimer: bool,
    caller: Option<Caller>, workQueued: bool, worker: Drainer, woken: bool, thread: Thread,
    obj: map<Request, Rec>, out: set<Request>,
    cmdResets: nat, dataResets: nat, idleResets: nat, warned: bool)

  const FRESH_CMD := CmdRec(false, 0, 0, 0)
  const FRESH := Rec(FRESH_CMD, FRESH_CMD, FRESH_CMD, DataRec(false, false, 0, 0, 0),
                     0, 0, false, 0, Mark(0, 0, 0), 0, Mark(0, 0, 0))
  const RETRIES: nat := 10

  function Bit(b: bool): nat {
    if b then 1 else 0
  }

  // ---------------------------------------------------------------- static predicates

  predicate RspBusy(c: Cmd) {
    match c.role
    case Sbc => false
    case Main => c.mrq.busy
    case Stop => c.mrq.stopBusy
  }

  predicate CarriesData(c: Cmd) {
    c.role == Main && c.mrq.hasData
  }

  predicate DataLine(c: Cmd) {
    CarriesData(c) || RspBusy(c)
  }

  predicate AutoCmd12(cfg: Config, r: Request) {
    !r.hasSbc && cfg.autoCmd12 && !r.cap
  }

  predicate AutoCmd23(cfg: Config, r: Request) {
    r.hasSbc && cfg.autoCmd23
  }

  predicate ManualCmd23(cfg: Config, r: Request) {
    r.hasSbc && !cfg.autoCmd23
  }

  /** The Auto CMD12 / Auto CMD23 enables sdhci_set_transfer_mode writes with the command. */
  predicate SelectsAuto12(cfg: Config, r: Request) {
    r.hasData && r.multi && AutoCmd12(cfg, r) && !r.ioExtended
  }

  predicate SelectsAuto23(cfg: Config, r: Request) {
    r.hasData && r.multi && AutoCmd23(cfg, r)
  }

  function FirstCmd(cfg: Config, r: Request): Cmd {
    Cmd(r, if ManualCmd23(cfg, r) then Sbc else Main)
  }

  predicate Owns(o: Option<Cmd>, r: Request) {
    o.Some? && o.value.mrq == r
  }

  // ---------------------------------------------------------------- access to one request

  function Look(h: Host, r: Request): Rec {
    if r in h.obj then h.obj[r] else FRESH
  }

  function Store(h: Host, r: Request, rec: Rec): Host {
    h.(obj := h.obj[r := rec])
  }

  function CmdOf(rec: Rec, role: Role): CmdRec {
    match role case Sbc => rec.sbc case Main => rec.main case Stop => rec.stop
  }

  function WithCmd(rec: Rec, role: Role, c: CmdRec): Rec {
    match role
    case Sbc => rec.(sbc := c)
    case Main => rec.(main := c)
    case Stop => rec.(stop := c)
  }

  function SetError(h: Host, c: Cmd, error: bool): Host {
    var rec := Look(h, c.mrq);
    Store(h, c.mrq, WithCmd(rec, c.role, CmdOf(rec, c.role).(error := error)))
  }

  function SetDataError(h: Host, r: Request): Host {
    var rec := Look(h, r);
    Store(h, r, rec.(data := rec.data.(error := true)))
  }

  // ---------------------------------------------------------------- finishing a request

  /** sdhci_do_reset of the command line, then of the data line */
  function ResetBoth(h: Host): Host {
    h.(cmdResets := h.cmdResets + 1, dataResets := h.dataResets + 1,
       idleResets := h.idleResets + Bit(h.cmd.None? && h.dataCmd.None?))
  }

  /** The reset of sdhci_request_done, which settles every demand for one. */
  function Recovered(h: Host): Host {
    ResetBoth(h).(pendingReset := false)
  }

  /** The errors (or the quirk) that make a finished request demand a controller reset. */
  predicate ResetWorthy(cfg: Config, r: Request, rec: Rec) {
    rec.main.error || (r.hasSbc && rec.sbc.error) || (r.hasStop && rec.stop.error) || cfg.resetAfterRequest
  }

  predicate NeedsReset(h: Host, r: Request) {
    !h.dead && ResetWorthy(h.cfg, r, Look(h, r))
  }

  /** sdhci_set_mrq_done complains when the request is already in a slot or no slot is free. */
  predicate SlotTrouble(h: Host, r: Request) {
    h.slot0 == Some(r) || h.slot1 == Some(r) || (h.slot0.Some? && h.slot1.Some?)
  }

  /** __sdhci_finish_mrq */
  function FinishMrq(h: Host, r: Request): Host {
    var rec := Look(h, r);
    var trouble := SlotTrouble(h, r);
    h.(cmd := if Owns(h.cmd, r) then None else h.cmd,
       dataCmd := if Owns(h.dataCmd, r) then None else h.dataCmd,
       deferred := if Owns(h.deferred, r) then None else h.deferred,
       data := if h.data == Some(r) then None else h.data,
       pendingReset := h.pendingReset || NeedsReset(h, r),
       slot0 := if !trouble && h.slot0.None? then Some(r) else h.slot0,
       slot1 := if !trouble && h.slot0.Some? then Some(r) else h.slot1,
       warned := h.warned || trouble,
       timer := h.timer && DataLine(Cmd(r, Main)),
       dataTimer := h.dataTimer && !DataLine(Cmd(r, Main)),
       obj := h.obj[r := rec.(finishes := rec.finishes + 1, finished := Mark(h.cmdResets, h.dataResets, h.idleResets))])
  }

  /** sdhci_finish_mrq */
  function FinishMrqQueued(h: Host, r: Request): Host {
    FinishMrq(h, r).(workQueued := true)
  }

  // ---------------------------------------------------------------- sending a command

  /** The two inhibit bits read from the Present State register. */
  datatype Lines = Lines(cmdInhibit: bool, dataInhibit: bool)

  /** A CMD12 sent as stop command does not wait for the data line. */
  predicate Refused(c: Cmd, lines: Lines) {
    lines.cmdInhibit || (lines.dataInhibit && DataLine(c) && c.role != Stop)
  }

  /** The history of a request once sdhci_send_command has written `c`: sdhci_prepare_data
      has mapped its buffers and sdhci_set_transfer_mode has chosen the automatic command. */
  function IssuedRec(cfg: Config, c: Cmd, rec: Rec): Rec {
    var prev := CmdOf(rec, c.role);
    var counted := WithCmd(rec, c.role, prev.(issued := prev.issued + 1));
    if !CarriesData(c) then counted
    else
      var dma := cfg.useDma && c.mrq.mappable;
      counted.(data := rec.data.(mapped := rec.data.mapped || dma, maps := rec.data.maps + Bit(dma)),
               auto12 := rec.auto12 + Bit(SelectsAuto12(cfg, c.mrq)),
               auto23 := rec.auto23 + Bit(SelectsAuto23(cfg, c.mrq)))
  }

  /** sdhci_send_command once the inhibit bits allow it: sdhci_mod_timer arms one timer, and
      the WARN_ONs of sdhci_send_command and sdhci_initialize_data leave their mark. */
  function Issue(h: Host, c: Cmd): Host {
    var viaData := DataLine(Cmd(c.mrq, Main));
    h.(cmd := Some(c),
       dataCmd := if DataLine(c) then Some(c) else h.dataCmd,
       data := if CarriesData(c) then Some(c.mrq) else h.data,
       dataEarly := h.dataEarly && !CarriesData(c),
       reqUseDma := if CarriesData(c) && h.cfg.useDma then c.mrq.mappable else h.reqUseDma,
       timer := h.timer || !viaData,
       dataTimer := h.dataTimer || viaData,
       warned := h.warned || (DataLine(c) && h.dataCmd.Some?) || (CarriesData(c) && h.data.Some?),
       obj := h.obj[c.mrq := IssuedRec(h.cfg, c, Look(h, c.mrq))])
  }

  /** sdhci_send_command; the flag is its result. */
  function Send(h: Host, c: Cmd, lines: Lines): (Host, bool) {
    var cleared := SetError(h, c, false).(warned := h.warned || h.cmd.Some?);
    if Refused(c, lines) then (cleared, false) else (Issue(cleared, c), true)
  }

  /** Leave a refused command to the interrupt thread. */
  function Defer(h: Host, c: Cmd): Host {
    h.(deferred := Some(c), warned := h.warned || h.deferred.Some?)
  }

  // ---------------------------------------------------------------- finishing data and commands

  predicate WantsStop(cfg: Config, r: Request, dataError: bool) {
    r.hasStop && ((!r.hasSbc && !AutoCmd12(cfg, r)) || dataError)
  }

  /** __sdhci_finish_data, up to the decision whether to send CMD12. */
  function ReleaseData(h: Host): Host
    requires h.data.Some?
  {
    var error := Look(h, h.data.value).data.error;
    h.(data := None, dataCmd := None,
       cmdResets := h.cmdResets + Bit(error && (h.cmd.None? || h.cmd == h.dataCmd)),
       dataResets := h.dataResets + Bit(error))
  }

  /** __sdhci_finish_data */
  function FinishData(h: Host, swTimeout: bool, lines: Lines): Host
    requires h.data.Some?
  {
    var r := h.data.value;
    var h1 := ReleaseData(h);
    if !WantsStop(h.cfg, r, Look(h, r).data.error) || r.cap then FinishMrq(h1, r)
    else
      var (h2, sent) := Send(h1.(cmd := None), Cmd(r, Stop), lines);
      if sent then h2
      else if swTimeout then FinishMrq(SetError(h2, Cmd(r, Stop), true), r)
      else Defer(h2, Cmd(r, Stop))
  }

  function Respond(h: Host): Host
    requires h.cmd.Some?
  {
    var c := h.cmd.value;
    var rec := Look(h, c.mrq);
    var prev := CmdOf(rec, c.role);
    var rec' := WithCmd(rec, c.role, prev.(responded := prev.responded + 1));
    Store(h.(cmd := None), c.mrq,
          rec'.(cmdDone := rec.cmdDone || (c.mrq.cap && c.role == Main)))
  }

  /** sdhci_finish_command */
  function FinishCommand(h: Host, lines: Lines): Host
    requires h.cmd.Some?
  {
    var c := h.cmd.value;
    var h1 := Respond(h);
    if RspBusy(c) && !CarriesData(c) && !h.cfg.noBusyIrq && h.dataCmd == Some(c) then h1
    else if c.role == Sbc then
      var (h2, sent) := Send(h1, Cmd(c.mrq, Main), lines);
      if sent then h2 else Defer(h2, Cmd(c.mrq, Main))
    else
      var h2 := if h1.data.Some? && h1.dataEarly then FinishData(h1, false, lines) else h1;
      if CarriesData(c) then h2 else FinishMrq(h2, c.mrq)
  }

  // ---------------------------------------------------------------- the interrupt handler

  /** One reading of the Interrupt Status register.  `autoTimeout` is the Auto CMD status,
      `busTest` and `tuning` say whether the Command register holds CMD14 or a tuning command. */
  datatype Mask = Mask(
    response: bool, timeout: bool, crc: bool, endBit: bool, index: bool, autoErr: bool,
    dataEnd: bool, dataAvail: bool, otherData: bool,
    dataTimeout: bool, dataCrc: bool, dataEndBit: bool, admaError: bool,
    autoTimeout: bool, busTest: bool, tuning: bool)

  /** One turn of the loop in sdhci_irq, with the inhibit bits its two halves may read. */
  datatype Round = Round(mask: Mask, cmdLines: Lines, dataLines: Lines)

  predicate CmdBits(m: Mask) {
    m.response || m.timeout || m.crc || m.endBit || m.index || m.autoErr
  }

  predicate DataBits(m: Mask) {
    m.dataEnd || m.dataAvail || m.otherData || m.dataTimeout || m.dataCrc || m.dataEndBit || m.admaError
  }

  /** sdhci_cmd_irq; the second component is the mask as it leaves it for the data half. */
  function CmdIrq(h: Host, m: Mask, lines: Lines): (Host, Mask) {
    if m.autoErr && h.dataCmd.Some? && !h.dataCmd.value.mrq.hasSbc && h.cfg.autoCmd12 then
      (h, if m.autoTimeout then m.(dataTimeout := true) else m.(dataCrc := true))
    else if h.cmd.None? then (h, m)
    else
      var c := h.cmd.value;
      if m.timeout || m.crc || m.endBit || m.index then
        var failed := SetError(h, c, true);
        if CarriesData(c) && m.crc && !m.timeout
        then (failed.(cmd := None), m.(dataCrc := true))
        else (FinishMrq(failed, c.mrq), m)
      else if m.autoErr && c.mrq.hasSbc && h.cfg.autoCmd23 then
        (FinishMrq(SetError(h, Cmd(c.mrq, Sbc), true), c.mrq), m)
      else if m.response then (FinishCommand(h, lines), m)
      else (h, m)
  }

  function EndBusy(h: Host, c: Cmd): Host {
    var rec := Look(h, c.mrq);
    var prev := CmdOf(rec, c.role);
    Store(h.(dataCmd := None), c.mrq, WithCmd(rec, c.role, prev.(busyEnded := prev.busyEnded + 1)))
  }

  function EndData(h: Host, r: Request): Host {
    var rec := Look(h, r);
    Store(h, r, rec.(data := rec.data.(ended := rec.data.ended + 1)))
  }

  /** sdhci_data_irq while no data transfer is active: the end of a busy phase. */
  function BusyIrq(h: Host, m: Mask): Host {
    if h.dataCmd.None? || !RspBusy(h.dataCmd.value) then h
    else
      var c := h.dataCmd.value;
      if m.dataTimeout then FinishMrq(SetError(h.(dataCmd := None), c, true), c.mrq)
      else if m.dataEnd then
        var h1 := EndBusy(h, c);
        if h.cmd == h.dataCmd then h1 else FinishMrq(h1, c.mrq)
      else h
  }

  /** sdhci_data_irq.  The PIO and SDMA branches move bytes only and are not part of this state. */
  function DataIrq(h: Host, m: Mask, lines: Lines): Host {
    if m.dataAvail && m.tuning then h
    else if h.data.None? then BusyIrq(h, m)
    else
      var r := h.data.value;
      var failed := m.dataTimeout || m.dataEndBit || (m.dataCrc && !m.busTest) || m.admaError;
      if failed || Look(h, r).data.error then
        FinishData(if failed then SetDataError(h, r) else h, false, lines)
      else if m.dataEnd then
        var h1 := EndData(h, r);
        if h.cmd == h.dataCmd then h1.(dataEarly := true) else FinishData(h1, false, lines)
      else h
  }

  function IrqRound(h: Host, round: Round): Host {
    var (h1, m) := if CmdBits(round.mask) then CmdIrq(h, round.mask, round.cmdLines) else (h, round.mask);
    if DataBits(m) then DataIrq(h1, m, round.dataLines) else h1
  }

  function IrqRounds(h: Host, rounds: seq<Round>): Host
    decreases |rounds|
  {
    if rounds == [] then h else IrqRound(IrqRounds(h, rounds[..|rounds| - 1]), rounds[|rounds| - 1])
  }

  /** Clear slot `i`; mmc_request_done gives the request in it back to the block layer. */
  function HandBack(h: Host, i: nat, r: Request): Host {
    var rec := Look(h, r);
    h.(slot0 := if i == 0 then None else h.slot0,
       slot1 := if i == 0 then h.slot1 else None,
       out := h.out - {r},
       obj := h.obj[r :=
           rec.(returned := rec.returned + 1, handedBack := Mark(h.cmdResets, h.dataResets, h.idleResets))])
  }

  predicate DeferDone(h: Host, r: Request) {
    h.pendingReset || h.cfg.alwaysDefer || (h.reqUseDma && r.hasData && Look(h, r).data.mapped)
  }

  function Slot(h: Host, i: nat): Option<Request> {
    if i == 0 then h.slot0 else h.slot1
  }

  /** The look at slot `i` when the handler is about to leave. */
  function Scan(h: Host, i: nat): Host {
    if Slot(h, i).None? then h
    else if DeferDone(h, Slot(h, i).value) then h.(woken := true)
    else HandBack(h, i, Slot(h, i).value)
  }

  /** sdhci_irq; no rounds at all is a reading of zero. */
  function Irq(h: Host, rounds: seq<Round>): Host {
    var h1 := if rounds == [] then h else Scan(Scan(IrqRounds(h, rounds), 0), 1);
    if h1.deferred.Some? then h1.(woken := true) else h1
  }

  // ---------------------------------------------------------------- timers and removal

  /** sdhci_timeout_timer */
  function TimeoutTimer(h: Host): Host {
    if h.cmd.Some? && !DataLine(h.cmd.value)
    then FinishMrqQueued(SetError(h, h.cmd.value, true), h.cmd.value.mrq)
    else h
  }

  /** sdhci_timeout_data_timer */
  function TimeoutDataTimer(h: Host, lines: Lines): Host {
    if h.data.Some? then FinishData(SetDataError(h, h.data.value), true, lines).(workQueued := true)
    else if h.dataCmd.Some? then FinishMrqQueued(SetError(h, h.dataCmd.value, true), h.dataCmd.value.mrq)
    else if h.cmd.Some? && DataLine(h.cmd.value)
    then FinishMrqQueued(SetError(h, h.cmd.value, true), h.cmd.value.mrq)
    else h
  }

  /** sdhci_error_out_mrqs */
  function ErrorOut(h: Host): Host {
    var h1 := if h.dataCmd.Some?
      then FinishMrqQueued(SetError(h, h.dataCmd.value, true), h.dataCmd.value.mrq)
      else h;
    if h1.cmd.Some? then FinishMrqQueued(SetError(h1, h1.cmd.value, true), h1.cmd.value.mrq) else h1
  }

  /** sdhci_card_event */
  function CardEvent(h: Host, present: bool): Host {
    if (h.cmd.Some? || h.dataCmd.Some?) && !present then ErrorOut(ResetBoth(h)) else h
  }

  /** sdhci_remove_host on a dead controller */
  function Die(h: Host): Host {
    ErrorOut(h.(dead := true))
  }

  // ---------------------------------------------------------------- submission and retries

  function Accept(h: Host, r: Request): Host {
    h.(obj := h.obj[r := FRESH], out := h.out + {r})
  }

  /** sdhci_request, until it returns or goes to sleep with the lock dropped. */
  function Submit(h: Host, r: Request, present: bool, lines: Lines): Host {
    var h0 := Accept(h, r);
    if !present || h.dead then FinishMrqQueued(SetError(h0, Cmd(r, Main), true), r)
    else
      var (h1, sent) := Send(h0, FirstCmd(h.cfg, r), lines);
      if sent then h1 else h1.(caller := Some(Caller(FirstCmd(h.cfg, r), RETRIES - 1)))
  }

  /** sdhci_request_atomic; a refused request stays with the caller. */
  function SubmitAtomic(h: Host, r: Request, lines: Lines): Host {
    var h0 := Accept(h, r);
    if h.dead then FinishMrqQueued(SetError(h0, Cmd(r, Main), true), r)
    else
      var (h1, sent) := Send(h0, FirstCmd(h.cfg, r), lines);
      if sent then h1 else h.(warned := h1.warned)
  }

  /** One turn of sdhci_send_command_retry after its sleep, for the caller of sdhci_request. */
  function CallerWakes(h: Host, present: bool, lines: Lines): Host
    requires h.caller.Some?
  {
    var Caller(c, left) := h.caller.value;
    var awake := h.(caller := None);
    if !present || h.dead then FinishMrqQueued(SetError(awake, c, true), c.mrq)
    else
      var (h1, sent) := Send(awake, c, lines);
      if sent then h1
      else if left == 0 then FinishMrqQueued(SetError(h1, c, true), c.mrq)
      else h1.(caller := Some(Caller(c, left - 1)))
  }

  /** The tail of sdhci_thread_irq, until it returns or goes to sleep with the lock dropped. */
  function ThreadDefers(h: Host, lines: Lines): Host {
    if h.deferred.None? then h.(thread := Sleeping)
    else
      var c := h.deferred.value;
      var (h1, sent) := Send(h, c, lines);
      if sent then h1.(deferred := None, thread := Sleeping)
      else h1.(thread := Retrying(c, RETRIES - 1))
  }

  /** One turn of sdhci_send_command_retry after its sleep, for the interrupt thread. */
  function ThreadWakes(h: Host, present: bool, lines: Lines): Host
    requires h.thread.Retrying?
  {
    var Retrying(c, left) := h.thread;
    var awake := h.(thread := Sleeping);
    if h.deferred != Some(c) then awake
    else if !present || h.dead then FinishMrqQueued(SetError(awake, c, true), c.mrq)
    else
      var (h1, sent) := Send(awake, c, lines);
      if sent then h1.(deferred := None)
      else if left == 0 then FinishMrqQueued(SetError(h1, c, true), c.mrq)
      else h1.(thread := Retrying(c, left - 1))
  }

  // ---------------------------------------------------------------- the drainers

  function FirstDone(h: Host): Option<nat> {
    if h.slot0.Some? then Some(0) else if h.slot1.Some? then Some(1) else None
  }

  /** What sdhci_request_done does to the shared state after the unmapping.  The flag is its
      result: true tells the drainer to stop. */
  function DrainTail(h: Host, i: nat, r: Request): (Host, bool) {
    if NeedsReset(h, r) then
      if h.cmd.Some? || h.dataCmd.Some? then (h, true)
      else (HandBack(Recovered(h), i, r), false)
    else (HandBack(h, i, r), false)
  }

  /** sdhci_request_done up to the point where it returns or drops the lock to unmap. */
  function DrainStep(h: Host): (Host, Drainer) {
    if FirstDone(h).None? then (h, Idle)
    else
      var i := FirstDone(h).value;
      var r := Slot(h, i).value;
      var rec := Look(h, r);
      if h.reqUseDma && r.hasData && rec.data.mapped then
        (Store(h, r, rec.(data := rec.data.(unmaps := rec.data.unmaps + 1))), InWindow(i, r))
      else
        var (h1, stop) := DrainTail(h, i, r);
        (h1, if stop then Idle else Draining)
  }

  /** The rest of sdhci_request_done once it holds the lock again. */
  function WindowEnd(h: Host, i: nat, r: Request): (Host, Drainer) {
    var rec := Look(h, r);
    var (h1, stop) := DrainTail(Store(h, r, rec.(data := rec.data.(mapped := false))), i, r);
    (h1, if stop then Idle else Draining)
  }

  function RunDrainer(h: Host, pc: Drainer): (Host, Drainer) {
    if pc.InWindow? then WindowEnd(h, pc.slot, pc.mrq) else DrainStep(h)
  }

  /** One step of sdhci_complete_work. */
  function WorkerRuns(h: Host): Host {
    var (h1, pc) := RunDrainer(h, h.worker);
    h1.(worker := pc)
  }

  /** One step of the draining loop of sdhci_thread_irq. */
  function ThreadRuns(h: Host): Host
    requires h.thread.Drain?
  {
    var (h1, pc) := RunDrainer(h, h.thread.pc);
    h1.(thread := if pc.Idle? then Deferring else Drain(pc))
  }

  // ---------------------------------------------------------------- the transition system

  datatype Step =
    | Submits(r: Request, present: bool, lines: Lines)
    | SubmitsAtomic(r: Request, lines: Lines)
    | CallerStep(present: bool, lines: Lines)
    | Interrupt(rounds: seq<Round>)
    | CmdTimeout(expired: bool)
    | DataTimeout(expired: bool, lines: Lines)
    | WorkerStarts | WorkerStep
    | ThreadStarts | ThreadDrains | ThreadTakesDeferred(lines: Lines) | ThreadStep(present: bool, lines: Lines)
    | CardChanges(present: bool)
    | Dies

  /** A second request may be submitted beside a first only if the first is a
      cap_cmd_during_tfr data request whose command has been answered (mmc_command_done), and
      the second uses no data line. */
  predicate Overlaps(h: Host, q: Request) {
    q.cap && q.hasData && Look(h, q).cmdDone
  }

  predicate CommandOnly(r: Request) {
    !r.hasData && !r.busy && !r.hasSbc
  }

  predicate WellFormed(r: Request) {
    (r.hasStop ==> r.hasData) && (r.hasSbc ==> r.hasData)
  }

  /** What the block layer guarantees when it submits `r`. */
  predicate Admissible(h: Host, r: Request) {
    WellFormed(r) && r !in h.obj &&
    forall q :: q in h.out ==> Overlaps(h, q) && CommandOnly(r)
  }

  predicate WorkerInWindow(h: Host) {
    h.worker.InWindow?
  }

  predicate ThreadInWindow(h: Host) {
    h.thread.Drain? && h.thread.pc.InWindow?
  }

  /** When a step can be taken.  The environment is as free as the hardware allows, except
      for `Admissible` and for the assumption that while one drainer is inside its unlocked
      window the other one does not drain. */
  predicate Enabled(h: Host, s: Step) {
    match s
    case Submits(r, _, _) => Admissible(h, r)
    case SubmitsAtomic(r, _) => Admissible(h, r)
    case CallerStep(_, _) => h.caller.Some?
    case Interrupt(_) => true
    case CmdTimeout(_) => true
    case DataTimeout(_, _) => true
    case WorkerStarts => h.workQueued && h.worker.Idle?
    case WorkerStep => !h.worker.Idle? && !ThreadInWindow(h)
    case ThreadStarts => h.woken && h.thread.Sleeping?
    case ThreadDrains => h.thread.Drain? && !WorkerInWindow(h)
    case ThreadTakesDeferred(_) => h.thread.Deferring?
    case ThreadStep(_, _) => h.thread.Retrying?
    case CardChanges(_) => true
    case Dies => true
  }

  function Apply(h: Host, s: Step): Host
    requires Enabled(h, s)
  {
    match s
    case Submits(r, present, lines) => Submit(h, r, present, lines)
    case SubmitsAtomic(r, lines) => SubmitAtomic(h, r, lines)
    case CallerStep(present, lines) => CallerWakes(h, present, lines)
    case Interrupt(rounds) => Irq(h, rounds)
    case CmdTimeout(expired) => TimeoutTimer(h.(timer := h.timer && !expired))
    case DataTimeout(expired, lines) => TimeoutDataTimer(h.(dataTimer := h.dataTimer && !expired), lines)
    case WorkerStarts => h.(workQueued := false, worker := Draining)
    case WorkerStep => WorkerRuns(h)
    case ThreadStarts => h.(woken := false, thread := Drain(Draining))
    case ThreadDrains => ThreadRuns(h)
    case ThreadTakesDeferred(lines) => ThreadDefers(h, lines)
    case ThreadStep(present, lines) => ThreadWakes(h, present, lines)
    case CardChanges(present) => CardEvent(h, present)
    case Dies => Die(h)
  }

  /** A controller that has just been set up. */
  function Boot(cfg: Config): Host {
    Host(cfg, None, None, None, None, false, None, None, false, false, false, false, false,
         None, false, Idle, false, Sleeping, map[], {}, 0, 0, 0, false)
  }

  /** The states a run goes through: every step is enabled where it is taken. */
  predicate IsRun(cfg: Config, states: seq<Host>, steps: seq<Step>) {
    |states| == |steps| + 1 && states[0] == Boot(cfg) &&
    forall i :: 0 <= i < |steps| ==> Enabled(states[i], steps[i]) && states[i + 1] == Apply(states[i], steps[i])
  }
}
