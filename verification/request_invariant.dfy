/** What every step of the request life cycle keeps. */
module RequestInvariant {
  import opened Options
  import opened RequestModel

  // ---------------------------------------------------------------- where a request is

  predicate OnBus(h: Host, r: Request) {
    Owns(h.cmd, r) || Owns(h.dataCmd, r) || h.data == Some(r)
  }

  predicate Asleep(h: Host, r: Request) {
    h.caller.Some? && h.caller.value.cmd.mrq == r
  }

  predicate Unmapping(h: Host, r: Request) {
    (WorkerInWindow(h) && h.worker.mrq == r) || (ThreadInWindow(h) && h.thread.pc.mrq == r)
  }

  function RoleIn(o: Option<Cmd>, r: Request): Option<Role> {
    if Owns(o, r) then Some(o.value.role) else None
  }

  /** Everything the driver state says about one request: the commands of it that sit in
      `cmd`, `data_cmd` and `deferred_cmd`, whether it owns `data` (`early` with data_early
      set), its caller asleep, the number of `mrqs_done` slots holding it, an unmapping in
      progress, its timer armed, and whether the block layer still waits for it. */
  datatype Place = Place(cmd: Option<Role>, dataCmd: Option<Role>, deferred: Option<Role>,
                         data: bool, early: bool, asleep: bool, slots: nat,
                         unmapping: bool, armed: bool, out: bool)

  function PlaceOf(h: Host, r: Request): Place {
    Place(RoleIn(h.cmd, r), RoleIn(h.dataCmd, r), RoleIn(h.deferred, r),
          h.data == Some(r), h.data == Some(r) && h.dataEarly, Asleep(h, r),
          Bit(h.slot0 == Some(r)) + Bit(h.slot1 == Some(r)),
          Unmapping(h, r),
          OnBus(h, r) && (if DataLine(Cmd(r, Main)) then h.dataTimer else h.timer),
          r in h.out)
  }

  predicate Busy(p: Place) {
    p.cmd.Some? || p.dataCmd.Some? || p.data
  }

  /** A request is in exactly one place, and handed back at most once. */
  predicate Located(p: Place, rec: Rec) {
    && Bit(Busy(p)) + Bit(p.deferred.Some?) + Bit(p.asleep) + p.slots + rec.returned == 1
    && (p.out <==> rec.returned == 0)
  }

  // ---------------------------------------------------------------- how far it has come

  const ANSWERED := CmdRec(false, 1, 1, 0)

  /** The CMD23 record of a request whose main command may be sent. */
  function SbcOver(cfg: Config, r: Request): CmdRec {
    if ManualCmd23(cfg, r) then ANSWERED else FRESH_CMD
  }

  function Mappings(cfg: Config, r: Request): nat {
    Bit(r.hasData && cfg.useDma && r.mappable)
  }

  /** The main command has been written, once, in the right transfer mode. */
  predicate Started(cfg: Config, r: Request, rec: Rec) {
    && rec.sbc == SbcOver(cfg, r)
    && rec.main.issued == 1 && rec.main.responded <= 1
    && rec.auto12 == Bit(SelectsAuto12(cfg, r)) && rec.auto23 == Bit(SelectsAuto23(cfg, r))
    && rec.data.maps == Mappings(cfg, r)
    && (rec.cmdDone ==> r.cap && rec.main.responded == 1)
  }

  /** The data phase is over: it failed, or it ended and the response has been seen to. */
  predicate DataOver(rec: Rec) {
    rec.data.error || (rec.data.ended >= 1 && (rec.main.responded == 1 || rec.main.error))
  }

  predicate StopDue(cfg: Config, r: Request, rec: Rec) {
    Started(cfg, r, rec) && DataOver(rec) && WantsStop(cfg, r, rec.data.error) && !r.cap
  }

  /** The lines a command without data holds, against what has been heard of it. */
  predicate HoldsLines(c: Cmd, p: Place, rec: CmdRec) {
    && !p.data
    && (if p.cmd.Some? then p.cmd == Some(c.role) && rec.responded == 0 else rec.responded == 1)
    && (p.dataCmd.Some? ==> p.dataCmd == Some(c.role) && RspBusy(c))
    && (RspBusy(c) && p.dataCmd.None? ==> rec.busyEnded >= 1)
  }

  /** The lines a data command holds. */
  predicate HoldsData(p: Place, rec: Rec) {
    && p.data && p.dataCmd == Some(Main)
    && (if p.cmd.Some? then p.cmd == Some(Main) && rec.main.responded == 0
        else rec.main.responded == 1 || rec.main.error)
    && (p.early ==> rec.data.ended >= 1 && rec.main.responded == 0)
  }

  predicate InSbc(cfg: Config, r: Request, p: Place, rec: Rec) {
    && ManualCmd23(cfg, r) && rec == FRESH.(sbc := CmdRec(false, 1, 0, 0))
    && p.cmd == Some(Sbc) && p.dataCmd.None? && !p.data
  }

  predicate InMain(cfg: Config, r: Request, p: Place, rec: Rec) {
    && Started(cfg, r, rec) && rec.stop == FRESH_CMD && !rec.data.error && p.armed
    && (if r.hasData then HoldsData(p, rec) else HoldsLines(Cmd(r, Main), p, rec.main))
  }

  predicate InStop(cfg: Config, r: Request, p: Place, rec: Rec) {
    && StopDue(cfg, r, rec) && rec.stop.issued == 1
    && HoldsLines(Cmd(r, Stop), p, rec.stop)
  }

  /** What may be sent next, given the record of its request. */
  predicate Ready(cfg: Config, c: Cmd, rec: Rec) {
    match c.role
    case Sbc => ManualCmd23(cfg, c.mrq) && rec == FRESH
    case Main => rec == FRESH.(sbc := SbcOver(cfg, c.mrq))
    case Stop => StopDue(cfg, c.mrq, rec) && rec.stop == FRESH_CMD
  }

  /** Only the command behind a CMD23 and the stop command are ever deferred. */
  predicate Deferrable(cfg: Config, c: Cmd) {
    match c.role
    case Sbc => false
    case Main => ManualCmd23(cfg, c.mrq)
    case Stop => c.mrq.hasStop
  }

  // ---------------------------------------------------------------- how it ends

  predicate ErrorFree(rec: Rec) {
    !rec.sbc.error && !rec.main.error && !rec.stop.error && !rec.data.error
  }

  predicate Heard(cfg: Config, c: Cmd, rec: CmdRec) {
    rec.issued == 1 && rec.responded == 1 && (RspBusy(c) && !cfg.noBusyIrq ==> rec.busyEnded >= 1)
  }

  /** Everything that has to have happened before a request is finished without error. */
  predicate Complete(cfg: Config, r: Request, rec: Rec) {
    && Started(cfg, r, rec)
    && (if r.hasData then rec.main.responded == 1 && rec.data.ended >= 1
        else Heard(cfg, Cmd(r, Main), rec.main))
    && (if WantsStop(cfg, r, false) && !r.cap then Heard(cfg, Cmd(r, Stop), rec.stop)
        else rec.stop.issued == 0)
  }

  predicate Outcome(cfg: Config, r: Request, rec: Rec) {
    && rec.sbc.issued <= 1 && rec.main.issued <= 1 && rec.stop.issued <= 1
    && rec.data.maps == (if rec.main.issued == 1 then Mappings(cfg, r) else 0)
    && (rec.cmdDone ==> r.cap && rec.main.responded == 1)
    && (ErrorFree(rec) ==> Complete(cfg, r, rec))
    && (rec.data.error && r.hasStop && !r.cap ==> rec.stop.issued == 1 || rec.stop.error)
  }

  predicate PhaseInv(cfg: Config, r: Request, p: Place, rec: Rec) {
    && (p.asleep ==> rec == FRESH)
    && (p.deferred.Some? ==> Deferrable(cfg, Cmd(r, p.deferred.value)) && Ready(cfg, Cmd(r, p.deferred.value), rec))
    && (Busy(p) ==> InSbc(cfg, r, p, rec) || InMain(cfg, r, p, rec) || InStop(cfg, r, p, rec))
    && (if p.slots >= 1 || rec.returned >= 1
        then rec.finishes == 1 && Outcome(cfg, r, rec) else rec.finishes == 0 && rec.finished == Mark(0, 0, 0))
  }

  // ---------------------------------------------------------------- mapping and resets

  predicate MapInv(reqUseDma: bool, r: Request, p: Place, rec: Rec) {
    if rec.data.mapped
    then r.hasData && reqUseDma && rec.data.maps == 1 && rec.data.unmaps == Bit(p.unmapping) && p.out
    else rec.data.unmaps == rec.data.maps && !p.unmapping
  }

  predicate NoEarlier(now: Mark, before: Mark) {
    && now.cmdResets >= before.cmdResets && now.dataResets >= before.dataResets
    && now.idleResets >= before.idleResets
  }

  /** Since `before`, each line has been reset, and both at once with the bus idle. */
  predicate After(now: Mark, before: Mark) {
    && now.cmdResets > before.cmdResets && now.dataResets > before.dataResets
    && now.idleResets > before.idleResets
  }

  function Now(h: Host): Mark {
    Mark(h.cmdResets, h.dataResets, h.idleResets)
  }

  /** What the driver's state says that concerns the books of every request. */
  datatype Standing = Standing(cfg: Config, reqUseDma: bool, dead: bool, pendingReset: bool, now: Mark)

  function StandingOf(h: Host): Standing {
    Standing(h.cfg, h.reqUseDma, h.dead, h.pendingReset, Now(h))
  }

  predicate ResetInv(s: Standing, r: Request, rec: Rec) {
    && NoEarlier(s.now, rec.finished)
    && (!s.dead && ResetWorthy(s.cfg, r, rec) && rec.finishes == 1 ==>
          if rec.returned == 0 then s.pendingReset || After(s.now, rec.finished)
          else After(rec.handedBack, rec.finished))
  }

  predicate Consistent(s: Standing, r: Request, p: Place, rec: Rec) {
    && WellFormed(r) && Located(p, rec) && PhaseInv(s.cfg, r, p, rec)
    && MapInv(s.reqUseDma, r, p, rec) && ResetInv(s, r, rec)
  }

  predicate ReqInv(h: Host, r: Request) {
    Consistent(StandingOf(h), r, PlaceOf(h, r), Look(h, r))
  }

  // ---------------------------------------------------------------- the whole state

  predicate Beside(h: Host, a: Request, b: Request) {
    (Overlaps(h, a) && CommandOnly(b)) || (Overlaps(h, b) && CommandOnly(a))
  }

  predicate RefsInv(h: Host) {
    && h.out <= h.obj.Keys
    && (h.cmd.Some? ==> h.cmd.value.mrq in h.out)
    && (h.dataCmd.Some? ==> h.dataCmd.value.mrq in h.out)
    && (h.deferred.Some? ==> h.deferred.value.mrq in h.out)
    && (h.data.Some? ==> h.data.value in h.out)
    && (h.slot0.Some? ==> h.slot0.value in h.out)
    && (h.slot1.Some? ==> h.slot1.value in h.out)
    && (h.caller.Some? ==> h.caller.value.cmd.mrq in h.out)
  }

  predicate WindowInv(h: Host, pc: Drainer) {
    pc.InWindow? ==> pc.slot < 2 && Slot(h, pc.slot) == Some(pc.mrq) && Look(h, pc.mrq).data.mapped
  }

  predicate ThreadsInv(h: Host) {
    && (h.caller.Some? ==> h.caller.value.cmd == FirstCmd(h.cfg, h.caller.value.cmd.mrq))
    && (h.thread.Retrying? ==> h.deferred == Some(h.thread.cmd))
    && WindowInv(h, h.worker)
    && (h.thread.Drain? ==> WindowInv(h, h.thread.pc))
    && !(WorkerInWindow(h) && ThreadInWindow(h))
  }

  /** Everything the invariant says, except about the request `x` itself. */
  predicate Base(h: Host, x: Option<Request>) {
    && RefsInv(h) && ThreadsInv(h) && !h.warned
    && (forall r :: r in h.obj && x != Some(r) ==> ReqInv(h, r))
    && (forall a, b :: a in h.out && b in h.out && a != b ==> Beside(h, a, b))
  }

  predicate Inv(h: Host) {
    Base(h, None)
  }

  /** A request the running routine has in its hands: not finished, and neither in a slot nor
      in the hands of another thread. */
  predicate Loose(h: Host, r: Request) {
    && r in h.out && WellFormed(r) && h.slot0 != Some(r) && h.slot1 != Some(r) && !Asleep(h, r)
    && !(h.thread.Retrying? && h.thread.cmd.mrq == r) && !Unmapping(h, r)
    && var rec := Look(h, r);
    && rec.returned == 0 && rec.finishes == 0 && rec.finished == Mark(0, 0, 0)
    && MapInv(h.reqUseDma, r, PlaceOf(h, r), rec)
  }

  // ---------------------------------------------------------------- lemmas

  /** An outstanding request and what the invariant says about it. */
  predicate Known(h: Host, r: Request) {
    r in h.out && r in h.obj && ReqInv(h, r)
  }

  lemma AllKnown(h: Host)
    requires Inv(h)
    ensures RefsInv(h) && ThreadsInv(h) && !h.warned
    ensures forall r :: r in h.out ==> Known(h, r)
    ensures forall r :: r in h.obj ==> ReqInv(h, r)
    ensures forall a, b :: a in h.out && b in h.out && a != b ==> Beside(h, a, b)
  {
    hide ReqInv, ThreadsInv, Beside;
  }

  lemma CmdKnown(h: Host)
    requires Inv(h)
    ensures h.cmd.Some? ==> Known(h, h.cmd.value.mrq)
    ensures h.dataCmd.Some? ==> Known(h, h.dataCmd.value.mrq)
    ensures h.data.Some? ==> Known(h, h.data.value)
  {
    AllKnown(h);
    hide Known, ThreadsInv, Base;
  }

  lemma WaitingKnown(h: Host)
    requires Inv(h)
    ensures h.deferred.Some? ==> Known(h, h.deferred.value.mrq)
    ensures h.caller.Some? ==> Known(h, h.caller.value.cmd.mrq)
  {
    AllKnown(h);
    hide Known, ThreadsInv, Base;
  }

  lemma SlotKnown(h: Host, i: nat)
    requires Inv(h) && Slot(h, i).Some?
    ensures Known(h, Slot(h, i).value)
  {
    AllKnown(h);
    hide Known, ThreadsInv, Base;
  }

  /** Two outstanding requests are one that leaves the command line free and one that needs
      nothing else. */
  lemma BesideKnown(h: Host, a: Request, b: Request)
    requires Inv(h) && a in h.out && b in h.out && a != b
    ensures Beside(h, a, b)
  {
    AllKnown(h);
    hide Base, Known, Beside;
  }

  lemma TwoAtMost(h: Host, a: Request, b: Request, c: Request)
    requires forall p, q :: p in h.out && q in h.out && p != q ==> Beside(h, p, q)
    requires a in h.out && b in h.out && c in h.out
    ensures a == b || b == c || a == c
  {
  }

  /** What a step leaves alone stays right. */
  lemma Spared(h: Host, h': Host, q: Request)
    requires ReqInv(h, q) && PlaceOf(h', q) == PlaceOf(h, q) && Look(h', q) == Look(h, q) && h'.cfg == h.cfg
    requires h'.reqUseDma == h.reqUseDma || !Look(h, q).data.mapped
    requires NoEarlier(Now(h'), Now(h)) && (h.dead ==> h'.dead)
    requires h.pendingReset && !h'.pendingReset ==> After(Now(h'), Now(h))
    ensures ReqInv(h', q)
  {
  }

  lemma FinishPlace(h: Host, r: Request)
    requires Loose(h, r) && (h.slot0.None? || h.slot1.None?)
    ensures PlaceOf(FinishMrq(h, r), r) == Place(None, None, None, false, false, false, 1, false, false, true)
  {
    hide MapInv;
  }

  lemma FinishRecord(h: Host, r: Request)
    ensures Look(FinishMrq(h, r), r) == Look(h, r).(finishes := Look(h, r).finishes + 1, finished := Now(h))
    ensures StandingOf(FinishMrq(h, r)) == StandingOf(h).(pendingReset := h.pendingReset || NeedsReset(h, r))
  {
    hide NeedsReset;
  }

  lemma LooseBooks(h: Host, r: Request)
    requires Loose(h, r)
    ensures var rec := Look(h, r);
      && WellFormed(r) && rec.returned == 0 && rec.finishes == 0 && r in h.out
      && (rec.data.mapped ==> r.hasData && h.reqUseDma && rec.data.maps == 1 && rec.data.unmaps == 0)
      && (!rec.data.mapped ==> rec.data.unmaps == rec.data.maps)
  {
    hide Asleep;
  }

  lemma FinishedConsistent(s: Standing, r: Request, rec: Rec)
    requires WellFormed(r) && rec.returned == 0 && rec.finishes == 0 && Outcome(s.cfg, r, rec)
    requires if rec.data.mapped then r.hasData && s.reqUseDma && rec.data.maps == 1 && rec.data.unmaps == 0
             else rec.data.unmaps == rec.data.maps
    ensures Consistent(s.(pendingReset := s.pendingReset || (!s.dead && ResetWorthy(s.cfg, r, rec))), r,
                       Place(None, None, None, false, false, false, 1, false, false, true),
                       rec.(finishes := 1, finished := s.now))
  {
  }

  lemma FinishLodges(h: Host, r: Request)
    requires Loose(h, r) && Outcome(h.cfg, r, Look(h, r))
    requires h.slot0.None? || h.slot1.None?
    ensures ReqInv(FinishMrq(h, r), r)
  {
    FinishPlace(h, r);
    FinishRecord(h, r);
    LooseBooks(h, r);
    FinishedConsistent(StandingOf(h), r, Look(h, r));
    hide Loose, Outcome, FinishMrq, PlaceOf, Look, Consistent, ResetWorthy;
  }

  lemma FinishOnBus(h: Host, r: Request, q: Request)
    requires q != r
    ensures OnBus(FinishMrq(h, r), q) == OnBus(h, q)
  {
    hide NeedsReset, SlotTrouble, Look, DataLine;
  }

  lemma FinishTimers(h: Host, r: Request)
    ensures var viaData := DataLine(Cmd(r, Main));
      && FinishMrq(h, r).timer == (h.timer && viaData) && FinishMrq(h, r).dataTimer == (h.dataTimer && !viaData)
  {
    hide NeedsReset, SlotTrouble, Look, DataLine;
  }

  lemma BesideTimers(h: Host, q: Request, r: Request)
    requires Beside(h, q, r)
    ensures DataLine(Cmd(q, Main)) != DataLine(Cmd(r, Main))
  {
    hide Look;
  }

  lemma OffBus(h: Host, q: Request)
    requires RefsInv(h) && q !in h.out
    ensures !OnBus(h, q)
  {
  }

  lemma FinishArmed(h: Host, r: Request, q: Request)
    requires RefsInv(h) && q != r && (q in h.out ==> Beside(h, q, r))
    ensures PlaceOf(FinishMrq(h, r), q).armed == PlaceOf(h, q).armed
  {
    if q in h.out { BesideTimers(h, q, r); } else { OffBus(h, q); }
    hide Beside, RefsInv, OnBus, FinishMrq, DataLine, Unmapping, Asleep, RoleIn;
    FinishOnBus(h, r, q);
    FinishTimers(h, r);
  }

  lemma FinishLeaves(h: Host, r: Request, q: Request)
    requires q != r && !SlotTrouble(h, r)
    ensures PlaceOf(FinishMrq(h, r), q) == PlaceOf(h, q).(armed := PlaceOf(FinishMrq(h, r), q).armed)
  {
    hide NeedsReset, Look, DataLine;
  }

  lemma FinishSpares(h: Host, r: Request, q: Request)
    requires RefsInv(h) && r in h.out && q != r && !SlotTrouble(h, r)
    requires q in h.out ==> Beside(h, q, r)
    ensures PlaceOf(FinishMrq(h, r), q) == PlaceOf(h, q)
  {
    FinishArmed(h, r, q);
    FinishLeaves(h, r, q);
    hide PlaceOf, FinishMrq, RefsInv;
  }

  lemma SlotFree(h: Host, r: Request)
    requires Base(h, Some(r)) && Loose(h, r)
    ensures !SlotTrouble(h, r)
  {
    hide ThreadsInv, MapInv, PhaseInv, ResetInv;
    if h.slot0.Some? && h.slot1.Some? {
      assert ReqInv(h, h.slot0.value);
      TwoAtMost(h, h.slot0.value, h.slot1.value, r);
    }
  }

  lemma FinishRefs(h: Host, r: Request)
    requires RefsInv(h) && ThreadsInv(h) && Loose(h, r) && !SlotTrouble(h, r)
    ensures RefsInv(FinishMrq(h, r)) && ThreadsInv(FinishMrq(h, r)) && FinishMrq(h, r).warned == h.warned
  {
    hide NeedsReset, MapInv, DataLine, PlaceOf;
  }

  lemma FinishAside(h: Host, r: Request)
    requires Base(h, Some(r)) && r in h.out && !SlotTrouble(h, r)
    ensures Aside(h, FinishMrq(h, r), Some(r))
  {
    hide ReqInv, ThreadsInv, Beside;
    forall q | q in h.obj && q != r ensures PlaceOf(FinishMrq(h, r), q) == PlaceOf(h, q) {
      if q in h.out { assert Beside(h, q, r); }
      FinishSpares(h, r, q);
    }
    FinishRecord(h, r);
    hide PlaceOf, SlotTrouble, DataLine;
  }

  lemma FinishKeeps(h: Host, r: Request)
    requires Base(h, Some(r)) && Loose(h, r) && Outcome(h.cfg, r, Look(h, r))
    ensures Inv(FinishMrq(h, r))
  {
    SlotFree(h, r);
    assert r in h.out && RefsInv(h) && ThreadsInv(h) && !h.warned;
    FinishLodges(h, r);
    hide Loose, Outcome, Base, SlotTrouble, FinishMrq, RefsInv, ThreadsInv, ReqInv, Aside;
    FinishRefs(h, r);
    FinishAside(h, r);
    AsideKeeps(h, FinishMrq(h, r), Some(r));
    Close(FinishMrq(h, r), r);
  }

  // ---------------------------------------------------------------- sending

  /** Two states that differ only in what they say about `x`. */
  predicate Aside(h: Host, h': Host, x: Option<Request>) {
    && h'.cfg == h.cfg && h'.obj.Keys == h.obj.Keys && h'.out <= h.out
    && NoEarlier(Now(h'), Now(h)) && (h.dead ==> h'.dead)
    && (h.pendingReset && !h'.pendingReset ==> After(Now(h'), Now(h)))
    && (h'.reqUseDma == h.reqUseDma || forall q :: q in h.obj && Some(q) != x ==> !h.obj[q].data.mapped)
    && (x.Some? ==> Look(h, x.value).cmdDone ==> Look(h', x.value).cmdDone)
    && (forall q :: q in h.obj && Some(q) != x ==> PlaceOf(h', q) == PlaceOf(h, q) && h'.obj[q] == h.obj[q])
  }

  lemma AsideKeeps(h: Host, h': Host, x: Option<Request>)
    requires Base(h, x) && Aside(h, h', x)
    requires RefsInv(h') && ThreadsInv(h') && !h'.warned
    ensures Base(h', x)
  {
    hide ReqInv, RefsInv, ThreadsInv, PlaceOf;
    forall q | q in h'.obj && Some(q) != x ensures ReqInv(h', q) {
      assert ReqInv(h, q);
      Spared(h, h', q);
    }
    forall a, b | a in h'.out && b in h'.out && a != b ensures Beside(h', a, b) {
      assert Beside(h, a, b);
    }
  }

  predicate Unheld(h: Host, r: Request) {
    !Owns(h.cmd, r) && !Owns(h.dataCmd, r) && h.data != Some(r)
  }

  /** Nothing else is on the lines a sendable command needs. */
  lemma LinesFree(h: Host, c: Cmd)
    requires Base(h, Some(c.mrq)) && Loose(h, c.mrq) && Unheld(h, c.mrq) && Ready(h.cfg, c, Look(h, c.mrq))
    ensures h.cmd.None?
    ensures DataLine(c) ==> h.dataCmd.None? && h.data.None?
    ensures CarriesData(c) ==> forall q :: q in h.obj && q != c.mrq ==> !h.obj[q].data.mapped
  {
    forall q | q in h.out && q != c.mrq
      ensures !Owns(h.cmd, q) && CommandOnly(c.mrq)
    {
      assert Beside(h, q, c.mrq);
      assert ReqInv(h, q);
    }
    if CarriesData(c) {
      forall q | q in h.obj && q != c.mrq ensures !h.obj[q].data.mapped {
        assert ReqInv(h, q);
      }
    }
  }

  lemma IssueSpares(h: Host, c: Cmd, q: Request)
    requires RefsInv(h) && c.mrq in h.out && q != c.mrq
    requires q in h.out ==> Beside(h, q, c.mrq)
    requires h.cmd.None? && (DataLine(c) ==> h.dataCmd.None? && h.data.None?)
    ensures PlaceOf(Issue(h, c), q) == PlaceOf(h, q)
  {
    hide IssuedRec;
  }

  lemma IssueRefs(h: Host, c: Cmd)
    requires RefsInv(h) && ThreadsInv(h) && c.mrq in h.out && !Unmapping(h, c.mrq)
    ensures c.mrq in h.obj && RefsInv(Issue(h, c)) && ThreadsInv(Issue(h, c))
  {
    hide IssuedRec;
  }

  lemma IssueKeepsBase(h: Host, c: Cmd)
    requires Base(h, Some(c.mrq)) && Loose(h, c.mrq) && Unheld(h, c.mrq) && Ready(h.cfg, c, Look(h, c.mrq))
    ensures Base(Issue(h, c), Some(c.mrq))
  {
    hide ReqInv, PlaceOf, RefsInv, ThreadsInv, Ready;
    LinesFree(h, c);
    IssueRefs(h, c);
    var h' := Issue(h, c);
    forall q | q in h.obj && q != c.mrq ensures PlaceOf(h', q) == PlaceOf(h, q) {
      if q in h.out { assert Beside(h, q, c.mrq); }
      IssueSpares(h, c, q);
    }
    AsideKeeps(h, h', Some(c.mrq));
  }

  /** A record that stands for sending `c`, put in its place on the bus. */
  lemma IssuePlace(h: Host, c: Cmd)
    requires Loose(h, c.mrq) && Unheld(h, c.mrq) && !Owns(h.deferred, c.mrq)
    requires h.cmd.None? && (DataLine(c) ==> h.dataCmd.None? && h.data.None?)
    ensures PlaceOf(Issue(h, c), c.mrq) ==
      Place(Some(c.role), if DataLine(c) then Some(c.role)
          else None, None, CarriesData(c), false, false, 0, false, true, true)
  {
    hide MapInv, IssuedRec;
  }

  lemma IssueRecord(h: Host, c: Cmd)
    ensures Look(Issue(h, c), c.mrq) == IssuedRec(h.cfg, c, Look(h, c.mrq))
    ensures var dma := if CarriesData(c) && h.cfg.useDma then c.mrq.mappable else h.reqUseDma;
      StandingOf(Issue(h, c)) == StandingOf(h).(reqUseDma := dma)
  {
    hide IssuedRec;
  }

  /** The first mark a finished request gets is none before. */
  lemma LooseMark(h: Host, r: Request)
    requires Loose(h, r)
    ensures Look(h, r).finished == Mark(0, 0, 0)
  {
    hide Asleep, MapInv, PlaceOf;
  }

  lemma IssuedConsistent(s: Standing, c: Cmd, rec: Rec)
    requires WellFormed(c.mrq) && rec.returned == 0 && rec.finishes == 0 && rec.finished == Mark(0, 0, 0)
        && Ready(s.cfg, c, rec)
    requires if rec.data.mapped then c.mrq.hasData && s.reqUseDma && rec.data.maps == 1 && rec.data.unmaps == 0
             else rec.data.unmaps == rec.data.maps
    ensures var dma := if CarriesData(c) && s.cfg.useDma then c.mrq.mappable else s.reqUseDma;
      Consistent(s.(reqUseDma := dma), c.mrq,
        Place(Some(c.role), if DataLine(c) then Some(c.role)
            else None, None, CarriesData(c), false, false, 0, false, true, true),
        IssuedRec(s.cfg, c, rec))
  {
    hide ResetWorthy;
  }

  lemma IssueLodges(h: Host, c: Cmd)
    requires Base(h, Some(c.mrq)) && Loose(h, c.mrq) && Unheld(h, c.mrq) && Ready(h.cfg, c, Look(h, c.mrq))
    requires !Owns(h.deferred, c.mrq)
    ensures ReqInv(Issue(h, c), c.mrq)
  {
    LinesFree(h, c);
    hide Base, Loose, Unheld, Ready, Issue, PlaceOf, Look, Consistent, DataLine, CarriesData, IssuedRec;
    IssuePlace(h, c);
    IssueRecord(h, c);
    LooseBooks(h, c.mrq);
    LooseMark(h, c.mrq);
    IssuedConsistent(StandingOf(h), c, Look(h, c.mrq));
  }

  // ---------------------------------------------------------------- moving one request

  predicate MovesOnly(before: Option<Cmd>, after: Option<Cmd>, r: Request) {
    after == before || ((before.None? || Owns(before, r)) && (after.None? || Owns(after, r)))
  }

  predicate SameBooks(rec: Rec, rec': Rec) {
    && rec'.data.mapped == rec.data.mapped && rec'.data.maps == rec.data.maps && rec'.data.unmaps == rec.data.unmaps
    && rec'.finishes == rec.finishes && rec'.finished == rec.finished && rec'.returned == rec.returned
    && (rec.cmdDone ==> rec'.cmdDone)
  }

  /** The step from `h` to `h'` touches nothing but what `r` holds and the record of `r`. */
  predicate OnlyAbout(h: Host, h': Host, r: Request) {
    && h'.cfg == h.cfg && h'.out == h.out && h'.dead == h.dead && h'.warned == h.warned
    && h'.slot0 == h.slot0 && h'.slot1 == h.slot1 && h'.pendingReset == h.pendingReset
    && h'.reqUseDma == h.reqUseDma && h'.timer == h.timer && h'.dataTimer == h.dataTimer
    && h'.caller == h.caller && h'.worker == h.worker && h'.thread == h.thread
    && MovesOnly(h.cmd, h'.cmd, r) && MovesOnly(h.dataCmd, h'.dataCmd, r) && MovesOnly(h.deferred, h'.deferred, r)
    && (h'.data == h.data || (h.data == Some(r) && h'.data.None?))
    && (h'.dataEarly == h.dataEarly || h.data == Some(r))
    && NoEarlier(Now(h'), Now(h))
    && r in h.obj && (h'.obj == h.obj || h'.obj == h.obj[r := Look(h', r)])
    && SameBooks(Look(h, r), Look(h', r))
  }

  lemma OnlyAboutSpares(h: Host, h': Host, r: Request, q: Request)
    requires OnlyAbout(h, h', r) && q != r
    ensures PlaceOf(h', q) == PlaceOf(h, q)
  {
  }

  lemma OnlyAboutRefs(h: Host, h': Host, r: Request)
    requires OnlyAbout(h, h', r) && RefsInv(h) && r in h.out
    ensures RefsInv(h') && r in h.obj
  {
    hide SameBooks;
  }

  lemma OnlyAboutThreads(h: Host, h': Host, r: Request)
    requires OnlyAbout(h, h', r) && ThreadsInv(h)
    requires !Unmapping(h, r) && !(h.thread.Retrying? && h.thread.cmd.mrq == r)
    ensures ThreadsInv(h')
  {
    hide SameBooks;
  }

  lemma OnlyAboutLoose(h: Host, h': Host, r: Request)
    requires OnlyAbout(h, h', r) && Loose(h, r)
    ensures Loose(h', r)
  {
  }

  lemma OnlyAboutAside(h: Host, h': Host, r: Request)
    requires OnlyAbout(h, h', r)
    ensures Aside(h, h', Some(r))
  {
    forall q | q in h.obj && q != r ensures PlaceOf(h', q) == PlaceOf(h, q) {
      OnlyAboutSpares(h, h', r, q);
    }
    hide PlaceOf;
  }

  lemma OnlyAboutKeeps(h: Host, h': Host, r: Request)
    requires OnlyAbout(h, h', r) && Base(h, Some(r)) && Loose(h, r)
    ensures Base(h', Some(r)) && Loose(h', r)
  {
    OnlyAboutAside(h, h', r);
    OnlyAboutLoose(h, h', r);
    OnlyAboutRefs(h, h', r);
    OnlyAboutThreads(h, h', r);
    AsideKeeps(h, h', Some(r)) by {
      hide ReqInv, PlaceOf, RefsInv, ThreadsInv, Aside, MapInv, SameBooks;
    }
  }

  // ---------------------------------------------------------------- picking up and putting down

  lemma Close(h: Host, r: Request)
    requires Base(h, Some(r)) && ReqInv(h, r)
    ensures Inv(h)
  {
    hide ReqInv, RefsInv, ThreadsInv;
  }

  lemma Open(h: Host, r: Request)
    requires Inv(h)
    ensures Base(h, Some(r))
  {
    hide ReqInv, RefsInv, ThreadsInv;
  }

  /** A request on the bus is in nobody else's hands. */
  lemma Pick(h: Host, r: Request)
    requires Inv(h) && OnBus(h, r)
    ensures Base(h, Some(r)) && ReqInv(h, r) && Loose(h, r) && !Owns(h.deferred, r)
  {
    Open(h, r);
    assert r in h.obj && ReqInv(h, r);
  }

  lemma ClearIsIdle(h: Host, c: Cmd)
    requires c.mrq in h.obj && !CmdOf(h.obj[c.mrq], c.role).error
    ensures SetError(h, c, false) == h
  {
    assert h.obj[c.mrq := h.obj[c.mrq]] == h.obj;
  }

  /** A waiting request may be sent; until then nothing about it changes. */
  lemma SendIs(h: Host, c: Cmd, lines: Lines)
    requires SetError(h, c, false) == h && h.cmd.None? && !h.warned
    ensures Send(h, c, lines) == if Refused(c, lines) then (h, false) else (Issue(h, c), true)
  {
    assert h.(warned := h.warned || h.cmd.Some?) == h;
    hide SetError, Issue, Refused;
  }

  lemma SendKeeps(h: Host, c: Cmd, lines: Lines)
    requires Base(h, Some(c.mrq)) && Loose(h, c.mrq) && Unheld(h, c.mrq) && Ready(h.cfg, c, Look(h, c.mrq))
    requires !Owns(h.deferred, c.mrq)
    ensures Send(h, c, lines).1 == !Refused(c, lines)
    ensures if Refused(c, lines) then Send(h, c, lines).0 == h else Inv(Send(h, c, lines).0)
  {
    hide Inv, ReqInv, ThreadsInv, PlaceOf, Beside, Issue, SetError, Refused, Send, Base, Loose, Unheld, Ready, Look;
    LinesFree(h, c);
    LooseOut(h, c.mrq);
    ReadyClear(h, c);
    ClearIsIdle(h, c);
    SendIs(h, c, lines);
    if !Refused(c, lines) {
      IssueLodges(h, c);
      IssueKeepsBase(h, c);
      Close(Issue(h, c), c.mrq);
    }
  }

  /** What is ready to be sent carries no error yet. */
  lemma ReadyClear(h: Host, c: Cmd)
    requires Base(h, Some(c.mrq)) && c.mrq in h.out && Ready(h.cfg, c, Look(h, c.mrq))
    ensures c.mrq in h.obj && !CmdOf(h.obj[c.mrq], c.role).error
  {
    hide ReqInv, ThreadsInv, Beside;
  }

  // ---------------------------------------------------------------- finishing data

  /** The data request whose transfer has just ended, well or badly. */
  predicate Ending(h: Host, r: Request) {
    && r.hasData && h.data == Some(r) && h.dataCmd == Some(Cmd(r, Main)) && !Owns(h.deferred, r)
    && Started(h.cfg, r, Look(h, r)) && Look(h, r).stop == FRESH_CMD && DataOver(Look(h, r))
  }

  /** A data request is alone until it has been answered, and for good without cap_cmd_during_tfr. */
  lemma Alone(h: Host, r: Request)
    requires Base(h, Some(r)) && r in h.out && r.hasData && !(r.cap && Look(h, r).cmdDone)
    ensures forall q :: q in h.out ==> q == r
    ensures h.cmd.None? || Owns(h.cmd, r)
    ensures h.deferred.None? || Owns(h.deferred, r)
    ensures h.data.None? || h.data == Some(r)
  {
    hide ReqInv, ThreadsInv, Look;
  }

  lemma ReleaseMoves(h: Host)
    requires h.data.Some? && h.dataCmd.Some? && h.dataCmd.value.mrq == h.data.value && h.data.value in h.obj
    ensures OnlyAbout(h, ReleaseData(h), h.data.value)
  {
    assert SameBooks(Look(h, h.data.value), Look(ReleaseData(h), h.data.value));
    hide SameBooks, Look;
  }

  lemma ReleaseMovesAll(h: Host)
    requires h.data.Some? && h.dataCmd.Some? && h.dataCmd.value.mrq == h.data.value && h.data.value in h.obj
    requires h.cmd.None? || Owns(h.cmd, h.data.value)
    ensures OnlyAbout(h, ReleaseData(h).(cmd := None), h.data.value)
  {
    assert SameBooks(Look(h, h.data.value), Look(ReleaseData(h).(cmd := None), h.data.value));
    hide SameBooks, Look;
  }

  lemma EndingOutcome(h: Host, r: Request)
    requires WellFormed(r) && Ending(h, r)
    requires !WantsStop(h.cfg, r, Look(h, r).data.error) || r.cap
    ensures Outcome(h.cfg, r, Look(ReleaseData(h), r)) && ReleaseData(h).cfg == h.cfg
    ensures h.dataCmd.Some? && h.dataCmd.value.mrq == r && h.data == Some(r)
  {
    assert Look(ReleaseData(h), r) == Look(h, r) && ReleaseData(h).cfg == h.cfg;
    hide Look, SelectsAuto12, SelectsAuto23, ReleaseData;
  }

  lemma FinishDirectly(h: Host, r: Request)
    requires Base(h, Some(r)) && Loose(h, r) && Ending(h, r)
    requires !WantsStop(h.cfg, r, Look(h, r).data.error) || r.cap
    ensures Inv(FinishMrq(ReleaseData(h), r))
  {
    LooseOut(h, r);
    EndingOutcome(h, r);
    hide Inv, Base, Loose, Ending, Outcome, OnlyAbout, FinishMrq, ReleaseData, WantsStop;
    ReleaseMoves(h);
    OnlyAboutKeeps(h, ReleaseData(h), r);
    FinishKeeps(ReleaseData(h), r);
  }

  lemma CmdBooks(rec: Rec, role: Role, c: CmdRec)
    ensures SameBooks(rec, WithCmd(rec, role, c))
  {
  }

  lemma SetErrorMoves(h: Host, c: Cmd, error: bool)
    requires c.mrq in h.obj
    ensures OnlyAbout(h, SetError(h, c, error), c.mrq)
  {
    CmdBooks(Look(h, c.mrq), c.role, CmdOf(Look(h, c.mrq), c.role).(error := error));
    hide SameBooks, WithCmd, CmdOf;
  }

  lemma DeferMoves(h: Host, c: Cmd)
    requires c.mrq in h.obj && h.deferred.None?
    ensures OnlyAbout(h, Defer(h, c), c.mrq)
  {
  }

  /** A request nobody can send any more is finished with the error of the command refused. */
  lemma GiveUpOutcome(h: Host, c: Cmd, f: Cmd)
    requires WellFormed(c.mrq) && Ready(h.cfg, c, Look(h, c.mrq))
    requires f == c || (f == Cmd(c.mrq, Main) && c.role != Stop)
    ensures Outcome(h.cfg, c.mrq, Look(SetError(h, f, true), c.mrq))
  {
    assert Look(SetError(h, f, true), c.mrq)
        == WithCmd(Look(h, c.mrq), f.role, CmdOf(Look(h, c.mrq), f.role).(error := true));
    hide Look, SelectsAuto12, SelectsAuto23;
  }

  lemma GiveUpKeeps(h: Host, c: Cmd, f: Cmd)
    requires Base(h, Some(c.mrq)) && Loose(h, c.mrq) && Ready(h.cfg, c, Look(h, c.mrq))
    requires f == c || (f == Cmd(c.mrq, Main) && c.role != Stop)
    ensures Inv(FinishMrq(SetError(h, f, true), c.mrq))
  {
    LooseOut(h, c.mrq);
    GiveUpOutcome(h, c, f);
    SetErrorMoves(h, f, true);
    hide Base, Inv, Loose, FinishMrq, Outcome, OnlyAbout, SetError, Ready;
    OnlyAboutKeeps(h, SetError(h, f, true), c.mrq);
    FinishKeeps(SetError(h, f, true), c.mrq);
  }

  lemma LooseOut(h: Host, r: Request)
    requires Base(h, Some(r)) && Loose(h, r)
    ensures r in h.out && r in h.obj && WellFormed(r)
    ensures RefsInv(h) && !h.warned
  {
    hide ReqInv, ThreadsInv, Beside, MapInv, PlaceOf;
  }

  lemma DeferLodges(h: Host, c: Cmd)
    requires Loose(h, c.mrq) && Unheld(h, c.mrq) && Ready(h.cfg, c, Look(h, c.mrq)) && Deferrable(h.cfg, c)
    ensures ReqInv(Defer(h, c), c.mrq)
  {
    hide Ready;
    assert PlaceOf(Defer(h, c), c.mrq) == Place(None, None, Some(c.role), false, false, false, 0, false, false, true);
  }

  lemma DeferKeeps(h: Host, c: Cmd)
    requires Base(h, Some(c.mrq)) && Loose(h, c.mrq) && Unheld(h, c.mrq) && h.deferred.None?
    requires Ready(h.cfg, c, Look(h, c.mrq)) && Deferrable(h.cfg, c)
    ensures Inv(Defer(h, c))
  {
    DeferLodges(h, c);
    assert c.mrq in h.obj;
    hide Base, Loose, Ready, OnlyAbout, Unheld;
    DeferMoves(h, c);
    OnlyAboutKeeps(h, Defer(h, c), c.mrq);
    Close(Defer(h, c), c.mrq);
  }

  /** With its data released, the request is ready for its stop command and holds no line. */
  lemma StopReady(h: Host, r: Request)
    requires Ending(h, r) && (h.cmd.None? || Owns(h.cmd, r))
    requires WantsStop(h.cfg, r, Look(h, r).data.error) && !r.cap
    ensures var h2 := ReleaseData(h).(cmd := None);
      && Ready(h.cfg, Cmd(r, Stop), Look(h2, r)) && Unheld(h2, r) && h2.cfg == h.cfg && h2.deferred == h.deferred
      && !Owns(h2.deferred, r) && Deferrable(h.cfg, Cmd(r, Stop))
    ensures h.dataCmd.Some? && h.dataCmd.value.mrq == r && h.data == Some(r)
  {
    assert Look(ReleaseData(h).(cmd := None), r) == Look(h, r);
    hide Look, Started, DataOver;
  }

  lemma EndingAlone(h: Host, r: Request)
    requires Base(h, Some(r)) && Loose(h, r) && Ending(h, r) && !r.cap
    ensures (h.cmd.None? || Owns(h.cmd, r)) && h.deferred.None?
  {
    LooseOut(h, r);
    assert r.hasData && !Owns(h.deferred, r);
    hide Ending, Loose;
    Alone(h, r);
    hide Base;
  }

  lemma FinishDataIs(h: Host, swTimeout: bool, lines: Lines)
    requires h.data.Some? && !h.data.value.cap
    requires WantsStop(h.cfg, h.data.value, Look(h, h.data.value).data.error)
    ensures var c := Cmd(h.data.value, Stop);
            var (h3, sent) := Send(ReleaseData(h).(cmd := None), c, lines);
      FinishData(h, swTimeout, lines) ==
        if sent then h3 else if swTimeout then FinishMrq(SetError(h3, c, true), c.mrq) else Defer(h3, c)
  {
    hide Send, ReleaseData, FinishMrq, SetError, Defer, WantsStop, Look;
  }

  lemma StopSent(h: Host, r: Request, swTimeout: bool, lines: Lines)
    requires Base(h, Some(r)) && Loose(h, r) && Ending(h, r)
    requires WantsStop(h.cfg, r, Look(h, r).data.error) && !r.cap
    ensures Inv(FinishData(h, swTimeout, lines))
  {
    var c := Cmd(r, Stop);
    var h2 := ReleaseData(h).(cmd := None);
    EndingAlone(h, r);
    StopReady(h, r);
    LooseOut(h, r);
    FinishDataIs(h, swTimeout, lines);
    hide Inv, Base, Loose, Ending, FinishMrq, SetError, OnlyAbout, Ready, Send, Defer, WantsStop, Unheld, Deferrable,
      ReleaseData, Refused, FinishData, Look, RefsInv;
    ReleaseMovesAll(h);
    OnlyAboutKeeps(h, h2, r);
    SendKeeps(h2, c, lines);
    if swTimeout { GiveUpKeeps(h2, c, c); } else { DeferKeeps(h2, c); }
  }

  lemma FinishDataKeeps(h: Host, r: Request, swTimeout: bool, lines: Lines)
    requires Base(h, Some(r)) && Loose(h, r) && Ending(h, r)
    ensures Inv(FinishData(h, swTimeout, lines))
  {
    hide Base, Loose, FinishMrq, ReleaseData, Send, Started, DataOver, WantsStop;
    if !WantsStop(h.cfg, r, Look(h, r).data.error) || r.cap {
      FinishDirectly(h, r);
    } else {
      StopSent(h, r, swTimeout, lines);
    }
  }

  // ---------------------------------------------------------------- the command half of the interrupt

  lemma RespondMoves(h: Host)
    requires h.cmd.Some? && h.cmd.value.mrq in h.obj
    ensures OnlyAbout(h, Respond(h), h.cmd.value.mrq)
  {
  }

  /** The response of a command whose busy phase or data transfer goes on. */
  lemma RespondPlace(h: Host, c: Cmd)
    requires h.cmd == Some(c)
    ensures PlaceOf(Respond(h), c.mrq) ==
      PlaceOf(h, c.mrq).(cmd := None, armed := PlaceOf(h, c.mrq).armed
          && (Owns(h.dataCmd, c.mrq) || h.data == Some(c.mrq)))
  {
    hide WithCmd, CmdOf, Look;
  }

  /** The record of a request one of whose commands has been answered. */
  function Answered(c: Cmd, rec: Rec): Rec {
    var prev := CmdOf(rec, c.role);
    WithCmd(rec, c.role, prev.(responded := prev.responded + 1)).(cmdDone := rec.cmdDone
        || (c.mrq.cap && c.role == Main))
  }

  lemma RespondRecord(h: Host)
    requires h.cmd.Some?
    ensures var c := h.cmd.value;
      Look(Respond(h), c.mrq) == Answered(c, Look(h, c.mrq)) && StandingOf(Respond(h)) == StandingOf(h)
  {
    hide WithCmd, CmdOf;
  }

  lemma AnsweredConsistent(s: Standing, c: Cmd, p: Place, rec: Rec)
    requires Consistent(s, c.mrq, p, rec) && p.cmd == Some(c.role) && p.dataCmd == Some(c.role)
    requires c.role != Sbc && !p.early
    ensures Consistent(s, c.mrq, p.(cmd := None), Answered(c, rec))
  {
    hide ResetWorthy, SelectsAuto12, SelectsAuto23, WantsStop;
  }

  lemma RespondLodges(h: Host, c: Cmd)
    requires Loose(h, c.mrq) && ReqInv(h, c.mrq) && h.cmd == Some(c) && h.dataCmd == Some(c)
    requires c.role != Sbc && !(h.data == Some(c.mrq) && h.dataEarly)
    ensures ReqInv(Respond(h), c.mrq)
  {
    RespondPlace(h, c);
    RespondRecord(h);
    BothLines(h, c);
    hide Loose, Respond, PlaceOf, Look, Consistent, StandingOf, Answered;
    AnsweredConsistent(StandingOf(h), c, PlaceOf(h, c.mrq), Look(h, c.mrq));
  }

  lemma BothLines(h: Host, c: Cmd)
    requires h.cmd == Some(c) && h.dataCmd == Some(c)
    ensures var p := PlaceOf(h, c.mrq);
      p.cmd == Some(c.role) && p.dataCmd == Some(c.role) && p.early == (h.data == Some(c.mrq) && h.dataEarly)
  {
    hide Unmapping, Asleep, DataLine;
  }

  lemma RespondSbc(h: Host, c: Cmd)
    requires Loose(h, c.mrq) && ReqInv(h, c.mrq) && h.cmd == Some(c) && c.role == Sbc
    ensures Ready(h.cfg, Cmd(c.mrq, Main), Look(Respond(h), c.mrq)) && Unheld(Respond(h), c.mrq)
    ensures !Owns(h.deferred, c.mrq) && !Look(Respond(h), c.mrq).cmdDone
  {
  }

  lemma RespondEnding(h: Host, c: Cmd)
    requires Loose(h, c.mrq) && ReqInv(h, c.mrq) && h.cmd == Some(c) && h.data == Some(c.mrq) && h.dataEarly
    ensures c.role == Main && c.mrq.hasData && Ending(Respond(h), c.mrq)
  {
  }

  lemma RespondOutcome(h: Host, c: Cmd)
    requires Loose(h, c.mrq) && ReqInv(h, c.mrq) && h.cmd == Some(c) && c.role != Sbc && !CarriesData(c)
    requires RspBusy(c) && !h.cfg.noBusyIrq ==> h.dataCmd != Some(c)
    ensures Outcome(h.cfg, c.mrq, Look(Respond(h), c.mrq))
  {
  }

  /** data_early is only ever set while the command of the data request itself is pending. */
  lemma EarlyUnanswered(h: Host, r: Request)
    requires ReqInv(h, r) && h.data == Some(r) && h.dataEarly
    ensures r.hasData && !Look(h, r).cmdDone
  {
    EarlyPlace(h, r);
    hide PlaceOf, Look;
    EarlyBooks(StandingOf(h), r, PlaceOf(h, r), Look(h, r));
  }

  lemma EarlyPlace(h: Host, r: Request)
    requires h.data == Some(r) && h.dataEarly
    ensures PlaceOf(h, r).data && PlaceOf(h, r).early
  {
  }

  lemma EarlyBooks(s: Standing, r: Request, p: Place, rec: Rec)
    requires Consistent(s, r, p, rec) && p.data && p.early
    ensures r.hasData && !rec.cmdDone
  {
  }

  lemma EarlyIsOwn(h: Host)
    requires Inv(h) && h.cmd.Some? && h.data.Some? && h.dataEarly
    ensures h.data.value == h.cmd.value.mrq
  {
    var r, q := h.data.value, h.cmd.value.mrq;
    CmdKnown(h);
    hide Inv, ReqInv;
    EarlyUnanswered(h, r);
    if q != r { BesideKnown(h, r, q); }
  }

  lemma RespondKeeps(h: Host, c: Cmd)
    requires Inv(h) && h.cmd == Some(c)
    ensures Base(Respond(h), Some(c.mrq)) && Loose(Respond(h), c.mrq)
    ensures Loose(h, c.mrq) && ReqInv(h, c.mrq) && c.mrq in Respond(h).out && c.mrq in h.obj
    ensures h.deferred == Respond(h).deferred && h.data == Respond(h).data && h.dataEarly == Respond(h).dataEarly
    ensures h.cfg == Respond(h).cfg
  {
    Pick(h, c.mrq);
    assert c.mrq in h.out && c.mrq in h.obj;
    RespondMoves(h);
    hide Base, ReqInv, PlaceOf;
    OnlyAboutKeeps(h, Respond(h), c.mrq);
  }

  lemma SbcKeeps(h: Host, c: Cmd, lines: Lines)
    requires Inv(h) && h.cmd == Some(c) && c.role == Sbc
    ensures var (h2, sent) := Send(Respond(h), Cmd(c.mrq, Main), lines);
            Inv(if sent then h2 else Defer(h2, Cmd(c.mrq, Main)))
  {
    RespondKeeps(h, c);
    RespondSbc(h, c);
    assert Deferrable(h.cfg, Cmd(c.mrq, Main)) && c.mrq.hasData by { assert ReqInv(h, c.mrq); }
    hide Base, Loose, ReqInv, PlaceOf, Ready, Respond, Send, Defer, Unheld;
    Alone(Respond(h), c.mrq);
    SendKeeps(Respond(h), Cmd(c.mrq, Main), lines);
    DeferKeeps(Respond(h), Cmd(c.mrq, Main));
  }

  lemma OwnsDataLine(h: Host, c: Cmd)
    requires ReqInv(h, c.mrq) && h.cmd == Some(c) && CarriesData(c)
    ensures h.dataCmd == Some(c) && h.data == Some(c.mrq)
  {
  }

  lemma FinishCommandKeeps(h: Host, lines: Lines)
    requires Inv(h) && h.cmd.Some?
    ensures Inv(FinishCommand(h, lines))
  {
    hide Base, Loose, ReqInv, PlaceOf, Respond, Send, Defer, FinishData, FinishMrq, Ending, Outcome;
    var c := h.cmd.value;
    RespondKeeps(h, c);
    if h.data.Some? && h.dataEarly { EarlyIsOwn(h); }
    if CarriesData(c) { OwnsDataLine(h, c); }
    if c.role == Sbc {
      SbcKeeps(h, c, lines);
    } else if h.data == Some(c.mrq) && h.dataEarly {
      RespondEnding(h, c);
      FinishDataKeeps(Respond(h), c.mrq, false, lines);
    } else if CarriesData(c) || (RspBusy(c) && !h.cfg.noBusyIrq && h.dataCmd == Some(c)) {
      RespondLodges(h, c);
      Close(Respond(h), c.mrq);
    } else {
      RespondOutcome(h, c);
      FinishKeeps(Respond(h), c.mrq);
    }
  }

  /** What is known of the record of a request on the bus, whatever its phase. */
  predicate Midway(cfg: Config, r: Request, rec: Rec) {
    && rec.sbc.issued <= 1 && rec.main.issued <= 1 && rec.stop.issued <= 1
    && rec.data.maps == (if rec.main.issued == 1 then Mappings(cfg, r) else 0)
    && (rec.cmdDone ==> r.cap && rec.main.responded == 1)
    && (rec.data.error ==> rec.stop.issued == 1)
  }

  lemma BusMidway(h: Host, r: Request)
    requires ReqInv(h, r) && OnBus(h, r)
    ensures Midway(h.cfg, r, Look(h, r))
  {
  }

  lemma FailOutcome(cfg: Config, f: Cmd, rec: Rec)
    requires Midway(cfg, f.mrq, rec)
    ensures Outcome(cfg, f.mrq, WithCmd(rec, f.role, CmdOf(rec, f.role).(error := true)))
  {
    hide Complete;
  }

  /** An error in any command of a request on the bus is a proper end for it. */
  lemma FailKeeps(h: Host, f: Cmd, h1: Host)
    requires Base(h, Some(f.mrq)) && Loose(h, f.mrq) && Midway(h.cfg, f.mrq, Look(h, f.mrq))
    requires OnlyAbout(h, h1, f.mrq) && h1.obj == SetError(h, f, true).obj
    ensures Inv(FinishMrq(h1, f.mrq))
  {
    FailOutcome(h.cfg, f, Look(h, f.mrq));
    assert Look(h1, f.mrq) == WithCmd(Look(h, f.mrq), f.role, CmdOf(Look(h, f.mrq), f.role).(error := true));
    hide Base, Loose, Outcome, FinishMrq, SetError, Midway;
    assert h1.cfg == h.cfg;
    hide OnlyAbout;
    OnlyAboutKeeps(h, h1, f.mrq);
    FinishKeeps(h1, f.mrq);
  }

  lemma CrcMoves(h: Host, c: Cmd)
    requires h.cmd == Some(c) && c.mrq in h.obj
    ensures OnlyAbout(h, SetError(h, c, true).(cmd := None), c.mrq)
  {
    CmdBooks(Look(h, c.mrq), c.role, CmdOf(Look(h, c.mrq), c.role).(error := true));
    hide SameBooks, WithCmd, CmdOf;
  }

  lemma CrcPlace(h: Host, c: Cmd)
    requires h.cmd == Some(c)
    ensures PlaceOf(SetError(h, c, true).(cmd := None), c.mrq) ==
      PlaceOf(h, c.mrq).(cmd := None, armed := PlaceOf(h, c.mrq).armed
          && (Owns(h.dataCmd, c.mrq) || h.data == Some(c.mrq)))
    ensures PlaceOf(h, c.mrq).cmd == Some(c.role)
  {
    hide WithCmd, CmdOf, Look;
  }

  lemma CrcRecord(h: Host, c: Cmd)
    ensures var h' := SetError(h, c, true).(cmd := None);
            var rec := Look(h, c.mrq);
      Look(h', c.mrq) == WithCmd(rec, c.role, CmdOf(rec, c.role).(error := true)) && StandingOf(h') == StandingOf(h)
  {
    hide WithCmd, CmdOf;
  }

  /** A data command answered wrongly leaves its data phase to end with an error. */
  lemma CrcConsistent(s: Standing, c: Cmd, p: Place, rec: Rec)
    requires Consistent(s, c.mrq, p, rec) && p.cmd == Some(c.role) && CarriesData(c)
    ensures p.dataCmd == Some(Main)
    ensures Consistent(s, c.mrq, p.(cmd := None), WithCmd(rec, c.role, CmdOf(rec, c.role).(error := true)))
  {
    hide ResetWorthy, SelectsAuto12, SelectsAuto23, WantsStop;
  }

  lemma CrcLodges(h: Host, c: Cmd)
    requires Loose(h, c.mrq) && ReqInv(h, c.mrq) && h.cmd == Some(c) && CarriesData(c)
    ensures ReqInv(SetError(h, c, true).(cmd := None), c.mrq)
  {
    CrcPlace(h, c);
    CrcRecord(h, c);
    CrcConsistent(StandingOf(h), c, PlaceOf(h, c.mrq), Look(h, c.mrq));
    OwnsIn(h, c.mrq);
    hide Loose, SetError, PlaceOf, Look, Consistent, StandingOf, WithCmd, CmdOf, CarriesData;
  }

  lemma OwnsIn(h: Host, r: Request)
    ensures PlaceOf(h, r).dataCmd.Some? == Owns(h.dataCmd, r) && PlaceOf(h, r).data == (h.data == Some(r))
  {
    hide Unmapping, Asleep, DataLine;
  }

  lemma CmdFails(h: Host, c: Cmd)
    requires Inv(h) && h.cmd == Some(c)
    ensures Inv(FinishMrq(SetError(h, c, true), c.mrq))
    ensures Inv(FinishMrq(SetError(h, Cmd(c.mrq, Sbc), true), c.mrq))
  {
    Pick(h, c.mrq);
    assert c.mrq in h.obj;
    BusMidway(h, c.mrq);
    hide Base, Loose, ReqInv, PlaceOf, FinishMrq, SetError, Midway;
    SetErrorMoves(h, c, true);
    SetErrorMoves(h, Cmd(c.mrq, Sbc), true);
    hide OnlyAbout;
    FailKeeps(h, c, SetError(h, c, true));
    FailKeeps(h, Cmd(c.mrq, Sbc), SetError(h, Cmd(c.mrq, Sbc), true));
  }

  lemma CrcKeeps(h: Host, c: Cmd)
    requires Inv(h) && h.cmd == Some(c) && CarriesData(c)
    ensures Inv(SetError(h, c, true).(cmd := None))
  {
    Pick(h, c.mrq);
    assert c.mrq in h.obj;
    CrcMoves(h, c);
    CrcLodges(h, c);
    hide Base, Loose, ReqInv, PlaceOf, OnlyAbout, SetError;
    OnlyAboutKeeps(h, SetError(h, c, true).(cmd := None), c.mrq);
    Close(SetError(h, c, true).(cmd := None), c.mrq);
  }

  lemma CmdIrqKeeps(h: Host, m: Mask, lines: Lines)
    requires Inv(h)
    ensures Inv(CmdIrq(h, m, lines).0)
  {
    hide Base, FinishMrq, SetError, FinishCommand;
    if h.cmd.Some? {
      var c := h.cmd.value;
      CmdFails(h, c);
      if CarriesData(c) { CrcKeeps(h, c); }
      FinishCommandKeeps(h, lines);
    }
  }

  // ---------------------------------------------------------------- the data half of the interrupt

  lemma EndBusyMoves(h: Host, c: Cmd)
    requires h.dataCmd == Some(c) && c.mrq in h.obj
    ensures OnlyAbout(h, EndBusy(h, c), c.mrq)
  {
    var prev := CmdOf(Look(h, c.mrq), c.role);
    CmdBooks(Look(h, c.mrq), c.role, prev.(busyEnded := prev.busyEnded + 1));
    hide SameBooks, WithCmd, CmdOf;
  }

  lemma BusyFails(h: Host, c: Cmd)
    requires h.dataCmd == Some(c) && c.mrq in h.obj
    ensures OnlyAbout(h, SetError(h.(dataCmd := None), c, true), c.mrq)
    ensures SetError(h.(dataCmd := None), c, true).obj == SetError(h, c, true).obj
  {
    CmdBooks(Look(h, c.mrq), c.role, CmdOf(Look(h, c.mrq), c.role).(error := true));
    hide SameBooks, WithCmd, CmdOf;
  }

  lemma EndBusyPlace(h: Host, c: Cmd)
    requires h.dataCmd == Some(c) && h.cmd == h.dataCmd && h.data.None?
    ensures PlaceOf(EndBusy(h, c), c.mrq) == PlaceOf(h, c.mrq).(dataCmd := None)
    ensures PlaceOf(h, c.mrq).cmd == Some(c.role) && PlaceOf(h, c.mrq).dataCmd == Some(c.role)
        && !PlaceOf(h, c.mrq).data
  {
    hide WithCmd, CmdOf, Look;
  }

  function BusyOver(c: Cmd, rec: Rec): Rec {
    var prev := CmdOf(rec, c.role);
    WithCmd(rec, c.role, prev.(busyEnded := prev.busyEnded + 1))
  }

  lemma EndBusyRecord(h: Host, c: Cmd)
    ensures Look(EndBusy(h, c), c.mrq) == BusyOver(c, Look(h, c.mrq)) && StandingOf(EndBusy(h, c)) == StandingOf(h)
  {
    hide WithCmd, CmdOf;
  }

  lemma BusyConsistent(s: Standing, c: Cmd, p: Place, rec: Rec)
    requires Consistent(s, c.mrq, p, rec) && p.cmd == Some(c.role) && p.dataCmd == Some(c.role) && !p.data
    ensures Consistent(s, c.mrq, p.(dataCmd := None), BusyOver(c, rec))
  {
    hide ResetWorthy, SelectsAuto12, SelectsAuto23, WantsStop;
  }

  lemma BusyOutcome(s: Standing, c: Cmd, p: Place, rec: Rec)
    requires Consistent(s, c.mrq, p, rec) && p.cmd != Some(c.role) && p.dataCmd == Some(c.role) && !p.data
    ensures Outcome(s.cfg, c.mrq, BusyOver(c, rec))
  {
    hide ResetWorthy, SelectsAuto12, SelectsAuto23;
  }

  lemma LinePlace(h: Host, c: Cmd)
    requires h.dataCmd == Some(c) && h.data.None?
    ensures var p := PlaceOf(h, c.mrq);
      p.dataCmd == Some(c.role) && !p.data && (p.cmd == Some(c.role) <==> h.cmd == Some(c))
  {
    hide Unmapping, Asleep, DataLine;
  }

  lemma EndBusyLodges(h: Host, c: Cmd)
    requires Loose(h, c.mrq) && ReqInv(h, c.mrq) && h.dataCmd == Some(c) && h.data.None?
    ensures h.cmd == h.dataCmd ==> ReqInv(EndBusy(h, c), c.mrq)
    ensures h.cmd != h.dataCmd ==> Outcome(h.cfg, c.mrq, Look(EndBusy(h, c), c.mrq))
  {
    var p, rec := PlaceOf(h, c.mrq), Look(h, c.mrq);
    EndBusyRecord(h, c);
    LinePlace(h, c);
    hide Loose, EndBusy, PlaceOf, Look, Consistent, Outcome, BusyOver;
    if h.cmd == h.dataCmd {
      EndBusyPlace(h, c);
      BusyConsistent(StandingOf(h), c, p, rec);
    } else {
      BusyOutcome(StandingOf(h), c, p, rec);
    }
  }

  lemma BusyEndKeeps(h: Host, c: Cmd)
    requires Inv(h) && h.data.None? && h.dataCmd == Some(c)
    ensures Inv(if h.cmd == h.dataCmd then EndBusy(h, c) else FinishMrq(EndBusy(h, c), c.mrq))
  {
    var h1 := EndBusy(h, c);
    Pick(h, c.mrq);
    EndBusyMoves(h, c);
    EndBusyLodges(h, c);
    assert h1.cfg == h.cfg && c.mrq in h.obj;
    hide Base, Loose, ReqInv, PlaceOf, OnlyAbout, FinishMrq, Outcome, EndBusy;
    OnlyAboutKeeps(h, h1, c.mrq);
    if h.cmd == h.dataCmd { Close(h1, c.mrq); } else { FinishKeeps(h1, c.mrq); }
  }

  lemma BusyFailKeeps(h: Host, c: Cmd)
    requires Inv(h) && h.dataCmd == Some(c)
    ensures Inv(FinishMrq(SetError(h.(dataCmd := None), c, true), c.mrq))
  {
    DataCmdOut(h, c);
    hide Inv;
    Pick(h, c.mrq);
    BusMidway(h, c.mrq);
    BusyFails(h, c);
    hide OnBus, Base, FinishMrq, SetError, OnlyAbout, Midway, Loose, ReqInv;
    FailKeeps(h, c, SetError(h.(dataCmd := None), c, true));
  }

  lemma DataCmdOut(h: Host, c: Cmd)
    requires Inv(h) && h.dataCmd == Some(c)
    ensures c.mrq in h.obj && OnBus(h, c.mrq)
  {
    hide ReqInv, ThreadsInv, Beside;
  }

  lemma BusyIrqKeeps(h: Host, m: Mask)
    requires Inv(h) && h.data.None?
    ensures Inv(BusyIrq(h, m))
  {
    hide Inv, FinishMrq, SetError, EndBusy, RspBusy;
    if h.dataCmd.Some? {
      BusyFailKeeps(h, h.dataCmd.value);
      BusyEndKeeps(h, h.dataCmd.value);
    }
  }

  lemma DataBooks(rec: Rec, d: DataRec)
    requires d.mapped == rec.data.mapped && d.maps == rec.data.maps && d.unmaps == rec.data.unmaps
    ensures SameBooks(rec, rec.(data := d))
  {
  }

  lemma DataFailMoves(h: Host, r: Request)
    requires h.data == Some(r) && r in h.obj
    ensures OnlyAbout(h, SetDataError(h, r), r)
  {
    DataBooks(Look(h, r), Look(h, r).data.(error := true));
    hide SameBooks;
  }

  lemma DataEndMoves(h: Host, r: Request)
    requires h.data == Some(r) && r in h.obj
    ensures OnlyAbout(h, EndData(h, r), r)
  {
    DataBooks(Look(h, r), Look(h, r).data.(ended := Look(h, r).data.ended + 1));
    hide SameBooks;
  }

  lemma DataEarlyMoves(h: Host, r: Request)
    requires h.data == Some(r) && r in h.obj
    ensures OnlyAbout(h, EndData(h, r).(dataEarly := true), r)
  {
    DataBooks(Look(h, r), Look(h, r).data.(ended := Look(h, r).data.ended + 1));
    hide SameBooks;
  }

  lemma DataFailing(h: Host, r: Request)
    requires Loose(h, r) && ReqInv(h, r) && h.data == Some(r)
    ensures Ending(SetDataError(h, r), r) && !Look(h, r).data.error
  {
  }

  lemma DataEnding(h: Host, r: Request)
    requires Loose(h, r) && ReqInv(h, r) && h.data == Some(r)
    ensures h.cmd == h.dataCmd ==> ReqInv(EndData(h, r).(dataEarly := true), r)
    ensures h.cmd != h.dataCmd ==> Ending(EndData(h, r), r)
  {
    if h.cmd == h.dataCmd {
      assert PlaceOf(EndData(h, r).(dataEarly := true), r) == PlaceOf(h, r).(early := true);
    }
  }

  lemma DataFailKeeps(h: Host, r: Request, swTimeout: bool, lines: Lines)
    requires Inv(h) && h.data == Some(r)
    ensures Inv(FinishData(SetDataError(h, r), swTimeout, lines)) && !Look(h, r).data.error
  {
    Pick(h, r);
    assert r in h.obj;
    DataFailMoves(h, r);
    DataFailing(h, r);
    hide Base, Loose, ReqInv, PlaceOf, OnlyAbout, FinishData, Ending;
    OnlyAboutKeeps(h, SetDataError(h, r), r);
    FinishDataKeeps(SetDataError(h, r), r, swTimeout, lines);
  }

  lemma DataEndKeeps(h: Host, r: Request, lines: Lines)
    requires Inv(h) && h.data == Some(r)
    ensures h.cmd == h.dataCmd ==> Inv(EndData(h, r).(dataEarly := true))
    ensures h.cmd != h.dataCmd ==> EndData(h, r).data.Some? && Inv(FinishData(EndData(h, r), false, lines))
  {
    Pick(h, r);
    assert r in h.obj;
    DataEndMoves(h, r);
    DataEarlyMoves(h, r);
    DataEnding(h, r);
    hide Base, Loose, ReqInv, PlaceOf, OnlyAbout, FinishData, Ending;
    if h.cmd == h.dataCmd {
      OnlyAboutKeeps(h, EndData(h, r).(dataEarly := true), r);
      Close(EndData(h, r).(dataEarly := true), r);
    } else {
      OnlyAboutKeeps(h, EndData(h, r), r);
      FinishDataKeeps(EndData(h, r), r, false, lines);
    }
  }

  lemma DataIrqKeeps(h: Host, m: Mask, lines: Lines)
    requires Inv(h)
    ensures Inv(DataIrq(h, m, lines))
  {
    hide Base, FinishData, BusyIrq;
    if h.data.None? {
      BusyIrqKeeps(h, m);
    } else {
      DataFailKeeps(h, h.data.value, false, lines);
      DataEndKeeps(h, h.data.value, lines);
    }
  }

  lemma IrqRoundKeeps(h: Host, round: Round)
    requires Inv(h)
    ensures Inv(IrqRound(h, round))
  {
    hide Base, CmdIrq, DataIrq;
    CmdIrqKeeps(h, round.mask, round.cmdLines);
    var (h1, m) := if CmdBits(round.mask) then CmdIrq(h, round.mask, round.cmdLines) else (h, round.mask);
    DataIrqKeeps(h1, m, round.dataLines);
  }

  lemma {:induction false} IrqRoundsKeep(h: Host, rounds: seq<Round>)
    requires Inv(h)
    ensures Inv(IrqRounds(h, rounds))
    decreases |rounds|
  {
    if rounds != [] {
      IrqRoundsKeep(h, rounds[..|rounds| - 1]);
      IrqRoundKeeps(IrqRounds(h, rounds[..|rounds| - 1]), rounds[|rounds| - 1]);
    }
  }

  // ---------------------------------------------------------------- handing back

  /** May the request in a slot go back to the block layer as things stand? */
  predicate Returnable(h: Host, r: Request) {
    !Look(h, r).data.mapped && (NeedsReset(h, r) ==> After(Now(h), Look(h, r).finished))
  }

  lemma HandBackPlace(h: Host, i: nat, r: Request)
    requires i < 2 && Slot(h, i) == Some(r) && PlaceOf(h, r).slots == 1
    ensures PlaceOf(HandBack(h, i, r), r) == PlaceOf(h, r).(slots := 0, out := false)
  {
    hide DataLine, Look;
  }

  lemma HandBackRecord(h: Host, i: nat, r: Request)
    ensures Look(HandBack(h, i, r), r) == Look(h, r).(returned := Look(h, r).returned + 1, handedBack := Now(h))
    ensures StandingOf(HandBack(h, i, r)) == StandingOf(h)
  {
  }

  lemma ReturnedConsistent(s: Standing, r: Request, p: Place, rec: Rec)
    requires Consistent(s, r, p, rec) && p.slots == 1 && !rec.data.mapped
    requires !s.dead && ResetWorthy(s.cfg, r, rec) ==> After(s.now, rec.finished)
    ensures Consistent(s, r, p.(slots := 0, out := false), rec.(returned := rec.returned + 1, handedBack := s.now))
  {
  }

  lemma SlotPlace(h: Host, i: nat, r: Request)
    requires i < 2 && ReqInv(h, r) && Slot(h, i) == Some(r)
    ensures PlaceOf(h, r).slots == 1 && Look(h, r).finishes == 1 && r in h.out && !OnBus(h, r)
  {
    hide Outcome, MapInv, ResetInv, Unmapping, InMain, InStop, InSbc;
  }

  lemma ReturnableBooks(h: Host, r: Request)
    requires Returnable(h, r)
    ensures !Look(h, r).data.mapped
        && (!h.dead && ResetWorthy(h.cfg, r, Look(h, r)) ==> After(Now(h), Look(h, r).finished))
  {
    hide ResetWorthy, Look;
  }

  lemma HandBackLodges(h: Host, i: nat, r: Request)
    requires i < 2 && ReqInv(h, r) && Slot(h, i) == Some(r) && Returnable(h, r)
    ensures ReqInv(HandBack(h, i, r), r)
  {
    ReturnableBooks(h, r);
    SlotPlace(h, i, r);
    hide Consistent, PlaceOf, Look, HandBack, Returnable, ResetWorthy, Slot, OnBus;
    HandBackPlace(h, i, r);
    HandBackRecord(h, i, r);
    ReturnedConsistent(StandingOf(h), r, PlaceOf(h, r), Look(h, r));
  }

  lemma HandBackRefs(h: Host, i: nat, r: Request)
    requires i < 2 && RefsInv(h) && ThreadsInv(h) && ReqInv(h, r) && Slot(h, i) == Some(r) && Returnable(h, r)
    ensures RefsInv(HandBack(h, i, r)) && ThreadsInv(HandBack(h, i, r))
  {
    SlotPlace(h, i, r);
    SlotAlone(h, i, r);
    assert !Look(h, r).data.mapped;
    hide ReqInv, Returnable, PlaceOf;
    HandBackLeavesRefs(h, i, r);
    HandBackLeavesThreads(h, i, r);
  }

  /** A request in a slot is referenced from nowhere else. */
  lemma SlotAlone(h: Host, i: nat, r: Request)
    requires i < 2 && ReqInv(h, r) && Slot(h, i) == Some(r)
    ensures !OnBus(h, r) && !Owns(h.deferred, r) && !Asleep(h, r) && Slot(h, 1 - i) != Some(r)
  {
    hide PhaseInv, MapInv, ResetInv, Unmapping, DataLine;
  }

  lemma HandBackLeavesRefs(h: Host, i: nat, r: Request)
    requires i < 2 && RefsInv(h) && Slot(h, i) == Some(r)
    requires !OnBus(h, r) && !Owns(h.deferred, r) && !Asleep(h, r) && Slot(h, 1 - i) != Some(r)
    ensures RefsInv(HandBack(h, i, r))
  {
  }

  lemma HandBackLeavesThreads(h: Host, i: nat, r: Request)
    requires i < 2 && ThreadsInv(h) && Slot(h, i) == Some(r) && !Look(h, r).data.mapped
    ensures ThreadsInv(HandBack(h, i, r))
  {
  }

  lemma HandBackSpares(h: Host, i: nat, r: Request, q: Request)
    requires i < 2 && Slot(h, i) == Some(r) && q != r
    ensures PlaceOf(HandBack(h, i, r), q) == PlaceOf(h, q)
  {
  }

  lemma HandBackKeeps(h: Host, i: nat, r: Request)
    requires i < 2 && Inv(h) && Slot(h, i) == Some(r) && Returnable(h, r)
    ensures Inv(HandBack(h, i, r))
  {
    var h' := HandBack(h, i, r);
    assert r in h.obj && ReqInv(h, r) && !h'.warned;
    HandBackLodges(h, i, r);
    HandBackRefs(h, i, r);
    HandBackAside(h, i, r);
    hide Base, RefsInv, ThreadsInv, ReqInv, PlaceOf, Returnable, HandBack, Aside;
    Open(h, r);
    AsideKeeps(h, h', Some(r));
    Close(h', r);
  }

  lemma HandBackAside(h: Host, i: nat, r: Request)
    requires i < 2 && Slot(h, i) == Some(r) && r in h.obj
    ensures Aside(h, HandBack(h, i, r), Some(r))
  {
    forall q | q in h.obj && q != r ensures PlaceOf(HandBack(h, i, r), q) == PlaceOf(h, q) {
      HandBackSpares(h, i, r, q);
    }
    hide PlaceOf;
  }

  /** Nothing moves: at most a reset happens, a drainer is called, or the controller dies. */
  predicate Quiet(h: Host, h': Host) {
    && h'.cfg == h.cfg && h'.out == h.out && h'.obj == h.obj && h'.warned == h.warned
    && h'.cmd == h.cmd && h'.dataCmd == h.dataCmd && h'.deferred == h.deferred && h'.data == h.data
    && h'.dataEarly == h.dataEarly && h'.slot0 == h.slot0 && h'.slot1 == h.slot1
    && h'.reqUseDma == h.reqUseDma && h'.timer == h.timer && h'.dataTimer == h.dataTimer
    && h'.caller == h.caller && h'.worker == h.worker && h'.thread == h.thread
    && NoEarlier(Now(h'), Now(h)) && (h.dead ==> h'.dead)
    && (h.pendingReset && !h'.pendingReset ==> After(Now(h'), Now(h)))
  }

  lemma QuietPlaces(h: Host, h': Host, q: Request)
    requires Quiet(h, h')
    ensures PlaceOf(h', q) == PlaceOf(h, q)
  {
  }

  lemma QuietRefs(h: Host, h': Host)
    requires Quiet(h, h') && RefsInv(h)
    ensures RefsInv(h')
  {
  }

  lemma QuietThreads(h: Host, h': Host)
    requires Quiet(h, h') && ThreadsInv(h)
    ensures ThreadsInv(h')
  {
  }

  lemma QuietKeeps(h: Host, h': Host)
    requires Quiet(h, h') && Inv(h)
    ensures Inv(h')
  {
    QuietRefs(h, h');
    QuietThreads(h, h');
    hide RefsInv, ThreadsInv, ReqInv, PlaceOf;
    forall q | q in h.obj ensures PlaceOf(h', q) == PlaceOf(h, q) {
      QuietPlaces(h, h', q);
    }
    AsideKeeps(h, h', None);
  }

  lemma QueuedKeeps(h: Host)
    requires Inv(h)
    ensures Inv(h.(workQueued := true)) && Inv(h.(woken := true))
  {
    hide Inv;
    QueueQuiet(h);
    QuietKeeps(h, h.(workQueued := true));
    QuietKeeps(h, h.(woken := true));
  }

  lemma QueueQuiet(h: Host)
    ensures Quiet(h, h.(workQueued := true)) && Quiet(h, h.(woken := true))
  {
  }

  lemma ScanKeeps(h: Host, i: nat)
    requires i < 2 && Inv(h)
    ensures Inv(Scan(h, i))
  {
    if Slot(h, i).Some? {
      var r := Slot(h, i).value;
      if DeferDone(h, r) {
        hide Inv;
        QueuedKeeps(h);
      } else {
        NotDeferred(h, i, r);
        hide Inv, DeferDone, Returnable;
        HandBackKeeps(h, i, r);
      }
    }
  }

  /** What the handler does not leave to its thread may go back. */
  lemma NotDeferred(h: Host, i: nat, r: Request)
    requires i < 2 && Inv(h) && Slot(h, i) == Some(r) && !DeferDone(h, r)
    ensures Returnable(h, r)
  {
    SlotKnown(h, i);
    hide Inv;
  }

  lemma IrqKeeps(h: Host, rounds: seq<Round>)
    requires Inv(h)
    ensures Inv(Irq(h, rounds))
  {
    hide Inv, Scan;
    IrqRoundsKeep(h, rounds);
    ScanKeeps(IrqRounds(h, rounds), 0);
    ScanKeeps(Scan(IrqRounds(h, rounds), 0), 1);
    QueuedKeeps(if rounds == [] then h else Scan(Scan(IrqRounds(h, rounds), 0), 1));
  }

  // ---------------------------------------------------------------- timers

  /** What uses the command timer is a lone command on the command line. */
  lemma PlainOnBus(h: Host, q: Request)
    requires ReqInv(h, q) && OnBus(h, q) && !DataLine(Cmd(q, Main))
    ensures Owns(h.cmd, q) && !DataLine(h.cmd.value)
  {
    hide MapInv, ResetInv, Outcome, Unmapping, Asleep;
  }

  /** The command timer going off says nothing about a request that uses the data timer. */
  lemma TimerElsewhere(h: Host, q: Request, armed: bool)
    requires !OnBus(h, q) || DataLine(Cmd(q, Main))
    ensures PlaceOf(h.(timer := armed), q) == PlaceOf(h, q)
  {
    hide DataLine;
  }

  lemma TimerSpares(h: Host, q: Request, armed: bool)
    requires Inv(h) && q in h.obj
    requires h.cmd.Some? && !DataLine(h.cmd.value) ==> q != h.cmd.value.mrq
    ensures PlaceOf(h.(timer := armed), q) == PlaceOf(h, q)
  {
    AllKnown(h);
    hide Base, ReqInv, OnBus, PlaceOf, DataLine, Known;
    if OnBus(h, q) && !DataLine(Cmd(q, Main)) { PlainOnBus(h, q); }
    TimerElsewhere(h, q, armed);
  }

  lemma HoldsDataLine(h: Host, r: Request)
    requires ReqInv(h, r) && (h.data == Some(r) || Owns(h.dataCmd, r))
    ensures !CommandOnly(r)
  {
  }

  lemma DataTimerSpares(h: Host, q: Request, r: Request, armed: bool)
    requires RefsInv(h) && r in h.out && q != r
    requires if CommandOnly(r) then h.data.None? && h.dataCmd.None? && Owns(h.cmd, r)
             else q in h.out ==> Beside(h, q, r)
    ensures PlaceOf(h.(dataTimer := armed), q) == PlaceOf(h, q)
  {
    if q !in h.out { OffBus(h, q); }
    hide RefsInv, Look, Asleep, Unmapping;
  }

  lemma RearmRefs(h: Host, timer: bool, dataTimer: bool)
    requires RefsInv(h) && ThreadsInv(h)
    ensures RefsInv(h.(timer := timer, dataTimer := dataTimer))
    ensures ThreadsInv(h.(timer := timer, dataTimer := dataTimer))
  {
  }

  /** Only `x` may care about the timers having changed. */
  lemma RearmKeeps(h: Host, x: Option<Request>, timer: bool, dataTimer: bool)
    requires Inv(h)
    requires forall q :: q in h.obj && Some(q) != x ==>
      PlaceOf(h.(timer := timer, dataTimer := dataTimer), q) == PlaceOf(h, q)
    ensures Base(h.(timer := timer, dataTimer := dataTimer), x)
  {
    var h' := h.(timer := timer, dataTimer := dataTimer);
    RearmRefs(h, timer, dataTimer);
    if x.Some? { Open(h, x.value); }
    hide ReqInv, RefsInv, ThreadsInv, PlaceOf;
    AsideKeeps(h, h', x);
  }

  lemma RearmLoose(h: Host, r: Request, timer: bool, dataTimer: bool)
    requires Loose(h, r)
    ensures Loose(h.(timer := timer, dataTimer := dataTimer), r)
  {
  }

  lemma FailQueued(h: Host, f: Cmd)
    requires Base(h, Some(f.mrq)) && Loose(h, f.mrq) && Midway(h.cfg, f.mrq, Look(h, f.mrq))
    ensures Inv(FinishMrqQueued(SetError(h, f, true), f.mrq))
  {
    assert f.mrq in h.obj;
    hide Base, Loose, Midway, FinishMrq, SetError;
    SetErrorMoves(h, f, true);
    var h1 := SetError(h, f, true);
    FailKeeps(h, f, h1);
    QueuedKeeps(FinishMrq(h1, f.mrq));
  }

  /** The request the command timer is about. */
  function TimedCmd(h: Host): Option<Request> {
    if h.cmd.Some? && !DataLine(h.cmd.value) then Some(h.cmd.value.mrq) else None
  }

  lemma TimerFires(h: Host, armed: bool)
    requires Inv(h)
    ensures Base(h.(timer := armed), TimedCmd(h))
  {
    assert h.(timer := armed) == h.(timer := armed, dataTimer := h.dataTimer);
    forall q | q in h.obj && Some(q) != TimedCmd(h) ensures PlaceOf(h.(timer := armed), q) == PlaceOf(h, q) {
      TimerSpares(h, q, armed);
    }
    hide Base, PlaceOf;
    RearmKeeps(h, TimedCmd(h), armed, h.dataTimer);
  }

  lemma TimeoutKeeps(h: Host, armed: bool)
    requires Inv(h)
    ensures Inv(TimeoutTimer(h.(timer := armed)))
  {
    var h0 := h.(timer := armed);
    TimerFires(h, armed);
    if TimedCmd(h).Some? {
      var r := h.cmd.value.mrq;
      Pick(h, r);
      BusMidway(h, r);
      RearmLoose(h, r, armed, h.dataTimer);
      assert h0 == h.(timer := armed, dataTimer := h.dataTimer);
      hide Base, Loose, Midway, FinishMrq, SetError, PlaceOf, ReqInv;
      FailQueued(h0, h.cmd.value);
    }
  }

  /** The request the data timer is about, when it is about one. */
  function TimedData(h: Host): Option<Request> {
    if h.data.Some? then h.data
    else if h.dataCmd.Some? then Some(h.dataCmd.value.mrq)
    else if h.cmd.Some? then Some(h.cmd.value.mrq) else None
  }

  lemma DataTimerSparesOthers(h: Host, q: Request, armed: bool)
    requires Inv(h) && q in h.obj && TimedData(h) != Some(q)
    ensures PlaceOf(h.(dataTimer := armed), q) == PlaceOf(h, q)
  {
    if TimedData(h).Some? {
      var r := TimedData(h).value;
      CmdKnown(h);
      RefsOf(h);
      hide Inv, ReqInv, PlaceOf, CommandOnly, RefsInv;
      if q in h.out { BesideKnown(h, q, r); }
      if h.data == Some(r) || Owns(h.dataCmd, r) { HoldsDataLine(h, r); }
      DataTimerSpares(h, q, r, armed);
    }
  }

  lemma RefsOf(h: Host)
    requires Inv(h)
    ensures RefsInv(h)
  {
    hide ReqInv, ThreadsInv, Beside, RefsInv;
  }

  lemma DataTimerFires(h: Host, armed: bool)
    requires Inv(h)
    ensures Base(h.(dataTimer := armed), TimedData(h))
  {
    assert h.(dataTimer := armed) == h.(timer := h.timer, dataTimer := armed);
    forall q | q in h.obj && Some(q) != TimedData(h) ensures PlaceOf(h.(dataTimer := armed), q) == PlaceOf(h, q) {
      DataTimerSparesOthers(h, q, armed);
    }
    hide Base, PlaceOf;
    RearmKeeps(h, TimedData(h), h.timer, armed);
  }

  lemma DataTimeoutEnding(h: Host, r: Request, armed: bool)
    requires Loose(h, r) && ReqInv(h, r) && h.data == Some(r) && r in h.obj
    ensures Ending(SetDataError(h.(dataTimer := armed), r), r)
    ensures OnlyAbout(h.(dataTimer := armed), SetDataError(h.(dataTimer := armed), r), r)
  {
    DataFailing(h, r);
    hide Loose, ReqInv, SetDataError, OnlyAbout;
    DataFailMoves(h.(dataTimer := armed), r);
    EndingTimer(h, r, armed);
  }

  lemma EndingTimer(h: Host, r: Request, armed: bool)
    requires Ending(SetDataError(h, r), r)
    ensures Ending(SetDataError(h.(dataTimer := armed), r), r)
  {
    assert Look(SetDataError(h.(dataTimer := armed), r), r) == Look(SetDataError(h, r), r);
    hide Started, DataOver, Look;
  }

  /** A hung CMD23 or a hung stop command without busy signalling does not look at its timer. */
  lemma UnwatchedLodges(h: Host, r: Request, armed: bool)
    requires ReqInv(h, r) && Owns(h.cmd, r) && !DataLine(h.cmd.value) && h.data.None? && h.dataCmd.None?
    ensures ReqInv(h.(dataTimer := armed), r)
  {
    var p := PlaceOf(h, r);
    assert PlaceOf(h.(dataTimer := armed), r) == p.(armed := p.armed) || DataLine(Cmd(r, Main));
  }

  /** The data request has been marked as timed out, and is in nobody's hands but the callback's. */
  lemma DataTimedOut(h: Host, r: Request, armed: bool)
    requires Inv(h) && h.data == Some(r)
    ensures var h1 := SetDataError(h.(dataTimer := armed), r);
      Base(h1, Some(r)) && Loose(h1, r) && Ending(h1, r)
  {
    var h0 := h.(dataTimer := armed);
    DataTimerFires(h, armed);
    CmdKnown(h);
    assert OnBus(h, r);
    hide Base, Inv, Loose, SetDataError, PlaceOf, ReqInv, OnlyAbout, Ending, OnBus;
    Pick(h, r);
    RearmLoose(h, r, h.timer, armed);
    assert h0 == h.(timer := h.timer, dataTimer := armed);
    DataTimeoutEnding(h, r, armed);
    OnlyAboutKeeps(h0, SetDataError(h0, r), r);
  }

  lemma DataTimeoutFails(h: Host, armed: bool, lines: Lines)
    requires Inv(h) && h.data.Some?
    ensures Inv(TimeoutDataTimer(h.(dataTimer := armed), lines))
  {
    var r := h.data.value;
    var h1 := SetDataError(h.(dataTimer := armed), r);
    var h2 := FinishData(h1, true, lines);
    hide Inv, Base, Loose, Ending, FinishData, SetDataError;
    DataTimedOut(h, r, armed);
    assert h1.data == Some(r) by { DataStays(h.(dataTimer := armed), r); }
    FinishDataKeeps(h1, r, true, lines);
    QueuedKeeps(h2);
  }

  lemma DataStays(h: Host, r: Request)
    ensures SetDataError(h, r).data == h.data
  {
  }

  lemma CmdHeld(h: Host, c: Cmd)
    requires Inv(h) && h.data.None? && (h.dataCmd == Some(c) || (h.dataCmd.None? && h.cmd == Some(c)))
    ensures OnBus(h, c.mrq) && TimedData(h) == Some(c.mrq)
        && (h.dataCmd.None? ==> Owns(h.cmd, c.mrq) && h.cmd.value == c)
  {
    hide Base;
  }

  lemma DataTimeoutCmd(h: Host, c: Cmd, armed: bool)
    requires Inv(h) && h.data.None? && (h.dataCmd == Some(c) || (h.dataCmd.None? && h.cmd == Some(c)))
    ensures var h0 := h.(dataTimer := armed);
      && Inv(FinishMrqQueued(SetError(h0, c, true), c.mrq)) && (h.dataCmd.None? && !DataLine(c) ==> Inv(h0))
  {
    var h0 := h.(dataTimer := armed);
    CmdHeld(h, c);
    hide TimedData, Inv, Midway, OnBus, Base, Loose, ReqInv, FinishMrqQueued, SetError, DataLine;
    DataTimerFires(h, armed);
    Pick(h, c.mrq);
    BusMidway(h, c.mrq);
    RearmLoose(h, c.mrq, h.timer, armed);
    assert h0 == h.(timer := h.timer, dataTimer := armed);
    FailQueued(h0, c);
    if h.dataCmd.None? && !DataLine(c) {
      UnwatchedLodges(h, c.mrq, armed);
      Close(h0, c.mrq);
    }
  }

  lemma DataTimeoutNone(h: Host, armed: bool)
    requires Inv(h) && h.data.None? && h.dataCmd.None? && h.cmd.None?
    ensures Inv(h.(dataTimer := armed))
  {
    hide Base;
    DataTimerFires(h, armed);
  }

  lemma DataTimeoutKeeps(h: Host, armed: bool, lines: Lines)
    requires Inv(h)
    ensures Inv(TimeoutDataTimer(h.(dataTimer := armed), lines))
  {
    hide Inv, FinishMrqQueued, SetError, FinishData, SetDataError, DataLine;
    if h.data.Some? {
      hide TimeoutDataTimer;
      DataTimeoutFails(h, armed, lines);
    } else if h.dataCmd.Some? {
      DataTimeoutCmd(h, h.dataCmd.value, armed);
    } else if h.cmd.Some? {
      DataTimeoutCmd(h, h.cmd.value, armed);
    } else {
      DataTimeoutNone(h, armed);
    }
  }

  // ---------------------------------------------------------------- removal

  lemma ErrorOutKeeps(h: Host)
    requires Inv(h)
    ensures Inv(ErrorOut(h))
  {
    var h1 := if h.dataCmd.Some?
      then FinishMrqQueued(SetError(h, h.dataCmd.value, true), h.dataCmd.value.mrq)
      else h;
    if h.dataCmd.Some? {
      Pick(h, h.dataCmd.value.mrq);
      BusMidway(h, h.dataCmd.value.mrq);
      hide Base, Loose, Midway, FinishMrqQueued, SetError, PlaceOf, ReqInv;
      FailQueued(h, h.dataCmd.value);
    }
    if h1.cmd.Some? {
      Pick(h1, h1.cmd.value.mrq);
      BusMidway(h1, h1.cmd.value.mrq);
      hide Base, Loose, Midway, FinishMrqQueued, SetError, PlaceOf, ReqInv;
      FailQueued(h1, h1.cmd.value);
    }
  }

  lemma CardEventKeeps(h: Host, present: bool)
    requires Inv(h)
    ensures Inv(CardEvent(h, present))
  {
    hide Base, ErrorOut;
    QuietKeeps(h, ResetBoth(h));
    ErrorOutKeeps(ResetBoth(h));
  }

  lemma DieKeeps(h: Host)
    requires Inv(h)
    ensures Inv(Die(h))
  {
    hide Base, ErrorOut;
    QuietKeeps(h, h.(dead := true));
    ErrorOutKeeps(h.(dead := true));
  }

  // ---------------------------------------------------------------- submission

  lemma AcceptSpares(h: Host, r: Request, q: Request)
    requires q != r
    ensures PlaceOf(Accept(h, r), q) == PlaceOf(h, q)
  {
  }

  lemma AcceptRefs(h: Host, r: Request)
    requires RefsInv(h) && r !in h.obj
    ensures RefsInv(Accept(h, r))
  {
  }

  lemma AcceptThreads(h: Host, r: Request)
    requires RefsInv(h) && ThreadsInv(h) && r !in h.obj
    ensures ThreadsInv(Accept(h, r))
  {
  }

  lemma AcceptLoose(h: Host, r: Request)
    requires RefsInv(h) && ThreadsInv(h) && r !in h.obj && WellFormed(r)
    ensures Loose(Accept(h, r), r) && Unheld(h, r) && !Owns(h.deferred, r)
  {
  }

  lemma AsleepFresh(h: Host)
    requires Inv(h) && h.caller.Some?
    ensures h.caller.value.cmd.mrq in h.out && Look(h, h.caller.value.cmd.mrq) == FRESH
  {
    assert ReqInv(h, h.caller.value.cmd.mrq);
  }

  lemma AcceptBeside(h: Host, r: Request)
    requires Inv(h) && Admissible(h, r)
    ensures forall a, b :: a in Accept(h, r).out && b in Accept(h, r).out && a != b ==> Beside(Accept(h, r), a, b)
  {
    hide ReqInv, RefsInv, ThreadsInv;
  }

  lemma AcceptKeeps(h: Host, r: Request)
    requires Inv(h) && Admissible(h, r)
    ensures Base(Accept(h, r), Some(r)) && Loose(Accept(h, r), r) && h.caller.None?
    ensures Unheld(h, r) && !Owns(h.deferred, r)
  {
    var h0 := Accept(h, r);
    if h.caller.Some? { AsleepFresh(h); }
    AcceptLoose(h, r);
    AcceptRefs(h, r);
    AcceptThreads(h, r);
    AcceptBeside(h, r);
    hide ReqInv, RefsInv, ThreadsInv, PlaceOf, Loose, Unheld, Beside;
    forall q | q in h0.obj && q != r ensures ReqInv(h0, q) {
      assert ReqInv(h, q);
      AcceptSpares(h, r, q);
      Spared(h, h0, q);
    }
  }

  /** The caller of sdhci_request falls asleep, or wakes up. */
  lemma CallerAside(h: Host, r: Request, caller: Option<Caller>)
    requires (h.caller.None? || Asleep(h, r)) && (caller.Some? ==> caller.value.cmd.mrq == r)
    ensures Aside(h, h.(caller := caller), Some(r))
  {
    var h' := h.(caller := caller);
    assert Now(h') == Now(h) && Look(h', r) == Look(h, r);
    hide PlaceOf, Asleep, Look, Now;
    forall q | q in h.obj && q != r ensures PlaceOf(h', q) == PlaceOf(h, q) {
      CallerSpares(h, r, caller, q);
    }
  }

  lemma CallerMoves(h: Host, r: Request, caller: Option<Caller>)
    requires Base(h, Some(r)) && r in h.out
    requires h.caller.None? || Asleep(h, r)
    requires caller.Some? ==> caller.value.cmd == FirstCmd(h.cfg, r)
    ensures Base(h.(caller := caller), Some(r))
  {
    assert RefsInv(h) && ThreadsInv(h) && !h.warned;
    hide Base, RefsInv, ThreadsInv, Aside, Asleep;
    CallerRefs(h, r, caller);
    CallerAside(h, r, caller);
    AsideKeeps(h, h.(caller := caller), Some(r));
  }

  lemma CallerRefs(h: Host, r: Request, caller: Option<Caller>)
    requires RefsInv(h) && ThreadsInv(h) && r in h.out
    requires caller.Some? ==> caller.value.cmd == FirstCmd(h.cfg, r)
    ensures RefsInv(h.(caller := caller)) && ThreadsInv(h.(caller := caller))
  {
  }

  lemma CallerSpares(h: Host, r: Request, caller: Option<Caller>, q: Request)
    requires (h.caller.None? || Asleep(h, r)) && q != r
    requires caller.Some? ==> caller.value.cmd.mrq == r
    ensures PlaceOf(h.(caller := caller), q) == PlaceOf(h, q)
  {
  }

  lemma SleepLodges(h: Host, r: Request, caller: Caller)
    requires Loose(h, r) && Unheld(h, r) && !Owns(h.deferred, r) && Look(h, r) == FRESH && caller.cmd.mrq == r
    ensures ReqInv(h.(caller := Some(caller)), r)
  {
    assert PlaceOf(h.(caller := Some(caller)), r) == Place(None, None, None, false, false, true, 0, false, false, true);
  }

  lemma WakeLoose(h: Host, r: Request)
    requires ReqInv(h, r) && Asleep(h, r) && RefsInv(h) && ThreadsInv(h)
    ensures Loose(h.(caller := None), r) && Unheld(h, r) && !Owns(h.deferred, r) && Look(h, r) == FRESH
  {
  }

  lemma FirstReady(h: Host, r: Request)
    requires Look(h, r) == FRESH
    ensures Ready(h.cfg, FirstCmd(h.cfg, r), Look(h, r))
  {
  }

  lemma AcceptedReady(h: Host, r: Request)
    requires Inv(h) && Admissible(h, r)
    ensures Base(Accept(h, r), Some(r)) && Loose(Accept(h, r), r) && r in Accept(h, r).out
    ensures Unheld(Accept(h, r), r) && !Owns(Accept(h, r).deferred, r) && Accept(h, r).caller.None?
    ensures Midway(h.cfg, r, Look(Accept(h, r), r)) && Look(Accept(h, r), r) == FRESH
    ensures Accept(h, r).cfg == h.cfg && Accept(h, r).dead == h.dead
  {
    AcceptKeeps(h, r);
    hide ReqInv, PlaceOf, RefsInv, ThreadsInv;
  }

  /** The first command is refused again: its sender goes (back) to sleep. */
  lemma SleepKeeps(h: Host, r: Request, left: nat)
    requires Base(h, Some(r)) && Loose(h, r) && Unheld(h, r) && !Owns(h.deferred, r)
    requires Look(h, r) == FRESH && h.caller.None?
    ensures Inv(h.(caller := Some(Caller(FirstCmd(h.cfg, r), left))))
  {
    var sleepy := Caller(FirstCmd(h.cfg, r), left);
    SleepLodges(h, r, sleepy);
    assert r in h.out;
    hide Base, Loose, ReqInv, PlaceOf, Unheld;
    CallerMoves(h, r, Some(sleepy));
    Close(h.(caller := Some(sleepy)), r);
  }

  lemma SubmitKeeps(h: Host, r: Request, present: bool, lines: Lines)
    requires Inv(h) && Admissible(h, r)
    ensures Inv(Submit(h, r, present, lines)) && Inv(SubmitAtomic(h, r, lines))
  {
    var h0 := Accept(h, r);
    AcceptedReady(h, r);
    FirstReady(h0, r);
    hide Base, Loose, Midway, Ready, ReqInv, PlaceOf, FinishMrqQueued, SetError, Accept, Send, Unheld;
    FailQueued(h0, Cmd(r, Main));
    SendKeeps(h0, FirstCmd(h.cfg, r), lines);
    SleepKeeps(h0, r, RETRIES - 1);
  }

  lemma WakeReady(h: Host, r: Request)
    requires Unheld(h, r) && !Owns(h.deferred, r) && Look(h, r) == FRESH
    ensures Unheld(h.(caller := None), r) && !Owns(h.(caller := None).deferred, r)
    ensures Look(h.(caller := None), r) == FRESH && Midway(h.cfg, r, FRESH)
    ensures Ready(h.cfg, FirstCmd(h.cfg, r), FRESH)
  {
  }

  lemma WakeKeeps(h: Host)
    requires Inv(h) && h.caller.Some?
    ensures h.caller.value.cmd == FirstCmd(h.cfg, h.caller.value.cmd.mrq)
    ensures Base(h.(caller := None), Some(h.caller.value.cmd.mrq)) && Loose(h.(caller := None), h.caller.value.cmd.mrq)
    ensures Unheld(h, h.caller.value.cmd.mrq) && !Owns(h.deferred, h.caller.value.cmd.mrq)
    ensures Look(h, h.caller.value.cmd.mrq) == FRESH
  {
    var r := h.caller.value.cmd.mrq;
    assert ReqInv(h, r);
    WakeLoose(h, r);
    Open(h, r);
    assert r in h.out && Asleep(h, r);
    assert ThreadsInv(h);
    hide ReqInv, RefsInv, Loose, Unheld, PlaceOf, Asleep;
    CallerMoves(h, r, None);
  }

  lemma CallerWakesKeeps(h: Host, present: bool, lines: Lines)
    requires Inv(h) && h.caller.Some?
    ensures Inv(CallerWakes(h, present, lines))
  {
    hide Base, Loose, Midway, Ready, ReqInv, PlaceOf, FinishMrqQueued, SetError, Send, Unheld, Look;
    var Caller(c, left) := h.caller.value;
    var awake := h.(caller := None);
    WakeKeeps(h);
    WakeReady(h, c.mrq);
    FailQueued(awake, c);
    SendKeeps(awake, c, lines);
    if left > 0 { SleepKeeps(awake, c.mrq, left - 1); }
  }

  // ---------------------------------------------------------------- the interrupt thread

  /** Only the program counters outside the unlocked windows move. */
  predicate Control(h: Host, h': Host) {
    && h'.cfg == h.cfg && h'.out == h.out && h'.obj == h.obj && h'.warned == h.warned
    && h'.cmd == h.cmd && h'.dataCmd == h.dataCmd && h'.deferred == h.deferred && h'.data == h.data
    && h'.dataEarly == h.dataEarly && h'.slot0 == h.slot0 && h'.slot1 == h.slot1
    && h'.reqUseDma == h.reqUseDma && h'.timer == h.timer && h'.dataTimer == h.dataTimer
    && h'.caller == h.caller && h'.pendingReset == h.pendingReset && h'.dead == h.dead
    && Now(h') == Now(h)
    && (h'.worker == h.worker || (!WorkerInWindow(h) && !WorkerInWindow(h')))
    && (h'.thread == h.thread || (!ThreadInWindow(h) && !ThreadInWindow(h')))
    && (h'.thread.Retrying? ==> h.deferred == Some(h'.thread.cmd))
  }

  lemma ControlPlaces(h: Host, h': Host, q: Request)
    requires Control(h, h')
    ensures PlaceOf(h', q) == PlaceOf(h, q)
  {
  }

  lemma ControlRefs(h: Host, h': Host)
    requires Control(h, h') && RefsInv(h) && ThreadsInv(h)
    ensures RefsInv(h') && ThreadsInv(h')
  {
  }

  lemma ControlKeeps(h: Host, h': Host)
    requires Control(h, h') && Inv(h)
    ensures Inv(h')
  {
    ControlRefs(h, h');
    hide RefsInv, ThreadsInv, ReqInv, PlaceOf;
    forall q | q in h.obj ensures PlaceOf(h', q) == PlaceOf(h, q) {
      ControlPlaces(h, h', q);
    }
    AsideKeeps(h, h', None);
  }

  lemma Parks(h: Host, t: Thread)
    requires Inv(h) && !ThreadInWindow(h)
    requires t.Retrying? ==> h.deferred == Some(t.cmd)
    requires t.Drain? ==> !t.pc.InWindow?
    ensures Inv(h.(thread := t))
  {
    hide Base;
    ControlKeeps(h, h.(thread := t));
  }

  /** A deferred command is its request's only hold on the driver, and it can be sent. */
  lemma DeferredReady(h: Host, c: Cmd)
    requires Inv(h) && h.deferred == Some(c) && !h.thread.Retrying?
    ensures Base(h, Some(c.mrq)) && Loose(h, c.mrq) && Unheld(h, c.mrq) && c.mrq in h.obj
    ensures Ready(h.cfg, c, Look(h, c.mrq))
    ensures !CmdOf(Look(h, c.mrq), c.role).error
  {
    Open(h, c.mrq);
    assert c.mrq in h.obj && ReqInv(h, c.mrq);
  }

  lemma TakeMoves(h: Host, c: Cmd)
    requires h.deferred == Some(c) && c.mrq in h.obj
    ensures OnlyAbout(h, h.(deferred := None), c.mrq)
    ensures Unheld(h, c.mrq) ==> Unheld(h.(deferred := None), c.mrq)
  {
  }

  lemma IssueCommutes(h: Host, c: Cmd)
    ensures Issue(h.(deferred := None), c) == Issue(h, c).(deferred := None)
  {
    hide IssuedRec, DataLine, CarriesData;
  }

  lemma ClearedIs(h: Host, c: Cmd, lines: Lines)
    requires SetError(h, c, false) == h && h.cmd.None? && !h.warned
    ensures Send(h, c, lines).0 == if Refused(c, lines) then h else Issue(h, c)
  {
    hide SetError, Issue, Refused;
  }

  /** Sending a deferred command: either it goes out, or nothing changes. */
  lemma SendDeferred(h: Host, c: Cmd, lines: Lines)
    requires Inv(h) && h.deferred == Some(c) && !h.thread.Retrying?
    ensures Send(h, c, lines).1 == !Refused(c, lines)
    ensures if Refused(c, lines) then Send(h, c, lines).0 == h else Inv(Send(h, c, lines).0.(deferred := None))
  {
    var h1 := h.(deferred := None);
    DeferredReady(h, c);
    TakeMoves(h, c);
    IssueCommutes(h, c);
    LinesFree(h, c);
    ClearIsIdle(h, c);
    ClearIsIdle(h1, c);
    assert !h.warned && Look(h1, c.mrq) == Look(h, c.mrq);
    ClearedIs(h, c, lines);
    ClearedIs(h1, c, lines);
    hide Base, Loose, Ready, ReqInv, PlaceOf, SetError, Issue, Unheld, OnlyAbout, Refused;
    OnlyAboutKeeps(h, h1, c.mrq);
    SendKeeps(h1, c, lines);
  }

  /** ... and then the thread goes back to sleep. */
  lemma SentSleeps(h: Host, c: Cmd, lines: Lines)
    requires Inv(Send(h, c, lines).0.(deferred := None)) && !ThreadInWindow(h)
    ensures Inv(Send(h, c, lines).0.(deferred := None, thread := Sleeping))
  {
    SendThread(h, c, lines);
    hide Base, Send;
    var h1 := Send(h, c, lines).0.(deferred := None);
    Parks(h1, Sleeping);
  }

  lemma SendThread(h: Host, c: Cmd, lines: Lines)
    ensures Send(h, c, lines).0.thread == h.thread && Send(h, c, lines).0.worker == h.worker
  {
    hide IssuedRec, WithCmd, CmdOf;
  }

  lemma ThreadDefersKeeps(h: Host, lines: Lines)
    requires Inv(h) && h.thread.Deferring?
    ensures Inv(ThreadDefers(h, lines))
  {
    hide Base, Send;
    if h.deferred.None? {
      Parks(h, Sleeping);
    } else {
      var c := h.deferred.value;
      SendDeferred(h, c, lines);
      if Refused(c, lines) {
        Parks(h, Retrying(c, RETRIES - 1));
      } else {
        SentSleeps(h, c, lines);
      }
    }
  }

  lemma GiveUpQueued(h: Host, c: Cmd)
    requires Inv(h) && h.deferred == Some(c) && !h.thread.Retrying?
    ensures Inv(FinishMrqQueued(SetError(h, c, true), c.mrq))
  {
    DeferredReady(h, c);
    hide Inv, Base, Loose, Ready, Unheld, SetError, FinishMrq;
    GiveUpKeeps(h, c, c);
    QueuedKeeps(FinishMrq(SetError(h, c, true), c.mrq));
  }

  lemma RetryingDeferred(h: Host)
    requires Inv(h) && h.thread.Retrying?
    ensures h.deferred == Some(h.thread.cmd)
  {
  }

  lemma ThreadWakesKeeps(h: Host, present: bool, lines: Lines)
    requires Inv(h) && h.thread.Retrying?
    ensures Inv(ThreadWakes(h, present, lines))
  {
    hide Base, Send, FinishMrqQueued, SetError, Refused;
    var Retrying(c, left) := h.thread;
    var awake := h.(thread := Sleeping);
    RetryingDeferred(h);
    Parks(h, Sleeping);
    SendDeferred(awake, c, lines);
    GiveUpQueued(awake, c);
    if left > 0 {
      Parks(awake, Retrying(c, left - 1));
    }
  }

  // ---------------------------------------------------------------- the drainers

  function WithPc(h: Host, byThread: bool, pc: Drainer): Host {
    if byThread then h.(thread := Drain(pc)) else h.(worker := pc)
  }

  lemma DrainTailKeeps(h: Host, i: nat, r: Request)
    requires Inv(h) && i < 2 && Slot(h, i) == Some(r) && !Look(h, r).data.mapped
    ensures Inv(DrainTail(h, i, r).0)
  {
    hide Inv, NeedsReset, Returnable, HandBack, Recovered;
    if !NeedsReset(h, r) {
      CalmReturnable(h, r);
      HandBackKeeps(h, i, r);
    } else if h.cmd.None? && h.dataCmd.None? {
      SlotKnown(h, i);
      RecoveredReturnable(h, i, r);
      RecoveredKeeps(h);
      HandBackKeeps(Recovered(h), i, r);
    }
  }

  lemma CalmReturnable(h: Host, r: Request)
    requires !NeedsReset(h, r) && !Look(h, r).data.mapped
    ensures Returnable(h, r)
  {
  }

  /** The reset the drainer makes with the bus idle is the one its request has been waiting for. */
  lemma RecoveredReturnable(h: Host, i: nat, r: Request)
    requires ReqInv(h, r) && Slot(h, i) == Some(r) && !Look(h, r).data.mapped
    requires h.cmd.None? && h.dataCmd.None?
    ensures Returnable(Recovered(h), r) && Slot(Recovered(h), i) == Some(r)
  {
  }

  lemma RecoveredKeeps(h: Host)
    requires Inv(h) && h.cmd.None? && h.dataCmd.None?
    ensures Inv(Recovered(h))
  {
    hide Inv;
    QuietKeeps(h, Recovered(h));
  }

  /** Mark the beginning of the unmapping of `r`, or its end. */
  function Unmaps(h: Host, r: Request): Host {
    var rec := Look(h, r);
    Store(h, r, rec.(data := rec.data.(unmaps := rec.data.unmaps + 1)))
  }

  function Unmapped(h: Host, r: Request): Host {
    var rec := Look(h, r);
    Store(h, r, rec.(data := rec.data.(mapped := false)))
  }

  lemma EnterRefs(h: Host, i: nat, r: Request, byThread: bool)
    requires RefsInv(h) && ThreadsInv(h) && i < 2 && Slot(h, i) == Some(r) && Look(h, r).data.mapped
    requires !WorkerInWindow(h) && !ThreadInWindow(h)
    ensures RefsInv(WithPc(Unmaps(h, r), byThread, InWindow(i, r)))
    ensures ThreadsInv(WithPc(Unmaps(h, r), byThread, InWindow(i, r)))
  {
  }

  lemma EnterPlace(h: Host, i: nat, r: Request, byThread: bool)
    ensures PlaceOf(WithPc(Unmaps(h, r), byThread, InWindow(i, r)), r) == PlaceOf(h, r).(unmapping := true)
  {
    hide DataLine, Look;
  }

  lemma EnterRecord(h: Host, i: nat, r: Request, byThread: bool)
    ensures var h' := WithPc(Unmaps(h, r), byThread, InWindow(i, r));
            var rec := Look(h, r);
      Look(h', r) == rec.(data := rec.data.(unmaps := rec.data.unmaps + 1)) && StandingOf(h') == StandingOf(h)
  {
  }

  lemma EnterConsistent(s: Standing, r: Request, p: Place, rec: Rec)
    requires Consistent(s, r, p, rec) && p.slots == 1 && rec.data.mapped && !p.unmapping
    ensures Consistent(s, r, p.(unmapping := true), rec.(data := rec.data.(unmaps := rec.data.unmaps + 1)))
  {
    hide SelectsAuto12, SelectsAuto23, WantsStop;
  }

  lemma EnterLodges(h: Host, i: nat, r: Request, byThread: bool)
    requires ReqInv(h, r) && i < 2 && Slot(h, i) == Some(r) && Look(h, r).data.mapped
    requires !WorkerInWindow(h) && !ThreadInWindow(h)
    ensures ReqInv(WithPc(Unmaps(h, r), byThread, InWindow(i, r)), r)
  {
    SlotPlace(h, i, r);
    assert !PlaceOf(h, r).unmapping;
    hide Consistent, PlaceOf, Look, WithPc, Unmaps, OnBus;
    EnterPlace(h, i, r, byThread);
    EnterRecord(h, i, r, byThread);
    EnterConsistent(StandingOf(h), r, PlaceOf(h, r), Look(h, r));
  }

  lemma EnterSpares(h: Host, i: nat, r: Request, byThread: bool, q: Request)
    requires q != r && !WorkerInWindow(h) && !ThreadInWindow(h)
    ensures PlaceOf(WithPc(Unmaps(h, r), byThread, InWindow(i, r)), q) == PlaceOf(h, q)
  {
  }

  lemma EnterAside(h: Host, i: nat, r: Request, byThread: bool)
    requires r in h.obj && !WorkerInWindow(h) && !ThreadInWindow(h)
    ensures Aside(h, WithPc(Unmaps(h, r), byThread, InWindow(i, r)), Some(r))
  {
    var h' := WithPc(Unmaps(h, r), byThread, InWindow(i, r));
    forall q | q in h.obj && q != r ensures PlaceOf(h', q) == PlaceOf(h, q) {
      EnterSpares(h, i, r, byThread, q);
    }
    hide PlaceOf;
  }

  lemma EnterKeeps(h: Host, i: nat, r: Request, byThread: bool)
    requires Inv(h) && i < 2 && Slot(h, i) == Some(r) && Look(h, r).data.mapped
    requires !WorkerInWindow(h) && !ThreadInWindow(h)
    ensures Inv(WithPc(Unmaps(h, r), byThread, InWindow(i, r)))
  {
    var h' := WithPc(Unmaps(h, r), byThread, InWindow(i, r));
    assert r in h.obj && ReqInv(h, r) && !h'.warned;
    EnterRefs(h, i, r, byThread);
    EnterLodges(h, i, r, byThread);
    EnterAside(h, i, r, byThread);
    hide Base, RefsInv, ThreadsInv, ReqInv, PlaceOf, Aside, WithPc, Unmaps;
    Open(h, r);
    AsideKeeps(h, h', Some(r));
    Close(h', r);
  }

  /** The drainer given by `byThread` stands in its window, over slot `i` and request `r`. */
  predicate StandsAt(h: Host, byThread: bool, i: nat, r: Request) {
    if byThread then h.thread == Drain(InWindow(i, r)) else h.worker == InWindow(i, r)
  }

  lemma LeaveRefs(h: Host, i: nat, r: Request, byThread: bool)
    requires RefsInv(h) && ThreadsInv(h) && StandsAt(h, byThread, i, r)
    ensures RefsInv(WithPc(Unmapped(h, r), byThread, Draining))
        && ThreadsInv(WithPc(Unmapped(h, r), byThread, Draining))
  {
  }

  lemma LeavePlace(h: Host, i: nat, r: Request, byThread: bool)
    requires StandsAt(h, byThread, i, r) && !(WorkerInWindow(h) && ThreadInWindow(h))
    ensures PlaceOf(WithPc(Unmapped(h, r), byThread, Draining), r) == PlaceOf(h, r).(unmapping := false)
    ensures PlaceOf(h, r).unmapping
  {
    hide DataLine, Look;
  }

  lemma LeaveRecord(h: Host, r: Request, byThread: bool)
    ensures var h' := WithPc(Unmapped(h, r), byThread, Draining);
            var rec := Look(h, r);
      Look(h', r) == rec.(data := rec.data.(mapped := false)) && StandingOf(h') == StandingOf(h)
  {
  }

  lemma LeaveConsistent(s: Standing, r: Request, p: Place, rec: Rec)
    requires Consistent(s, r, p, rec) && p.slots == 1 && rec.data.mapped && p.unmapping
    ensures Consistent(s, r, p.(unmapping := false), rec.(data := rec.data.(mapped := false)))
  {
    hide SelectsAuto12, SelectsAuto23, WantsStop;
  }

  lemma StandsInSlot(h: Host, byThread: bool, i: nat, r: Request)
    requires ThreadsInv(h) && StandsAt(h, byThread, i, r)
    ensures i < 2 && Slot(h, i) == Some(r) && Look(h, r).data.mapped && !(WorkerInWindow(h) && ThreadInWindow(h))
  {
  }

  lemma LeaveLodges(h: Host, i: nat, r: Request, byThread: bool)
    requires ReqInv(h, r) && ThreadsInv(h) && StandsAt(h, byThread, i, r)
    ensures ReqInv(WithPc(Unmapped(h, r), byThread, Draining), r)
  {
    StandsInSlot(h, byThread, i, r);
    hide ThreadsInv, WorkerInWindow, ThreadInWindow, StandsAt;
    SlotPlace(h, i, r);
    hide Consistent, PlaceOf, Look, WithPc, Unmapped, OnBus;
    LeavePlace(h, i, r, byThread);
    LeaveRecord(h, r, byThread);
    LeaveConsistent(StandingOf(h), r, PlaceOf(h, r), Look(h, r));
  }

  lemma LeaveSpares(h: Host, i: nat, r: Request, byThread: bool, q: Request)
    requires ThreadsInv(h) && StandsAt(h, byThread, i, r) && q != r
    ensures PlaceOf(WithPc(Unmapped(h, r), byThread, Draining), q) == PlaceOf(h, q)
  {
  }

  lemma LeaveAside(h: Host, i: nat, r: Request, byThread: bool)
    requires r in h.obj && ThreadsInv(h) && StandsAt(h, byThread, i, r)
    ensures Aside(h, WithPc(Unmapped(h, r), byThread, Draining), Some(r))
  {
    var h' := WithPc(Unmapped(h, r), byThread, Draining);
    forall q | q in h.obj && q != r ensures PlaceOf(h', q) == PlaceOf(h, q) {
      LeaveSpares(h, i, r, byThread, q);
    }
    hide PlaceOf, ThreadsInv;
  }

  lemma LeaveKeeps(h: Host, i: nat, r: Request, byThread: bool)
    requires Inv(h) && StandsAt(h, byThread, i, r)
    ensures i < 2 && Slot(h, i) == Some(r)
    ensures Inv(WithPc(Unmapped(h, r), byThread, Draining))
  {
    var h' := WithPc(Unmapped(h, r), byThread, Draining);
    assert i < 2 && Slot(h, i) == Some(r);
    assert r in h.obj && ReqInv(h, r) && !h'.warned;
    LeaveRefs(h, i, r, byThread);
    LeaveLodges(h, i, r, byThread);
    LeaveAside(h, i, r, byThread);
    hide Base, RefsInv, ThreadsInv, ReqInv, PlaceOf, Aside, WithPc, Unmapped;
    Open(h, r);
    AsideKeeps(h, h', Some(r));
    Close(h', r);
  }

  lemma HandBackCommutes(h: Host, i: nat, r: Request, byThread: bool, pc: Drainer)
    ensures HandBack(WithPc(h, byThread, pc), i, r) == WithPc(HandBack(h, i, r), byThread, pc)
  {
    var h1 := HandBack(WithPc(h, byThread, pc), i, r);
    var h2 := WithPc(HandBack(h, i, r), byThread, pc);
    assert h1.obj == h2.obj && h1.out == h2.out && h1.slot0 == h2.slot0 && h1.slot1 == h2.slot1;
    assert h1.worker == h2.worker && h1.thread == h2.thread;
  }

  lemma HandBackControl(h: Host, i: nat, r: Request)
    ensures HandBack(h, i, r).worker == h.worker && HandBack(h, i, r).thread == h.thread
  {
  }

  lemma ResetCommutes(h: Host, byThread: bool, pc: Drainer)
    ensures Recovered(WithPc(h, byThread, pc)) == WithPc(Recovered(h), byThread, pc)
    ensures Recovered(h).worker == h.worker && Recovered(h).thread == h.thread
  {
    if byThread { ThreadReset(h, Drain(pc)); } else { WorkerReset(h, pc); }
    hide Recovered;
  }

  lemma ThreadReset(h: Host, t: Thread)
    ensures Recovered(h.(thread := t)) == Recovered(h).(thread := t)
    ensures Recovered(h).worker == h.worker && Recovered(h).thread == h.thread
  {
  }

  lemma WorkerReset(h: Host, pc: Drainer)
    ensures Recovered(h.(worker := pc)) == Recovered(h).(worker := pc)
    ensures Recovered(h).worker == h.worker && Recovered(h).thread == h.thread
  {
  }

  lemma NeedsCommutes(h: Host, r: Request, byThread: bool, pc: Drainer)
    ensures NeedsReset(WithPc(h, byThread, pc), r) == NeedsReset(h, r)
    ensures WithPc(h, byThread, pc).cmd == h.cmd && WithPc(h, byThread, pc).dataCmd == h.dataCmd
  {
  }

  /** sdhci_request_done neither reads nor moves the program counters of the drainers. */
  lemma TailCommutes(h: Host, i: nat, r: Request, byThread: bool, pc: Drainer)
    ensures DrainTail(WithPc(h, byThread, pc), i, r) ==
            (WithPc(DrainTail(h, i, r).0, byThread, pc), DrainTail(h, i, r).1)
    ensures DrainTail(h, i, r).0.worker == h.worker && DrainTail(h, i, r).0.thread == h.thread
  {
    var h1 := Recovered(h);
    NeedsCommutes(h, r, byThread, pc);
    ResetCommutes(h, byThread, pc);
    HandBackCommutes(h, i, r, byThread, pc);
    HandBackCommutes(h1, i, r, byThread, pc);
    HandBackControl(h, i, r);
    HandBackControl(h1, i, r);
    hide HandBack, WithPc, Recovered, NeedsReset;
  }

  /** A drainer that was outside its window stays outside it. */
  lemma PcKeeps(h: Host, byThread: bool, pc: Drainer)
    requires Inv(h) && !pc.InWindow?
    requires if byThread then !ThreadInWindow(h) else !WorkerInWindow(h)
    ensures Inv(WithPc(h, byThread, pc))
    ensures byThread ==> Inv(h.(thread := Deferring))
  {
    if h.thread.Retrying? { RetryingDeferred(h); }
    hide Base;
    ControlKeeps(h, WithPc(h, byThread, pc));
    if byThread { Parks(h, Deferring); }
  }

  /** What a drainer does next, with its program counter where it ends up. */
  lemma DrainKeeps(h: Host, byThread: bool)
    requires Inv(h) && (byThread ==> h.thread.Drain?)
    requires if byThread then !WorkerInWindow(h) else !ThreadInWindow(h)
    ensures var (h1, pc) := RunDrainer(h, if byThread then h.thread.pc else h.worker);
            Inv(WithPc(h1, byThread, pc)) && (byThread && pc.Idle? ==> Inv(h1.(thread := Deferring)))
  {
    var at := if byThread then h.thread.pc else h.worker;
    if at.InWindow? {
      WindowEndKeeps(h, at.slot, at.mrq, byThread);
    } else {
      DrainStepKeeps(h, byThread);
    }
  }

  lemma LeftInSlot(h: Host, i: nat, r: Request, byThread: bool)
    requires Slot(h, i) == Some(r)
    ensures var left := WithPc(Unmapped(h, r), byThread, Draining);
      Slot(left, i) == Some(r) && !Look(left, r).data.mapped
    ensures byThread ==> !ThreadInWindow(WithPc(Unmapped(h, r), byThread, Draining))
    ensures !byThread ==> !WorkerInWindow(WithPc(Unmapped(h, r), byThread, Draining))
  {
  }

  lemma WindowEndIs(h: Host, i: nat, r: Request, byThread: bool)
    ensures var (h1, stop) := DrainTail(Unmapped(h, r), i, r);
      WindowEnd(h, i, r) == (h1, if stop then Idle else Draining)
  {
    hide DrainTail, Look;
  }

  lemma PcTwice(h: Host, byThread: bool, pc: Drainer, pc': Drainer)
    ensures WithPc(WithPc(h, byThread, pc), byThread, pc') == WithPc(h, byThread, pc')
    ensures byThread ==> WithPc(h, byThread, pc).(thread := Deferring) == h.(thread := Deferring)
    ensures !pc.InWindow?
        ==> if byThread then !ThreadInWindow(WithPc(h, byThread, pc)) else !WorkerInWindow(WithPc(h, byThread, pc))
  {
  }

  lemma WindowEndKeeps(h: Host, i: nat, r: Request, byThread: bool)
    requires Inv(h) && StandsAt(h, byThread, i, r)
    ensures var (h1, pc) := WindowEnd(h, i, r);
            Inv(WithPc(h1, byThread, pc)) && (byThread && pc.Idle? ==> Inv(h1.(thread := Deferring)))
  {
    var left := WithPc(Unmapped(h, r), byThread, Draining);
    var (h1, stop) := DrainTail(Unmapped(h, r), i, r);
    var pc := if stop then Idle else Draining;
    hide Inv, DrainTail, Slot, Look, StandsAt, Unmapped, WindowEnd, WithPc, ThreadInWindow, WorkerInWindow;
    WindowEndIs(h, i, r, byThread);
    LeaveKeeps(h, i, r, byThread);
    LeftInSlot(h, i, r, byThread);
    TailCommutes(Unmapped(h, r), i, r, byThread, Draining);
    DrainTailKeeps(left, i, r);
    PcTwice(h1, byThread, Draining, pc);
    PcKeeps(WithPc(h1, byThread, Draining), byThread, pc);
  }

  lemma DoneRequest(h: Host, i: nat)
    requires Inv(h) && FirstDone(h) == Some(i)
    ensures i < 2 && Slot(h, i).Some? && Slot(h, i).value in h.obj && Slot(h, i).value in h.out
    ensures Look(h, Slot(h, i).value).data.mapped ==> h.reqUseDma && Slot(h, i).value.hasData
  {
    assert ReqInv(h, Slot(h, i).value);
  }

  lemma DrainStepKeeps(h: Host, byThread: bool)
    requires Inv(h) && !ThreadInWindow(h) && !WorkerInWindow(h)
    ensures var (h1, pc) := DrainStep(h);
            Inv(WithPc(h1, byThread, pc)) && (byThread && pc.Idle? ==> Inv(h1.(thread := Deferring)))
  {
    hide Base, DrainTail, Slot, Look;
    if FirstDone(h).None? {
      PcKeeps(h, byThread, Idle);
    } else {
      var i := FirstDone(h).value;
      DoneRequest(h, i);
      var r := Slot(h, i).value;
      if Look(h, r).data.mapped {
        EnterKeeps(h, i, r, byThread);
      } else {
        var (h1, stop) := DrainTail(h, i, r);
        DrainTailKeeps(h, i, r);
        TailCommutes(h, i, r, byThread, Idle);
        PcKeeps(h1, byThread, if stop then Idle else Draining);
      }
    }
  }

  // ---------------------------------------------------------------- every step, every run

  lemma BootInv(cfg: Config)
    ensures Inv(Boot(cfg))
  {
  }

  lemma WorkerStartKeeps(h: Host)
    requires Inv(h) && h.worker.Idle?
    ensures Inv(h.(workQueued := false, worker := Draining))
  {
    RetryingHolds(h);
    hide Inv;
    ControlKeeps(h, h.(workQueued := false, worker := Draining));
  }

  lemma ThreadStartKeeps(h: Host)
    requires Inv(h) && h.thread.Sleeping?
    ensures Inv(h.(woken := false, thread := Drain(Draining)))
  {
    hide Inv;
    ControlKeeps(h, h.(woken := false, thread := Drain(Draining)));
  }

  lemma RetryingHolds(h: Host)
    requires Inv(h)
    ensures h.thread.Retrying? ==> h.deferred == Some(h.thread.cmd)
  {
    hide ReqInv, RefsInv, Beside;
  }

  /** Every step of the driver and of its environment keeps the invariant. */
  lemma StepKeeps(h: Host, s: Step)
    requires Inv(h) && Enabled(h, s)
    ensures Inv(Apply(h, s))
  {
    hide Base, Admissible, Submit, SubmitAtomic, CallerWakes, Irq, TimeoutTimer, TimeoutDataTimer,
      RunDrainer, ThreadDefers, ThreadWakes, CardEvent, Die;
    match s
    case Submits(r, present, lines) => SubmitKeeps(h, r, present, lines);
    case SubmitsAtomic(r, lines) => SubmitKeeps(h, r, true, lines);
    case CallerStep(present, lines) => CallerWakesKeeps(h, present, lines);
    case Interrupt(rounds) => IrqKeeps(h, rounds);
    case CmdTimeout(expired) => TimeoutKeeps(h, h.timer && !expired);
    case DataTimeout(expired, lines) => DataTimeoutKeeps(h, h.dataTimer && !expired, lines);
    case WorkerStarts => WorkerStartKeeps(h);
    case WorkerStep => DrainKeeps(h, false);
    case ThreadStarts => ThreadStartKeeps(h);
    case ThreadDrains => DrainKeeps(h, true);
    case ThreadTakesDeferred(lines) => ThreadDefersKeeps(h, lines);
    case ThreadStep(present, lines) => ThreadWakesKeeps(h, present, lines);
    case CardChanges(present) => CardEventKeeps(h, present);
    case Dies => DieKeeps(h);
  }

  /** ... so it holds in every state of every run. */
  lemma {:induction false} RunKeeps(cfg: Config, states: seq<Host>, steps: seq<Step>, i: nat)
    requires IsRun(cfg, states, steps) && i < |states|
    ensures Inv(states[i])
  {
    hide Inv, Apply, Enabled, Boot;
    if i == 0 {
      BootInv(cfg);
    } else {
      RunKeeps(cfg, states, steps, i - 1);
      StepKeeps(states[i - 1], steps[i - 1]);
    }
  }
}
