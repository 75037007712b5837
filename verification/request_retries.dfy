/** How long a refused command is tried again. */
module RequestRetries {
  import opened Options
  import opened RequestModel
  import opened RequestInvariant
  import opened RequestErrors
  import opened RequestFrames

  // ---------------------------------------------------------------- giving up

  /** The command was never written; its request is in a slot with the error of the command, and
      the completion worker is on its way. */
  predicate GivenUp(h: Host, c: Cmd) {
    && (h.slot0 == Some(c.mrq) || h.slot1 == Some(c.mrq)) && h.workQueued
    && Look(h, c.mrq).finishes == 1
    && var rec := CmdOf(Look(h, c.mrq), c.role); rec.error && rec.issued == 0
  }

  lemma GivesUp(h: Host, c: Cmd)
    requires Unwritten(h, c)
    ensures var h' := FinishMrqQueued(SetError(h, c, true), c.mrq);
      h'.caller == h.caller && (Inv(h') ==> GivenUp(h', c))
  {
    var h' := FinishMrqQueued(SetError(h, c, true), c.mrq);
    GiveUpBooks(h, c);
    hide FinishMrqQueued, SetError, Inv;
    if Inv(h') { Lodged(h', c.mrq); }
  }

  lemma GiveUpBooks(h: Host, c: Cmd)
    ensures var h' := FinishMrqQueued(SetError(h, c, true), c.mrq);
            var rec, rec' := Look(h, c.mrq), Look(h', c.mrq);
      && rec'.finishes == rec.finishes + 1 && rec'.returned == rec.returned && c.mrq in h'.obj
      && CmdOf(rec', c.role) == CmdOf(rec, c.role).(error := true) && h'.workQueued && h'.caller == h.caller
  {
  }

  lemma Lodged(h: Host, r: Request)
    requires Inv(h) && r in h.obj && Look(h, r).finishes == 1 && Look(h, r).returned == 0
    ensures h.slot0 == Some(r) || h.slot1 == Some(r)
  {
    assert ReqInv(h, r);
    hide Inv, MapInv, ResetInv, Outcome, Unmapping, Asleep;
  }

  // ---------------------------------------------------------------- the caller of sdhci_request

  lemma Asleeps(h: Host)
    requires Inv(h) && h.caller.Some?
    ensures var c := h.caller.value.cmd;
      && c.mrq in h.out && c.mrq in h.obj && Look(h, c.mrq) == FRESH && c == FirstCmd(h.cfg, c.mrq)
      && !Owns(h.deferred, c.mrq)
  {
    WakeKeeps(h);
    WaitingKnown(h);
    hide Inv, ReqInv;
  }

  /** A caller that sleeps is woken by nothing but its own timer. */
  lemma SleepsOn(h: Host, s: Step)
    requires Inv(h) && Enabled(h, s) && h.caller.Some? && !s.CallerStep?
    ensures Apply(h, s).caller == h.caller
  {
    Asleeps(h);
    assert !s.Submits? by {
      assert !Overlaps(h, h.caller.value.cmd.mrq);
      hide Overlaps, Look, Inv;
    }
    StepFrames(h, s);
    hide Apply, Enabled, Inv;
  }

  /** One turn: given up without a card or on a dead controller, sent as soon as the lines the
      command needs are free, and else one retry less, until none is left. */
  lemma CallerTakesTurn(h: Host, present: bool, l: Lines)
    requires Inv(h) && h.caller.Some?
    ensures var c := h.caller.value.cmd;
            var h' := CallerWakes(h, present, l);
      if !present || h.dead then GivenUp(h', c) && h'.caller.None?
      else if Permits(l, c) then Written(h', c) && h'.caller.None?
      else if h.caller.value.left == 0 then GivenUp(h', c) && h'.caller.None?
      else h' == h.(caller := Some(Caller(c, h.caller.value.left - 1)))
  {
    hide *;
    if !present || h.dead {
      TurnGivesUp(h, present, l);
    } else if Permits(l, h.caller.value.cmd) {
      TurnSends(h, l);
    } else {
      TurnRefused(h, l);
    }
  }

  lemma TurnGivesUp(h: Host, present: bool, l: Lines)
    requires Inv(h) && h.caller.Some? && (!present || h.dead)
    ensures var h' := CallerWakes(h, present, l); GivenUp(h', h.caller.value.cmd) && h'.caller.None?
  {
    hide *;
    FreshAwake(h);
    CallerTurn(h, present, l);
    CallerWakesKeeps(h, present, l);
    GivesUp(h.(caller := None), h.caller.value.cmd);
  }

  lemma TurnSends(h: Host, l: Lines)
    requires Inv(h) && h.caller.Some? && !h.dead && Permits(l, h.caller.value.cmd)
    ensures var h' := CallerWakes(h, true, l); Written(h', h.caller.value.cmd) && h'.caller.None?
  {
    hide *;
    FreshAwake(h);
    CallerTurn(h, true, l);
    SentCounts(h.(caller := None), h.caller.value.cmd, l);
  }

  lemma TurnRefused(h: Host, l: Lines)
    requires Inv(h) && h.caller.Some? && !h.dead && !Permits(l, h.caller.value.cmd)
    ensures var c := h.caller.value.cmd;
            var h' := CallerWakes(h, true, l);
      if h.caller.value.left == 0 then GivenUp(h', c) && h'.caller.None?
      else h' == h.(caller := Some(Caller(c, h.caller.value.left - 1)))
  {
    hide *;
    FreshAwake(h);
    CallerTurn(h, true, l);
    WokenSend(h, l);
    if h.caller.value.left == 0 {
      CallerWakesKeeps(h, true, l);
      GivesUp(h.(caller := None), h.caller.value.cmd);
    }
  }

  lemma FreshAwake(h: Host)
    requires Inv(h) && h.caller.Some?
    ensures Unwritten(h.(caller := None), h.caller.value.cmd)
  {
    hide Inv, Look, Unwritten;
    Asleeps(h);
    StillUnwritten(h, h.caller.value.cmd);
  }

  lemma StillUnwritten(h: Host, c: Cmd)
    requires Look(h, c.mrq) == FRESH
    ensures Unwritten(h.(caller := None), c)
  {
  }

  /** The request of `c` is not finished, and `c` has not been written. */
  predicate Unwritten(h: Host, c: Cmd) {
    var rec := Look(h, c.mrq);
    rec.finishes == 0 && rec.returned == 0 && CmdOf(rec, c.role).issued == 0
  }

  lemma WokenSend(h: Host, l: Lines)
    requires Inv(h) && h.caller.Some?
    ensures var c := h.caller.value.cmd;
            var awake := h.(caller := None);
      !Permits(l, c) ==> Send(awake, c, l).0 == awake
  {
    var c := h.caller.value.cmd;
    var awake := h.(caller := None);
    WakeKeeps(h);
    WakeReady(h, c.mrq);
    RefusedIs(c, l);
    hide Inv, Base, Loose, Ready, Unheld, Refused, Permits, Send, Midway, Look;
    SendKeeps(awake, c, l);
  }

  lemma SentCounts(h: Host, c: Cmd, l: Lines)
    requires Permits(l, c) && Unwritten(h, c)
    ensures Written(Send(h, c, l).0, c) && Send(h, c, l).0.caller == h.caller
  {
    var h1 := SetError(h, c, false).(warned := h.warned || h.cmd.Some?);
    RefusedIs(c, l);
    ClearedBooks(h, c);
    IssuedBooks(h1, c);
    hide SetError, Issue, Refused, Permits, Look, CmdOf;
  }

  /** The command is on the command line, written once. */
  predicate Written(h: Host, c: Cmd) {
    h.cmd == Some(c) && CmdOf(Look(h, c.mrq), c.role).issued == 1
  }

  lemma ClearedBooks(h: Host, c: Cmd)
    ensures var h1 := SetError(h, c, false).(warned := h.warned || h.cmd.Some?);
      h1.caller == h.caller && CmdOf(Look(h1, c.mrq), c.role).issued == CmdOf(Look(h, c.mrq), c.role).issued
  {
  }

  lemma IssuedBooks(h: Host, c: Cmd)
    ensures var h1 := Issue(h, c);
      && h1.cmd == Some(c) && h1.caller == h.caller
      && CmdOf(Look(h1, c.mrq), c.role).issued == CmdOf(Look(h, c.mrq), c.role).issued + 1
  {
    hide DataLine;
  }

  /** How many turns of the caller there are among the steps from `i` up to `j`. */
  function CallerTurns(steps: seq<Step>, i: nat, j: nat): nat
    requires i <= j <= |steps|
  {
    if i == j then 0 else CallerTurns(steps, i, j - 1) + Bit(steps[j - 1].CallerStep?)
  }

  /** The turns among the steps from `i` up to `j` find the card, a live controller and a busy bus. */
  predicate AllRefused(states: seq<Host>, steps: seq<Step>, c: Cmd, i: nat, j: nat)
    requires i <= j <= |steps| && j <= |states|
  {
    forall k :: i <= k < j ==> match steps[k]
      case CallerStep(present, l) => present && !states[k].dead && !Permits(l, c)
      case _ => true
  }

  /** `n` turns have been refused, the last of them in the step just taken if `last`. */
  predicate Countdown(h: Host, c: Cmd, n: nat, last: bool) {
    && (n < 10 ==> h.caller == Some(Caller(c, 9 - n)) && Look(h, c.mrq) == FRESH)
    && (n == 10 && last ==> GivenUp(h, c) && h.caller.None?)
  }

  lemma CountdownStep(h: Host, s: Step, c: Cmd, n: nat, last: bool)
    requires Inv(h) && Enabled(h, s) && Countdown(h, c, n, last)
    requires s.CallerStep? ==> s.present && !h.dead && !Permits(s.lines, c)
    ensures Countdown(Apply(h, s), c, n + Bit(s.CallerStep?), s.CallerStep?)
  {
    hide Inv, Apply, Enabled, Permits, Look, GivenUp, CallerWakes;
    if n < 10 {
      if s.CallerStep? {
        CallerApplies(h, s.present, s.lines);
        RefusedTurn(h, s.lines, c, n);
      } else {
        StepKeeps(h, s);
        SleepsOn(h, s);
        Asleeps(Apply(h, s));
      }
    }
  }

  lemma CallerApplies(h: Host, present: bool, l: Lines)
    requires h.caller.Some?
    ensures Apply(h, CallerStep(present, l)) == CallerWakes(h, present, l)
  {
    hide CallerWakes;
  }

  lemma RefusedTurn(h: Host, l: Lines, c: Cmd, n: nat)
    requires Inv(h) && n < 10 && h.caller == Some(Caller(c, 9 - n)) && !h.dead && !Permits(l, c)
    ensures Countdown(CallerWakes(h, true, l), c, n + 1, true)
  {
    hide Inv, Permits, Look, GivenUp, CallerWakes;
    TurnRefused(h, l);
    if n < 9 {
      CallerWakesKeeps(h, true, l);
      Asleeps(CallerWakes(h, true, l));
    }
  }

  /** A request refused when it is submitted waits for its command through nine refused turns and
      is given up in the tenth, whatever else happens in between. */
  lemma {:induction false} TenRefusals(cfg: Config, states: seq<Host>, steps: seq<Step>, i: nat, j: nat, c: Cmd)
    requires IsRun(cfg, states, steps) && i < j < |states| && steps[i].Submits?
    requires c == FirstCmd(states[i].cfg, steps[i].r)
    requires steps[i].present && !states[i].dead && !Permits(steps[i].lines, c)
    requires AllRefused(states, steps, c, i + 1, j)
    ensures var n := CallerTurns(steps, i + 1, j);
      && (n < 10 ==> states[j].caller == Some(Caller(c, 9 - n)) && Look(states[j], c.mrq) == FRESH)
      && (n == 10 && steps[j - 1].CallerStep? ==> GivenUp(states[j], c) && states[j].caller.None?)
    decreases j
  {
    hide Inv, Apply, Enabled, Permits, Look, GivenUp, FirstCmd;
    RunKeeps(cfg, states, steps, j - 1);
    if j == i + 1 {
      RunKeeps(cfg, states, steps, j);
      FirstRefusal(states[i], steps[i], c);
      Asleeps(states[j]);
    } else {
      TenRefusals(cfg, states, steps, i, j - 1, c);
      CountdownStep(states[j - 1], steps[j - 1], c, CallerTurns(steps, i + 1, j - 1), steps[j - 2].CallerStep?);
    }
  }

  lemma FirstRefusal(h: Host, s: Step, c: Cmd)
    requires Enabled(h, s) && s.Submits? && s.present && !h.dead && c == FirstCmd(h.cfg, s.r) && !Permits(s.lines, c)
    ensures Apply(h, s).caller == Some(Caller(c, 9))
  {
    RefusedIs(c, s.lines);
    SentIs(Accept(h, s.r), c, s.lines);
    hide Send, FirstCmd, Permits, Refused;
  }

  // ---------------------------------------------------------------- the interrupt thread

  lemma DeferredUnwritten(h: Host)
    requires Inv(h) && h.deferred.Some?
    ensures Unwritten(h, h.deferred.value) && h.deferred.value.mrq in h.obj
  {
    var c := h.deferred.value;
    WaitingKnown(h);
    hide Inv, ReqInv;
    DeferredBooked(h, c);
  }

  lemma DeferredBooked(h: Host, c: Cmd)
    requires ReqInv(h, c.mrq) && h.deferred == Some(c)
    ensures Unwritten(h, c)
  {
    hide MapInv, ResetInv, Outcome, Unmapping, Asleep, Look;
  }

  lemma RetryUnwritten(h: Host)
    requires Inv(h) && h.thread.Retrying?
    ensures h.deferred == Some(h.thread.cmd) && Unwritten(h.(thread := Sleeping), h.thread.cmd)
  {
    hide Inv, Unwritten;
    RetryingDeferred(h);
    DeferredUnwritten(h);
    AsleepUnwritten(h, h.thread.cmd);
  }

  lemma AsleepUnwritten(h: Host, c: Cmd)
    requires Unwritten(h, c)
    ensures Unwritten(h.(thread := Sleeping), c)
  {
  }

  lemma RetrySend(h: Host, l: Lines)
    requires Inv(h) && h.thread.Retrying? && !Permits(l, h.thread.cmd)
    ensures var awake := h.(thread := Sleeping); Send(awake, h.thread.cmd, l).0 == awake
  {
    hide Inv, Send, Permits, Refused;
    RefusedIs(h.thread.cmd, l);
    RetryingDeferred(h);
    Parks(h, Sleeping);
    SendDeferred(h.(thread := Sleeping), h.thread.cmd, l);
  }

  /** A turn of the thread: the same, for the command it has put off. */
  lemma ThreadTakesTurn(h: Host, present: bool, l: Lines)
    requires Inv(h) && h.thread.Retrying?
    ensures var c := h.thread.cmd;
            var h' := ThreadWakes(h, present, l);
      if !present || h.dead then GivenUp(h', c) && Rests(h')
      else if Permits(l, c) then Written(h', c) && Rests(h')
      else if h.thread.left == 0 then GivenUp(h', c) && Rests(h')
      else h' == h.(thread := Retrying(c, h.thread.left - 1))
  {
    hide *;
    if !present || h.dead {
      ThreadGivesUp(h, present, l);
    } else if Permits(l, h.thread.cmd) {
      ThreadSends(h, l);
    } else {
      ThreadRefused(h, l);
    }
  }

  /** Nothing is deferred and the thread has returned. */
  predicate Rests(h: Host) {
    h.deferred.None? && h.thread.Sleeping?
  }

  lemma ThreadGivesUp(h: Host, present: bool, l: Lines)
    requires Inv(h) && h.thread.Retrying? && (!present || h.dead)
    ensures var h' := ThreadWakes(h, present, l); GivenUp(h', h.thread.cmd) && Rests(h')
  {
    hide *;
    RetryUnwritten(h);
    ThreadTurn(h, present, l);
    ThreadWakesKeeps(h, present, l);
    GivesUp(h.(thread := Sleeping), h.thread.cmd);
    GivesUpRests(h.(thread := Sleeping), h.thread.cmd);
  }

  lemma GivesUpRests(h: Host, c: Cmd)
    requires h.deferred == Some(c) && h.thread.Sleeping?
    ensures Rests(FinishMrqQueued(SetError(h, c, true), c.mrq))
  {
    assert SetError(h, c, true).deferred == h.deferred && SetError(h, c, true).thread == h.thread
      by { hide WithCmd, CmdOf, Look; }
    hide SetError;
  }

  lemma ThreadSends(h: Host, l: Lines)
    requires Inv(h) && h.thread.Retrying? && !h.dead && Permits(l, h.thread.cmd)
    ensures var h' := ThreadWakes(h, true, l); Written(h', h.thread.cmd) && Rests(h')
  {
    hide *;
    var awake := h.(thread := Sleeping);
    RetryUnwritten(h);
    ThreadTurn(h, true, l);
    SentCounts(awake, h.thread.cmd, l);
    SendThread(awake, h.thread.cmd, l);
    TakenRests(Send(awake, h.thread.cmd, l).0, h.thread.cmd);
  }

  lemma TakenRests(h: Host, c: Cmd)
    requires Written(h, c) && h.thread.Sleeping?
    ensures Written(h.(deferred := None), c) && Rests(h.(deferred := None))
  {
  }

  lemma ThreadRefused(h: Host, l: Lines)
    requires Inv(h) && h.thread.Retrying? && !h.dead && !Permits(l, h.thread.cmd)
    ensures var c := h.thread.cmd;
            var h' := ThreadWakes(h, true, l);
      if h.thread.left == 0 then GivenUp(h', c) && Rests(h')
      else h' == h.(thread := Retrying(c, h.thread.left - 1))
  {
    hide *;
    RetryUnwritten(h);
    ThreadTurn(h, true, l);
    RetrySend(h, l);
    if h.thread.left == 0 {
      ThreadWakesKeeps(h, true, l);
      GivesUp(h.(thread := Sleeping), h.thread.cmd);
      GivesUpRests(h.(thread := Sleeping), h.thread.cmd);
    }
  }

  function ThreadTurns(steps: seq<Step>, i: nat, j: nat): nat
    requires i <= j <= |steps|
  {
    if i == j then 0 else ThreadTurns(steps, i, j - 1) + Bit(steps[j - 1].ThreadStep?)
  }

  predicate ThreadRefusals(states: seq<Host>, steps: seq<Step>, c: Cmd, i: nat, j: nat)
    requires i <= j <= |steps| && j <= |states|
  {
    forall k :: i <= k < j ==> match steps[k]
      case ThreadStep(present, l) => present && !states[k].dead && !Permits(l, c)
      case _ => true
  }

  predicate ThreadCountdown(h: Host, c: Cmd, n: nat, last: bool) {
    && (n < 10 ==> h.thread == Retrying(c, 9 - n) && h.deferred == Some(c) && Unwritten(h, c))
    && (n == 10 && last ==> GivenUp(h, c) && Rests(h))
  }

  lemma ThreadCountdownStep(h: Host, s: Step, c: Cmd, n: nat, last: bool)
    requires Inv(h) && Enabled(h, s) && ThreadCountdown(h, c, n, last)
    requires s.ThreadStep? ==> s.present && !h.dead && !Permits(s.lines, c)
    ensures ThreadCountdown(Apply(h, s), c, n + Bit(s.ThreadStep?), s.ThreadStep?)
  {
    hide Inv, Apply, Enabled, Permits, Unwritten, GivenUp, ThreadWakes, Rests;
    if n < 10 {
      StepKeeps(h, s);
      if s.ThreadStep? {
        ThreadApplies(h, s.present, s.lines);
        ThreadRefused(h, s.lines);
      } else {
        StepFrames(h, s);
      }
      if Apply(h, s).thread.Retrying? {
        RetryingDeferred(Apply(h, s));
        DeferredUnwritten(Apply(h, s));
      }
    }
  }

  lemma ThreadApplies(h: Host, present: bool, l: Lines)
    requires h.thread.Retrying?
    ensures Apply(h, ThreadStep(present, l)) == ThreadWakes(h, present, l)
  {
    hide ThreadWakes;
  }

  lemma FirstDeferral(h: Host, l: Lines, c: Cmd)
    requires Enabled(h, ThreadTakesDeferred(l)) && h.deferred == Some(c) && !Permits(l, c)
    ensures Apply(h, ThreadTakesDeferred(l)).thread == Retrying(c, 9)
  {
    RefusedIs(c, l);
    SentIs(h, c, l);
    hide Send, Permits, Refused;
  }

  /** A deferred command refused when the thread takes it up is kept through nine refused turns and
      given up in the tenth. */
  lemma {:induction false} TenDeferrals(cfg: Config, states: seq<Host>, steps: seq<Step>, i: nat, j: nat, c: Cmd)
    requires IsRun(cfg, states, steps) && i < j < |states| && steps[i].ThreadTakesDeferred?
    requires states[i].deferred == Some(c) && !Permits(steps[i].lines, c)
    requires ThreadRefusals(states, steps, c, i + 1, j)
    ensures var n := ThreadTurns(steps, i + 1, j);
      && (n < 10 ==> states[j].thread == Retrying(c, 9 - n) && states[j].deferred == Some(c) && Unwritten(states[j], c))
      && (n == 10 && steps[j - 1].ThreadStep? ==> GivenUp(states[j], c) && Rests(states[j]))
    decreases j
  {
    hide Inv, Apply, Enabled, Permits, Unwritten, GivenUp, Rests;
    RunKeeps(cfg, states, steps, j - 1);
    if j == i + 1 {
      RunKeeps(cfg, states, steps, j);
      FirstDeferral(states[i], steps[i].lines, c);
      RetryingDeferred(states[j]);
      DeferredUnwritten(states[j]);
    } else {
      TenDeferrals(cfg, states, steps, i, j - 1, c);
      ThreadCountdownStep(states[j - 1], steps[j - 1], c, ThreadTurns(steps, i + 1, j - 1), steps[j - 2].ThreadStep?);
    }
  }

  // ---------------------------------------------------------------- submission

  /** A new request is given up at once without a card or on a dead controller, sent if the lines
      its first command needs are free, and waits with ten turns to come otherwise. */
  lemma Submitted(h: Host, r: Request, present: bool, l: Lines)
    requires Inv(h) && Enabled(h, Submits(r, present, l))
    ensures var c := FirstCmd(h.cfg, r);
            var h' := Apply(h, Submits(r, present, l));
      if !present || h.dead then GivenUp(h', Cmd(r, Main))
      else if Permits(l, c) then Written(h', c)
      else h'.caller == Some(Caller(c, 9)) && Look(h', r) == FRESH
  {
    var c := FirstCmd(h.cfg, r);
    hide *;
    StepKeeps(h, Submits(r, present, l));
    SubmitIs(h, r, present, l);
    Accepted(h, r);
    if !present || h.dead {
      GivesUp(Accept(h, r), Cmd(r, Main));
    } else if Permits(l, c) {
      SentCounts(Accept(h, r), c, l);
    } else {
      SleeperFresh(Apply(h, Submits(r, present, l)), c, r);
    }
  }

  lemma SleeperFresh(h: Host, c: Cmd, r: Request)
    requires Inv(h) && h.caller == Some(Caller(c, 9)) && c.mrq == r
    ensures Look(h, r) == FRESH
  {
    hide Inv, Look;
    Asleeps(h);
  }

  lemma Accepted(h: Host, r: Request)
    ensures Unwritten(Accept(h, r), Cmd(r, Main)) && Unwritten(Accept(h, r), FirstCmd(h.cfg, r))
    ensures FirstCmd(h.cfg, r).mrq == r
  {
  }

  lemma SubmitIs(h: Host, r: Request, present: bool, l: Lines)
    requires Enabled(h, Submits(r, present, l))
    ensures var c := FirstCmd(h.cfg, r);
            var h0 := Accept(h, r);
            var h' := Apply(h, Submits(r, present, l));
      && (!present || h.dead ==> h' == FinishMrqQueued(SetError(h0, Cmd(r, Main), true), r))
      && (present && !h.dead && Permits(l, c) ==> h' == Send(h0, c, l).0)
      && (present && !h.dead && !Permits(l, c) ==> h' == Send(h0, c, l).0.(caller := Some(Caller(c, 9))))
  {
    var c := FirstCmd(h.cfg, r);
    RefusedIs(c, l);
    SentIs(Accept(h, r), c, l);
    hide Send, FirstCmd, Permits, Refused, FinishMrqQueued, SetError, Accept;
  }

  /** Without sleeping: a request that cannot be sent at once leaves no trace. */
  lemma SubmittedAtomic(h: Host, r: Request, l: Lines)
    requires Inv(h) && Enabled(h, SubmitsAtomic(r, l))
    ensures var c := FirstCmd(h.cfg, r);
            var h' := Apply(h, SubmitsAtomic(r, l));
      if h.dead then GivenUp(h', Cmd(r, Main))
      else if Permits(l, c) then Written(h', c)
      else h' == h
  {
    var c := FirstCmd(h.cfg, r);
    hide *;
    StepKeeps(h, SubmitsAtomic(r, l));
    AtomicIs(h, r, l);
    Accepted(h, r);
    if h.dead {
      GivesUp(Accept(h, r), Cmd(r, Main));
    } else if Permits(l, c) {
      SentCounts(Accept(h, r), c, l);
    } else {
      NeverWarned(h);
      NeverWarned(Apply(h, SubmitsAtomic(r, l)));
    }
  }

  lemma NeverWarned(h: Host)
    requires Inv(h)
    ensures !h.warned
  {
  }

  lemma AtomicIs(h: Host, r: Request, l: Lines)
    requires Enabled(h, SubmitsAtomic(r, l))
    ensures var c := FirstCmd(h.cfg, r);
            var h0 := Accept(h, r);
            var h' := Apply(h, SubmitsAtomic(r, l));
      && (h.dead ==> h' == FinishMrqQueued(SetError(h0, Cmd(r, Main), true), r))
      && (!h.dead && Permits(l, c) ==> h' == Send(h0, c, l).0)
      && (!h.dead && !Permits(l, c) ==> h' == h.(warned := Send(h0, c, l).0.warned))
  {
    var c := FirstCmd(h.cfg, r);
    RefusedIs(c, l);
    SentIs(Accept(h, r), c, l);
    hide Send, FirstCmd, Permits, Refused, FinishMrqQueued, SetError, Accept;
  }
}
