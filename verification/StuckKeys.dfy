/** A 409 says that a generation is in progress. A key can hold the sentinel of a request that
    is over, or name a generation that is over and still reads `streaming`, and then answers
    409 all the same. This is when that is so. */
module StuckKeys {
  import opened Wrappers
  import opened Domain
  import opened IdempotencyStore
  import opened Sessions
  import opened SessionProofs
  import F = Fanout
  import FP = FanoutProofs
  import FT = FanoutTheorems

  /** The key names the generation of request `a`, whose run is over. */
  ghost predicate NamesFinishedRun(cs: Clients, w: World, a: nat)
    requires Sized(cs, w)
  {
    && a < |cs|
    && w.cell == Some(Id(cs, a))
    && w.requests[a].run.Some?
    && w.requests[a].run.value.coordinator == F.Returned
  }

  /** And its record is still the streaming one. */
  ghost predicate Stuck(cs: Clients, w: World, a: nat)
    requires Sized(cs, w)
  {
    NamesFinishedRun(cs, w, a) && |w.requests[a].run.value.history| == 1
  }

  // ---- what a request that finds the key taken is told ----

  /** The request's next two calls, both answered. */
  ghost function LookedUp(cs: Clients, w: World, r: nat): World
    requires ValidClients(cs) && Sized(cs, w) && r < |cs| && w.requests[r].pc == Resolving
  {
    var w1 := Do(cs, w, Act(r, Lookup(true)));
    DoKeepsSize(cs, w, Act(r, Lookup(true)));
    if w1.requests[r].pc.LoadingPrior? then Do(cs, w1, Act(r, Load(true))) else w1
  }

  lemma NamedRow(cs: Clients, w: World, a: nat)
    requires ValidClients(cs) && Inv(cs, w) && NamesFinishedRun(cs, w, a)
    ensures w.author == a && HasStarted(w.requests[a]) && RunOk(cs[a], w.requests[a])
    ensures var h := w.requests[a].run.value.history;
            1 <= |h| <= 2 && Id(cs, a) in w.rows && w.rows[Id(cs, a)] == h[|h| - 1]
    ensures var h := w.requests[a].run.value.history;
            && h[0].status == Streaming
            && (|h| == 2 ==> h[1].status == Completed || h[1].status == Failed)
  {
    assert RowOk(cs[a], w.requests[a], w.rows);
    assert RunOk(cs[a], w.requests[a]);
  }

  lemma OthersMoved(cs: Clients, w: World, w': World, a: nat, r: nat)
    requires Sized(cs, w) && Sized(cs, w') && NamesFinishedRun(cs, w, a)
    requires Moved(cs, w, w', r) && r != a && w'.cell == w.cell
    ensures NamesFinishedRun(cs, w', a) && (Stuck(cs, w', a) <==> Stuck(cs, w, a))
  {
  }

  lemma LookupFinds(cs: Clients, w: World, a: nat, r: nat)
    requires ValidClients(cs) && Inv(cs, w) && NamesFinishedRun(cs, w, a)
    requires r < |cs| && w.requests[r].pc == Resolving
    ensures Enabled(cs, w, Act(r, Lookup(true)))
    ensures var w1 := Do(cs, w, Act(r, Lookup(true)));
            && Inv(cs, w1)
            && w1.requests[r].pc == LoadingPrior(Id(cs, a), w.author)
            && NamesFinishedRun(cs, w1, a) && (Stuck(cs, w1, a) <==> Stuck(cs, w, a))
  {
    assert FlowOk(w.requests[r]);
    StepInv(cs, w, Act(r, Lookup(true)));
    DoMoves(cs, w, r, Lookup(true));
    OthersMoved(cs, w, Do(cs, w, Act(r, Lookup(true))), a, r);
  }

  lemma LoadAnswers(cs: Clients, w: World, a: nat, r: nat)
    requires ValidClients(cs) && Inv(cs, w) && NamesFinishedRun(cs, w, a)
    requires r < |cs| && w.requests[r].pc.LoadingPrior? && w.requests[r].pc.id == Id(cs, a)
    ensures Enabled(cs, w, Act(r, Load(true)))
    ensures Do(cs, w, Act(r, Load(true))).requests[r].pc == Answered(Conflict) <==> Stuck(cs, w, a)
  {
    NamedRow(cs, w, a);
    DoMoves(cs, w, r, Load(true));
  }

  /** Once the run a key names is over, a request that finds the key taken is told that it is
      still in progress exactly when the key is stuck. */
  lemma ConflictExactlyWhenStuck(cs: Clients, steps: seq<Step>, a: nat, r: nat)
    requires ValidClients(cs) && Run(cs, steps).Some?
    requires NamesFinishedRun(cs, Run(cs, steps).value, a)
    requires r < |cs| && Run(cs, steps).value.requests[r].pc == Resolving
    ensures var w := Run(cs, steps).value;
            LookedUp(cs, w, r).requests[r].pc == Answered(Conflict) <==> Stuck(cs, w, a)
  {
    RunInv(cs, steps);
    LookupThenLoad(cs, Run(cs, steps).value, a, r);
  }

  lemma LookupThenLoad(cs: Clients, w: World, a: nat, r: nat)
    requires ValidClients(cs) && Inv(cs, w) && NamesFinishedRun(cs, w, a)
    requires r < |cs| && w.requests[r].pc == Resolving
    ensures LookedUp(cs, w, r).requests[r].pc == Answered(Conflict) <==> Stuck(cs, w, a)
  {
    LookupFinds(cs, w, a, r);
    LoadAnswers(cs, Do(cs, w, Act(r, Lookup(true))), a, r);
  }

  /** The request has been answered, and nothing it started is running its course. */
  predicate Over(q: Request) {
    q.pc.Answered? && (q.run.Some? ==> q.run.value.coordinator == F.Returned)
  }

  /** Whoever wrote the key is over: nothing is in progress under it. */
  ghost predicate NothingInProgress(cs: Clients, w: World)
    requires Sized(cs, w)
  {
    w.cell.Some? ==> w.author < |cs| && Over(w.requests[w.author])
  }

  /** The sentinel of a request that is over, left by its Release call. */
  predicate LeftReserved(cs: Clients, w: World)
    requires Sized(cs, w)
  {
    w.cell == Some(PENDING) && w.author < |cs| && w.requests[w.author].releaseFailed
  }

  lemma SentinelRefuses(cs: Clients, w: World, r: nat)
    requires ValidClients(cs) && Inv(cs, w) && r < |cs| && w.requests[r].pc == Resolving
    requires w.cell == Some(PENDING)
    ensures LookedUp(cs, w, r).requests[r].pc == Answered(Conflict)
  {
    DoMoves(cs, w, r, Lookup(true));
  }

  lemma AbsentKeyAdmits(cs: Clients, w: World, r: nat)
    requires ValidClients(cs) && Inv(cs, w) && r < |cs| && w.requests[r].pc == Resolving
    requires w.cell == None
    ensures LookedUp(cs, w, r).requests[r].pc == Admitted
  {
    DoMoves(cs, w, r, Lookup(true));
  }

  lemma OverNamesFinishedRun(cs: Clients, w: World)
    requires ValidClients(cs) && Inv(cs, w) && NothingInProgress(cs, w)
    requires w.cell.Some? && w.cell.value != PENDING
    ensures NamesFinishedRun(cs, w, w.author)
  {
  }

  /** With nothing in progress, a request that lost Reserve is answered 409 exactly in two
      cases: the key was left reserved by a failing Release, or it is stuck on a record that
      was left streaming. */
  lemma WrongConflictIsExact(cs: Clients, steps: seq<Step>, r: nat)
    requires ValidClients(cs) && Run(cs, steps).Some?
    requires NothingInProgress(cs, Run(cs, steps).value)
    requires r < |cs| && Run(cs, steps).value.requests[r].pc == Resolving
    ensures var w := Run(cs, steps).value;
            LookedUp(cs, w, r).requests[r].pc == Answered(Conflict) <==>
              LeftReserved(cs, w) || Stuck(cs, w, w.author)
  {
    RunInv(cs, steps);
    var w := Run(cs, steps).value;
    if w.cell == None {
      AbsentKeyAdmits(cs, w, r);
    } else if w.cell == Some(PENDING) {
      SentinelRefuses(cs, w, r);
    } else {
      OverNamesFinishedRun(cs, w);
      LookupThenLoad(cs, w, w.author, r);
    }
  }

  // ---- how a run comes to be stuck ----

  predicate IsAppliedSave(step: Step, a: nat) {
    && step.Act? && step.r == a && step.move.RunStep?
    && step.move.fs.SaveTerminal? && step.move.fs.applied
  }

  /** The terminal save of request `a` took effect. */
  predicate TerminalSaveApplied(steps: seq<Step>, a: nat) {
    exists k :: 0 <= k < |steps| && IsAppliedSave(steps[k], a)
  }

  lemma AppliedAppend(steps: seq<Step>, step: Step, a: nat)
    ensures TerminalSaveApplied(steps + [step], a) <==> TerminalSaveApplied(steps, a) || IsAppliedSave(step, a)
  {
    var longer := steps + [step];
    assert longer[|steps|] == step;
    if TerminalSaveApplied(steps, a) {
      var k :| 0 <= k < |steps| && IsAppliedSave(steps[k], a);
      assert longer[k] == steps[k];
    }
  }

  lemma FanoutHistory(cfg: F.Config, s: F.State, fs: F.Step)
    requires cfg.Valid() && FP.Inv(cfg, s) && F.Enabled(cfg, s, fs)
    ensures var h, h' := s.history, F.Do(cfg, s, fs).history;
            if fs.SaveTerminal? && fs.applied then |h| == 1 && |h'| == 2 else h' == h
  {
  }

  /** How long the request's record history is, given whether its save took effect. */
  predicate HistoryTells(q: Request, applied: bool) {
    if q.run.Some? then |q.run.value.history| == (if applied then 2 else 1) else !applied
  }

  lemma HistoryTellsStep(c: Client, w: World, q: Request, move: Move, applied: bool)
    requires c.cfg.Prepared() && RunOk(c, q) && FlowOk(q) && HistoryTells(q, applied)
    requires q.run.Some? ==> F.Shaped(c.cfg, q.run.value)
    requires MoveEnabled(c, q, move)
    ensures HistoryTells(NewRequest(c, w, q, move),
                         applied || (move.RunStep? && move.fs.SaveTerminal? && move.fs.applied))
  {
    MoveKeepsStart(c, w, q, move);
    if move.RunStep? {
      FanoutHistory(c.cfg, q.run.value, move.fs);
    }
  }

  lemma {:induction false} RunHistoryTells(cs: Clients, steps: seq<Step>, a: nat)
    requires ValidClients(cs) && Run(cs, steps).Some? && a < |cs|
    ensures HistoryTells(Run(cs, steps).value.requests[a], TerminalSaveApplied(steps, a))
  {
    if steps == [] {
    } else {
      var before, last := steps[..|steps| - 1], steps[|steps| - 1];
      assert steps == before + [last];
      RunHistoryTells(cs, before, a);
      RunInv(cs, before);
      AppliedAppend(before, last, a);
      if last.Act? {
        var w := Run(cs, before).value;
        DoMoves(cs, w, last.r, last.move);
        if last.r == a {
          HistoryTellsStep(cs[a], w, w.requests[a], last.move, TerminalSaveApplied(before, a));
        }
      }
    }
  }

  /** Over every run of the protocol: a key that names a finished run is stuck if and only if
      that run's terminal save never took effect. */
  lemma StuckExactly(cs: Clients, steps: seq<Step>, a: nat)
    requires ValidClients(cs) && Run(cs, steps).Some?
    requires NamesFinishedRun(cs, Run(cs, steps).value, a)
    ensures Stuck(cs, Run(cs, steps).value, a) <==> !TerminalSaveApplied(steps, a)
  {
    RunHistoryTells(cs, steps, a);
  }

  // ---- no fault, no stuck key ----

  /** A started run that is past its terminal save with nothing saved has met a fault. */
  predicate UnsavedNeedsFault(q: Request, faults: nat) {
    q.run.Some? && PastUnsaved(q.run.value) ==> faults > 0
  }

  predicate PastUnsaved(s: F.State) {
    && (s.coordinator.SendingFinal? || s.coordinator == F.Returning || s.coordinator == F.Returned)
    && s.delivered != []
    && |s.history| == 1
  }

  lemma PastUnsavedStep(cfg: F.Config, s: F.State, fs: F.Step)
    requires cfg.Valid() && FP.Inv(cfg, s) && F.Enabled(cfg, s, fs) && PastUnsaved(F.Do(cfg, s, fs))
    ensures PastUnsaved(s) || (fs.SaveTerminal? && !fs.ok)
  {
  }

  lemma UnsavedNeedsFaultStep(c: Client, w: World, q: Request, move: Move)
    requires c.cfg.Prepared() && RunOk(c, q) && FlowOk(q) && UnsavedNeedsFault(q, w.faults)
    requires q.run.Some? ==> F.Shaped(c.cfg, q.run.value)
    requires MoveEnabled(c, q, move)
    ensures UnsavedNeedsFault(NewRequest(c, w, q, move), w.faults + Failures(c, move))
  {
    if move.RunStep? && PastUnsaved(F.Do(c.cfg, q.run.value, move.fs)) {
      PastUnsavedStep(c.cfg, q.run.value, move.fs);
    }
  }

  lemma {:induction false} RunUnsavedNeedsFault(cs: Clients, steps: seq<Step>, a: nat)
    requires ValidClients(cs) && Run(cs, steps).Some? && a < |cs|
    ensures UnsavedNeedsFault(Run(cs, steps).value.requests[a], Run(cs, steps).value.faults)
  {
    if steps == [] {
    } else {
      var before, last := steps[..|steps| - 1], steps[|steps| - 1];
      RunUnsavedNeedsFault(cs, before, a);
      RunInv(cs, before);
      if last.Act? {
        var w := Run(cs, before).value;
        DoMoves(cs, w, last.r, last.move);
        if last.r == a {
          UnsavedNeedsFaultStep(cs[a], w, w.requests[a], last.move);
        }
      }
    }
  }

  /** Without a failing store or repository call no key is ever stuck. */
  lemma NoFaultNoStuckKey(cs: Clients, steps: seq<Step>, a: nat)
    requires ValidClients(cs) && Run(cs, steps).Some? && Run(cs, steps).value.faults == 0
    ensures !Stuck(cs, Run(cs, steps).value, a)
  {
    var w := Run(cs, steps).value;
    RunInv(cs, steps);
    if Stuck(cs, w, a) {
      NamedRow(cs, w, a);
      RunUnsavedNeedsFault(cs, steps, a);
    }
  }

  lemma {:induction false} FailedReleaseIsAFault(cs: Clients, steps: seq<Step>, a: nat)
    requires ValidClients(cs) && Run(cs, steps).Some? && a < |cs|
    ensures Run(cs, steps).value.requests[a].releaseFailed ==> Run(cs, steps).value.faults > 0
  {
    if steps == [] {
    } else {
      var before, last := steps[..|steps| - 1], steps[|steps| - 1];
      FailedReleaseIsAFault(cs, before, a);
      RunInv(cs, before);
      if last.Act? {
        var w := Run(cs, before).value;
        DoMoves(cs, w, last.r, last.move);
        ReleaseFailsByMove(cs[last.r], w, w.requests[last.r], last.move);
      }
    }
  }

  lemma ReleaseFailsByMove(c: Client, w: World, q: Request, move: Move)
    requires c.cfg.Prepared() && FlowOk(q)
    requires q.run.Some? ==> F.Shaped(c.cfg, q.run.value)
    requires MoveEnabled(c, q, move)
    ensures NewRequest(c, w, q, move).releaseFailed ==> q.releaseFailed || Failures(c, move) > 0
  {
  }

  /** Without a failing store or repository call, 409 always means that something is in
      progress. */
  lemma NoFaultNoWrongConflict(cs: Clients, steps: seq<Step>, r: nat)
    requires ValidClients(cs) && Run(cs, steps).Some? && Run(cs, steps).value.faults == 0
    requires NothingInProgress(cs, Run(cs, steps).value)
    requires r < |cs| && Run(cs, steps).value.requests[r].pc == Resolving
    ensures LookedUp(cs, Run(cs, steps).value, r).requests[r].pc != Answered(Conflict)
  {
    var w := Run(cs, steps).value;
    WrongConflictIsExact(cs, steps, r);
    NoFaultNoStuckKey(cs, steps, w.author);
    if w.author < |cs| {
      FailedReleaseIsAFault(cs, steps, w.author);
    }
  }

  // ---- and with one it does happen ----

  /** Execute refuses the winner, its Release call does not arrive, and a request that comes
      after it is over is answered 409. */
  lemma LeftReservedRefuses(cs: Clients, a: nat, r: nat) returns (steps: seq<Step>)
    requires ValidClients(cs) && a < |cs| && r < |cs| && r != a
    ensures Run(cs, steps).Some?
    ensures var w := Run(cs, steps).value;
            && w.requests[r].pc == Answered(Conflict)
            && LeftReserved(cs, w) && w.author == a && Over(w.requests[a])
            && w.requests[a].pc == Answered(Rejected) && w.requests[a].run == None
  {
    var left := LeavesReserved(cs, a);
    var s1 := Advance(cs, left, r, Reserve(true, true));
    steps := Advance(cs, s1, r, Lookup(true));
  }

  lemma LeavesReserved(cs: Clients, a: nat) returns (steps: seq<Step>)
    requires ValidClients(cs) && a < |cs|
    ensures Run(cs, steps).Some?
    ensures var w := Run(cs, steps).value;
            && LeftReserved(cs, w) && w.author == a
            && w.requests[a].pc == Answered(Rejected) && w.requests[a].run == None
            && forall i :: 0 <= i < |cs| && i != a ==> w.requests[i] == NEW_REQUEST
  {
    var s1 := Advance(cs, [], a, Reserve(true, true));
    var s2 := Advance(cs, s1, a, Execute(false, false));
    steps := Advance(cs, s2, a, Release(false, false));
  }

  /** Request `a` has mapped the key and is streaming; its context is done, nothing terminal
      is stored yet, and everybody else has still to arrive. */
  ghost predicate Draining(cs: Clients, w: World, a: nat)
    requires Sized(cs, w)
  {
    && a < |cs|
    && w.cell == Some(Id(cs, a))
    && w.requests[a].pc == InStream && w.requests[a].saved && w.requests[a].run.Some?
    && w.requests[a].run.value.canceled
    && w.requests[a].run.value.consumer == F.Receptive
    && |w.requests[a].run.value.history| == 1
    && forall i :: 0 <= i < |cs| && i != a ==> w.requests[i] == NEW_REQUEST
  }

  lemma UnaidedStepDrains(cfg: F.Config, s: F.State, fs: F.Step)
    requires F.Shaped(cfg, s) && F.Enabled(cfg, s, fs) && FT.Unaided(fs)
    requires fs.SaveTerminal? ==> !fs.applied
    ensures var s' := F.Do(cfg, s, fs);
            s'.canceled == s.canceled && s'.consumer == s.consumer && s'.history == s.history
  {
  }

  /** The goroutines run out by themselves, the terminal save failing. */
  lemma {:induction false} Drain(cs: Clients, steps: seq<Step>, a: nat) returns (all: seq<Step>)
    requires ValidClients(cs) && Run(cs, steps).Some? && Draining(cs, Run(cs, steps).value, a)
    ensures Run(cs, all).Some? && Draining(cs, Run(cs, all).value, a)
    ensures Run(cs, all).value.requests[a].run.value.coordinator == F.Returned
    decreases FT.Work(Run(cs, steps).value.requests[a].run.value)
  {
    RunInv(cs, steps);
    var w := Run(cs, steps).value;
    var cfg, s := cs[a].cfg, w.requests[a].run.value;
    assert RunOk(cs[a], w.requests[a]);
    if FT.Quiescent(s) {
      all := steps;
    } else {
      var fs := FT.Progress(cfg, s, false, false);
      UnaidedStepDrains(cfg, s, fs);
      FT.WorkDrops(cfg, s, fs);
      var longer := Advance(cs, steps, a, RunStep(fs));
      all := Drain(cs, longer, a);
    }
  }

  /** Reserve and Execute. */
  lemma Starts(cs: Clients, a: nat) returns (steps: seq<Step>)
    requires ValidClients(cs) && a < |cs| && cs[a].flushable && AcceptableInput(cs[a].cfg.input)
    ensures Run(cs, steps).Some?
    ensures var w := Run(cs, steps).value;
            && w.requests[a].pc == InStream && !w.requests[a].headerWritten
            && w.requests[a].run == Some(F.Init(cs[a].cfg))
            && forall i :: 0 <= i < |cs| && i != a ==> w.requests[i] == NEW_REQUEST
  {
    var s1 := Advance(cs, [], a, Reserve(true, true));
    steps := Advance(cs, s1, a, Execute(true, true));
  }

  /** And generation_started received. */
  lemma StreamStarts(cs: Clients, a: nat) returns (steps: seq<Step>)
    requires ValidClients(cs) && a < |cs| && cs[a].flushable && AcceptableInput(cs[a].cfg.input)
    ensures Run(cs, steps).Some?
    ensures var w := Run(cs, steps).value;
            && w.requests[a].pc == InStream && HasEvent(w.requests[a]) && !w.requests[a].headerWritten
            && |w.requests[a].run.value.history| == 1 && !w.requests[a].run.value.canceled
            && forall i :: 0 <= i < |cs| && i != a ==> w.requests[i] == NEW_REQUEST
  {
    var before := Starts(cs, a);
    steps := Advance(cs, before, a, RunStep(F.DeliverOwn));
  }

  /** The mapping saved, the first frame written, and then the client gone. */
  lemma ClientLeaves(cs: Clients, before: seq<Step>, a: nat) returns (steps: seq<Step>)
    requires ValidClients(cs) && Run(cs, before).Some? && a < |cs|
    requires var w := Run(cs, before).value;
             && w.requests[a].pc == InStream && HasEvent(w.requests[a]) && !w.requests[a].headerWritten
             && |w.requests[a].run.value.history| == 1 && !w.requests[a].run.value.canceled
             && forall i :: 0 <= i < |cs| && i != a ==> w.requests[i] == NEW_REQUEST
    ensures Run(cs, steps).Some? && Draining(cs, Run(cs, steps).value, a)
  {
    RunInv(cs, before);
    FirstEventNamesGeneration(cs[a], Run(cs, before).value.requests[a]);
    var s1 := Advance(cs, before, a, SaveMapping(true, true));
    var s2 := Advance(cs, s1, a, WriteFrame(true));
    steps := Advance(cs, s2, a, RunStep(F.Cancel));
  }

  lemma HandlerReturns(cs: Clients, before: seq<Step>, a: nat) returns (steps: seq<Step>)
    requires ValidClients(cs) && Run(cs, before).Some? && Draining(cs, Run(cs, before).value, a)
    requires Run(cs, before).value.requests[a].run.value.coordinator == F.Returned
    ensures Run(cs, steps).Some? && Stuck(cs, Run(cs, steps).value, a)
    ensures Run(cs, steps).value.requests[a].pc == Answered(Streamed)
    ensures forall i :: 0 <= i < |cs| && i != a ==> Run(cs, steps).value.requests[i] == NEW_REQUEST
  {
    steps := Advance(cs, before, a, Return);
  }

  /** Any acceptable request can end so: its client leaves, its terminal save fails, and the
      key it answered under is stuck. */
  lemma StuckIsReached(cs: Clients, a: nat) returns (steps: seq<Step>)
    requires ValidClients(cs) && a < |cs| && cs[a].flushable && AcceptableInput(cs[a].cfg.input)
    ensures Run(cs, steps).Some? && Stuck(cs, Run(cs, steps).value, a)
    ensures Run(cs, steps).value.requests[a].pc == Answered(Streamed)
    ensures forall i :: 0 <= i < |cs| && i != a ==> Run(cs, steps).value.requests[i] == NEW_REQUEST
  {
    var started := StreamStarts(cs, a);
    var left := ClientLeaves(cs, started, a);
    var drained := Drain(cs, left, a);
    steps := HandlerReturns(cs, drained, a);
  }

  /** And then the next request with the key is answered 409, nothing being in progress. */
  lemma StuckKeyRefuses(cs: Clients, a: nat, r: nat) returns (steps: seq<Step>)
    requires ValidClients(cs) && a < |cs| && cs[a].flushable && AcceptableInput(cs[a].cfg.input)
    requires r < |cs| && r != a
    ensures Run(cs, steps).Some? && Run(cs, steps).value.requests[r].pc == Answered(Conflict)
    ensures NamesFinishedRun(cs, Run(cs, steps).value, a)
    ensures Run(cs, steps).value.requests[a].pc == Answered(Streamed)
  {
    var stuck := StuckIsReached(cs, a);
    var s1 := LosesReserve(cs, stuck, a, r);
    var s2 := LooksUpStuckKey(cs, s1, a, r);
    steps := LoadsStuckRecord(cs, s2, a, r);
  }

  lemma LooksUpStuckKey(cs: Clients, before: seq<Step>, a: nat, r: nat) returns (steps: seq<Step>)
    requires ValidClients(cs) && Run(cs, before).Some? && Stuck(cs, Run(cs, before).value, a)
    requires r < |cs| && r != a && Run(cs, before).value.requests[r].pc == Resolving
    ensures Run(cs, steps).Some? && Stuck(cs, Run(cs, steps).value, a)
    ensures var pc := Run(cs, steps).value.requests[r].pc; pc.LoadingPrior? && pc.id == Id(cs, a)
    ensures Run(cs, steps).value.requests[a] == Run(cs, before).value.requests[a]
  {
    RunInv(cs, before);
    LookupFinds(cs, Run(cs, before).value, a, r);
    steps := Advance(cs, before, r, Lookup(true));
  }

  lemma LosesReserve(cs: Clients, before: seq<Step>, a: nat, r: nat) returns (steps: seq<Step>)
    requires ValidClients(cs) && Run(cs, before).Some? && Stuck(cs, Run(cs, before).value, a)
    requires r < |cs| && r != a && Run(cs, before).value.requests[r] == NEW_REQUEST
    ensures Run(cs, steps).Some? && Stuck(cs, Run(cs, steps).value, a)
    ensures Run(cs, steps).value.requests[r].pc == Resolving
    ensures Run(cs, steps).value.requests[a] == Run(cs, before).value.requests[a]
  {
    steps := Advance(cs, before, r, Reserve(true, true));
    OthersMoved(cs, Run(cs, before).value, Run(cs, steps).value, a, r);
  }

  lemma LoadsStuckRecord(cs: Clients, before: seq<Step>, a: nat, r: nat) returns (steps: seq<Step>)
    requires ValidClients(cs) && Run(cs, before).Some? && Stuck(cs, Run(cs, before).value, a)
    requires r < |cs| && r != a
    requires var pc := Run(cs, before).value.requests[r].pc; pc.LoadingPrior? && pc.id == Id(cs, a)
    ensures Run(cs, steps).Some? && NamesFinishedRun(cs, Run(cs, steps).value, a)
    ensures Run(cs, steps).value.requests[r].pc == Answered(Conflict)
    ensures Run(cs, steps).value.requests[a] == Run(cs, before).value.requests[a]
  {
    RunInv(cs, before);
    LoadAnswers(cs, Run(cs, before).value, a, r);
    steps := Advance(cs, before, r, Load(true));
    OthersMoved(cs, Run(cs, before).value, Run(cs, steps).value, a, r);
  }

  /** Nothing but expiry, a Release or another request's mapping ends it. */
  lemma StuckStays(cs: Clients, w: World, a: nat, step: Step)
    requires ValidClients(cs) && Inv(cs, w) && Stuck(cs, w, a) && Enabled(cs, w, step)
    requires step.Act? && !step.move.Release? && !step.move.SaveMapping?
    ensures Sized(cs, Do(cs, w, step)) && Stuck(cs, Do(cs, w, step), a)
  {
    DoKeepsSize(cs, w, step);
    DoMoves(cs, w, step.r, step.move);
    assert RunOk(cs[a], w.requests[a]);
    MoveKeepsStart(cs[step.r], w, w.requests[step.r], step.move);
    if step.r == a && step.move.RunStep? {
      FT.ReturnedIsStable(cs[a].cfg, w.requests[a].run.value, step.move.fs);
    }
  }
}
