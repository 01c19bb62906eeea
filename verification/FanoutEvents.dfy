/** What the delivered events say, field by field: which ones are set, what they carry, and
    how a run ends for the client. */
module FanoutEvents {
  import opened Wrappers
  import opened Domain
  import opened Providers
  import opened Fanout
  import FP = FanoutProofs
  import FT = FanoutTheorems

  // ---------- the recorded error ----------

  /** The error is the one strategy i failed with. */
  predicate NamesFailure(cfg: Config, s: State, i: nat, e: Error)
    requires i < cfg.Count() == |s.workers|
  {
    var p := s.workers[i].producer;
    && e.StreamFailed? && e.strategy == cfg.input.strategies[i]
    && if p.pc == Unopened then cfg.OpenError(i) == Some(e.cause)
       else p.sent != [] && p.sent[|p.sent| - 1] == ChunkError(e.cause)
  }

  ghost predicate CauseNamed(cfg: Config, s: State)
    requires Shaped(cfg, s)
  {
    s.firstErr.Some? ==> exists i :: 0 <= i < cfg.Count() && NamesFailure(cfg, s, i, s.firstErr.value)
  }

  lemma NamedFailureStays(cfg: Config, s: State, i: nat, ws: WorkerStep, e: Error)
    requires Shaped(cfg, s) && i < cfg.Count() && WorkerEnabled(cfg, s, i, ws) && FT.Linked(s.workers[i])
    ensures NamesFailure(cfg, s, i, e) ==> NamesFailure(cfg, WorkerDo(cfg, s, i, ws), i, e)
    ensures Recorded(cfg, i, s.workers[i], ws) == Some(e) ==> NamesFailure(cfg, WorkerDo(cfg, s, i, ws), i, e)
  {
  }

  lemma CauseNamedWorker(cfg: Config, s: State, i: nat, ws: WorkerStep)
    requires Shaped(cfg, s) && i < cfg.Count() && WorkerEnabled(cfg, s, i, ws) && FT.Linked(s.workers[i])
    requires CauseNamed(cfg, s)
    ensures CauseNamed(cfg, WorkerDo(cfg, s, i, ws))
  {
    var s' := WorkerDo(cfg, s, i, ws);
    if s.firstErr.Some? {
      var j :| 0 <= j < cfg.Count() && NamesFailure(cfg, s, j, s.firstErr.value);
      NamedFailureStays(cfg, s, i, ws, s.firstErr.value);
      assert NamesFailure(cfg, s', j, s'.firstErr.value);
    } else if s'.firstErr.Some? {
      NamedFailureStays(cfg, s, i, ws, s'.firstErr.value);
      assert NamesFailure(cfg, s', i, s'.firstErr.value);
    }
  }

  lemma CauseNamedStep(cfg: Config, s: State, step: Step)
    requires cfg.Valid() && FP.Inv(cfg, s) && CauseNamed(cfg, s) && Enabled(cfg, s, step)
    ensures CauseNamed(cfg, Do(cfg, s, step))
  {
    match step
    case OfWorker(i, ws) =>
      FT.AreLinked(cfg, s, i);
      CauseNamedWorker(cfg, s, i, ws);
    case _ => CauseNamedOther(cfg, s, step);
  }

  lemma CauseNamedOther(cfg: Config, s: State, step: Step)
    requires Shaped(cfg, s) && CauseNamed(cfg, s) && Enabled(cfg, s, step) && !step.OfWorker?
    ensures CauseNamed(cfg, Do(cfg, s, step))
  {
    var s' := Do(cfg, s, step);
    assert forall i :: 0 <= i < cfg.Count() ==> s'.workers[i].producer == s.workers[i].producer;
    if s.firstErr.Some? {
      var j :| 0 <= j < cfg.Count() && NamesFailure(cfg, s, j, s.firstErr.value);
      assert NamesFailure(cfg, s', j, s'.firstErr.value);
    }
  }

  /** In every run the recorded error is a strategy's own: it names the strategy and what that
      strategy failed with. Once recorded it is never replaced. */
  lemma {:induction false} RecordedErrorIsACause(cfg: Config, steps: seq<Step>)
    requires cfg.Valid() && Run(cfg, steps).Some?
    ensures CauseNamed(cfg, Run(cfg, steps).value)
  {
    if steps == [] {
    } else {
      var before := steps[..|steps| - 1];
      RecordedErrorIsACause(cfg, before);
      FP.RunInv(cfg, before);
      CauseNamedStep(cfg, Run(cfg, before).value, steps[|steps| - 1]);
    }
  }

  lemma FirstErrorStays(cfg: Config, s: State, step: Step)
    requires Shaped(cfg, s) && Enabled(cfg, s, step) && s.firstErr.Some?
    ensures Do(cfg, s, step).firstErr == s.firstErr
  {
  }

  // ---------- the events of one strategy ----------

  /** The event says what the chunk says. */
  predicate SaysChunk(e: Event, s: Strategy, c: Chunk) {
    && e.strategy == s && e.generation == None
    && match c
       case Token(d) => e.kind == TokenEvent && e.delta == d && e.variation == None && e.err == None
       case VariationDone(v) =>
         e.kind == VariationCompleted && e.delta == "" && e.variation == Some(v) && e.err == None
       case ChunkError(x) => e.kind == ErrorEvent && e.delta == "" && e.variation == None && e.err == Some(x)
  }

  predicate SaysStarted(e: Event, s: Strategy) {
    && e.kind == VariationStarted && e.strategy == s && e.delta == ""
    && e.variation == None && e.generation == None && e.err == None
  }

  /** The strategy could not even be opened. */
  predicate SaysRefused(e: Event, s: Strategy, x: Error) {
    && e.kind == ErrorEvent && e.strategy == s && e.delta == ""
    && e.variation == None && e.generation == None && e.err == Some(x)
  }

  /** A refusal to open is on its way, or delivered, exactly as it was given. */
  predicate RefusalInv(cfg: Config, i: nat, w: Worker)
    requires i < cfg.Count()
  {
    && (w.pc.SendingOpenError? ==> cfg.OpenError(i) == Some(w.pc.err))
    && (w.producer.sent == [] && |w.log| == 2 ==>
          w.producer.pc == Unopened && cfg.OpenError(i).Some? &&
          SaysRefused(w.log[1], cfg.input.strategies[i], cfg.OpenError(i).value))
  }

  lemma RefusalInvMove(cfg: Config, s: State, i: nat, ws: WorkerStep)
    requires cfg.Valid() && FP.Inv(cfg, s) && i < cfg.Count() && WorkerEnabled(cfg, s, i, ws)
    requires RefusalInv(cfg, i, s.workers[i])
    ensures RefusalInv(cfg, i, WorkerMove(cfg, i, s.workers[i], ws))
  {
    assert FP.WorkerInv(cfg, i, s.workers[i], s.variations[i], s.firstErr.Some?, s.canceled);
  }

  lemma {:induction false} RunRefusalInv(cfg: Config, steps: seq<Step>, i: nat)
    requires cfg.Valid() && Run(cfg, steps).Some? && i < cfg.Count()
    ensures RefusalInv(cfg, i, Run(cfg, steps).value.workers[i])
  {
    if steps == [] {
    } else {
      var before, last := steps[..|steps| - 1], steps[|steps| - 1];
      RunRefusalInv(cfg, before, i);
      FP.RunInv(cfg, before);
      var s := Run(cfg, before).value;
      if last.OfWorker? && last.i == i {
        RefusalInvMove(cfg, s, i, last.ws);
      } else {
        OthersLeaveLog(cfg, s, last, i);
      }
    }
  }

  lemma OthersLeaveLog(cfg: Config, s: State, step: Step, i: nat)
    requires cfg.Valid() && FP.Inv(cfg, s) && i < cfg.Count() && Enabled(cfg, s, step)
    requires !(step.OfWorker? && step.i == i)
    ensures var w, w' := s.workers[i], Do(cfg, s, step).workers[i];
            w'.producer == w.producer && w'.log == w.log && (w'.pc == w.pc || w'.pc == Announcing)
  {
  }

  /** The client's view of one strategy, event by event: first that it started, then what each
      chunk of its provider said, in the provider's order; or, when the provider refused to
      open, that refusal. */
  lemma StrategyEventsSayTheChunks(cfg: Config, steps: seq<Step>, i: nat, k: nat)
    requires cfg.Valid() && Run(cfg, steps).Some? && i < cfg.Count()
    requires k < |FP.About(Run(cfg, steps).value.delivered, cfg.input.strategies[i])|
    ensures var s, st := Run(cfg, steps).value, cfg.input.strategies[i];
            var e, p := FP.About(s.delivered, st)[k], s.workers[i].producer;
            if k == 0 then SaysStarted(e, st)
            else if p.pc == Unopened then k == 1 && cfg.OpenError(i).Some? && SaysRefused(e, st, cfg.OpenError(i).value)
            else k - 1 < |p.sent| && SaysChunk(e, st, p.sent[k - 1])
  {
    FP.RunInv(cfg, steps);
    RunRefusalInv(cfg, steps, i);
    StateEventsSayTheChunks(cfg, Run(cfg, steps).value, i, k);
  }

  lemma AnnouncedSaysTheChunks(st: Strategy, sent: seq<Chunk>, k: nat)
    requires k <= |sent|
    ensures var e := FP.Announced(st, sent)[k];
            if k == 0 then SaysStarted(e, st) else SaysChunk(e, st, sent[k - 1])
  {
  }

  lemma LogForm(cfg: Config, s: State, i: nat)
    requires cfg.Valid() && FP.Inv(cfg, s) && i < cfg.Count()
    ensures var w, st := s.workers[i], cfg.input.strategies[i];
            && FP.About(s.delivered, st) == w.log
            && (w.producer.pc == Unopened ==> w.producer.sent == [])
            && (|| w.log == [] || w.log == FP.Announced(st, w.producer.sent)
                || (w.producer.sent != [] && w.log == FP.Announced(st, w.producer.sent[..|w.producer.sent| - 1]))
                || (w.producer.sent == [] && |w.log| == 2 && w.log[0] == AnnounceEvent(st)))
  {
    assert FP.WorkerInv(cfg, i, s.workers[i], s.variations[i], s.firstErr.Some?, s.canceled);
  }

  lemma StateEventsSayTheChunks(cfg: Config, s: State, i: nat, k: nat)
    requires cfg.Valid() && FP.Inv(cfg, s) && i < cfg.Count() && RefusalInv(cfg, i, s.workers[i])
    requires k < |FP.About(s.delivered, cfg.input.strategies[i])|
    ensures var st := cfg.input.strategies[i];
            var e, p := FP.About(s.delivered, st)[k], s.workers[i].producer;
            if k == 0 then SaysStarted(e, st)
            else if p.pc == Unopened then k == 1 && cfg.OpenError(i).Some? && SaysRefused(e, st, cfg.OpenError(i).value)
            else k - 1 < |p.sent| && SaysChunk(e, st, p.sent[k - 1])
  {
    var w, st := s.workers[i], cfg.input.strategies[i];
    var sent := w.producer.sent;
    LogForm(cfg, s, i);
    if w.log == FP.Announced(st, sent) {
      AnnouncedSaysTheChunks(st, sent, k);
    } else if sent != [] {
      AnnouncedSaysTheChunks(st, sent[..|sent| - 1], k);
    }
  }

  // ---------- the first event ----------

  /** Every run opens with the generation it is about to stream. */
  lemma FirstEvent(cfg: Config, steps: seq<Step>)
    requires cfg.Valid() && Run(cfg, steps).Some? && Run(cfg, steps).value.delivered != []
    ensures var e := Run(cfg, steps).value.delivered[0];
            && e.kind == GenerationStarted && e.strategy == "" && e.delta == ""
            && e.variation == None && e.generation == Some(cfg.generation) && e.err == None
  {
    FT.EventOrder(cfg, steps);
  }

  // ---------- the last event ----------

  /** The caller of the terminal save was told that it succeeded. */
  predicate SaveReported(steps: seq<Step>) {
    exists k :: 0 <= k < |steps| && steps[k].SaveTerminal? && steps[k].ok
  }

  lemma SaveReportedAppend(steps: seq<Step>, step: Step)
    ensures SaveReported(steps + [step]) <==> SaveReported(steps) || (step.SaveTerminal? && step.ok)
  {
    var longer := steps + [step];
    assert longer[|steps|] == step;
    if SaveReported(steps) {
      var k :| 0 <= k < |steps| && steps[k].SaveTerminal? && steps[k].ok;
      assert longer[k] == steps[k];
    }
  }

  /** What a run failed of. */
  function Cause(s: State): Error {
    if s.firstErr.Some? then s.firstErr.value else Canceled
  }

  /** The event says how the generation ended: that it could not be saved, or that it is done
      and what it is, or that it failed, and of what. */
  predicate SaysOutcome(e: Event, g: Generation, reported: bool, cause: Error) {
    && e.strategy == "" && e.delta == "" && e.variation == None
    && if !reported then e.kind == ErrorEvent && e.generation == None && e.err == Some(SaveFailed)
       else if g.status == Completed then e.kind == Done && e.generation == Some(g) && e.err == None
       else e.kind == ErrorEvent && e.generation == Some(g) && e.err == Some(cause)
  }

  /** Where the run stands with its last event. */
  predicate EndSoFar(s: State, decided: Option<Generation>, reported: bool) {
    && (decided.Some? && decided.value.status != Completed && !s.canceled ==> s.firstErr.Some?)
    && match s.coordinator
       case Saving(gen, err) =>
         && !reported && decided == Some(gen)
         && err == if gen.status == Completed then None else Some(Cause(s))
       case SendingFinal(ev) => decided.Some? && SaysOutcome(ev, decided.value, reported, Cause(s))
       case Returning => Ended(s, decided, reported)
       case Returned => Ended(s, decided, reported)
       case _ => !reported && decided == None
  }

  predicate Ended(s: State, decided: Option<Generation>, reported: bool) {
    s.delivered != [] ==>
      && decided.Some?
      && var last := s.delivered[|s.delivered| - 1];
         if last.strategy == "" && |s.delivered| > 1 then SaysOutcome(last, decided.value, reported, Cause(s))
         else s.canceled
  }

  lemma FinishedRecordsNothing(cfg: Config, s: State, step: Step)
    requires Shaped(cfg, s) && AllFinished(s) && Enabled(cfg, s, step)
    ensures Do(cfg, s, step).firstErr == s.firstErr
    ensures step.OfWorker? ==> Do(cfg, s, step).delivered == s.delivered
  {
  }

  lemma EndSoFarLate(cfg: Config, s: State, step: Step, decided: Option<Generation>, reported: bool)
    requires cfg.Valid() && FP.Inv(cfg, s) && Enabled(cfg, s, step) && EndSoFar(s, decided, reported)
    requires s.coordinator.Saving? || s.coordinator.SendingFinal?
    ensures EndSoFar(Do(cfg, s, step), decided, reported || (step.SaveTerminal? && step.ok))
  {
    FinishedRecordsNothing(cfg, s, step);
  }

  lemma EndSoFarOver(cfg: Config, s: State, step: Step, decided: Option<Generation>, reported: bool)
    requires cfg.Valid() && FP.Inv(cfg, s) && Enabled(cfg, s, step) && EndSoFar(s, decided, reported)
    requires s.coordinator == Returning || s.coordinator == Returned
    ensures EndSoFar(Do(cfg, s, step), decided, reported || (step.SaveTerminal? && step.ok))
  {
    if s.delivered != [] {
      FinishedRecordsNothing(cfg, s, step);
    } else {
      NothingStarted(cfg, s, step);
    }
  }

  lemma NothingStarted(cfg: Config, s: State, step: Step)
    requires Shaped(cfg, s) && FP.Unstarted(s) && FP.WorkersInv(cfg, s) && Enabled(cfg, s, step)
    requires s.coordinator == Returning || s.coordinator == Returned
    ensures var s' := Do(cfg, s, step); s'.delivered == s.delivered && s'.firstErr == s.firstErr
  {
    if step.OfWorker? {
      assert FP.WorkerInv(cfg, step.i, s.workers[step.i], s.variations[step.i], s.firstErr.Some?, s.canceled);
    }
  }

  lemma EndSoFarEarly(cfg: Config, s: State, step: Step, decided: Option<Generation>, reported: bool)
    requires cfg.Valid() && FP.Inv(cfg, s) && Enabled(cfg, s, step) && EndSoFar(s, decided, reported)
    requires s.coordinator == Starting || s.coordinator.Spawning? || s.coordinator == Waiting
    ensures EndSoFar(Do(cfg, s, step),
                     if step.Decide? then Some(Outcome(cfg, s).0) else decided,
                     reported || (step.SaveTerminal? && step.ok))
  {
  }

  lemma EndSoFarStep(cfg: Config, s: State, step: Step, decided: Option<Generation>, reported: bool)
    requires cfg.Valid() && FP.Inv(cfg, s) && Enabled(cfg, s, step) && EndSoFar(s, decided, reported)
    ensures EndSoFar(Do(cfg, s, step),
                     if step.Decide? then Some(Outcome(cfg, s).0) else decided,
                     reported || (step.SaveTerminal? && step.ok))
  {
    if s.coordinator.Saving? || s.coordinator.SendingFinal? {
      EndSoFarLate(cfg, s, step, decided, reported);
    } else if s.coordinator == Returning || s.coordinator == Returned {
      EndSoFarOver(cfg, s, step, decided, reported);
    } else {
      EndSoFarEarly(cfg, s, step, decided, reported);
    }
  }

  lemma DecidedAppend(cfg: Config, before: seq<Step>, last: Step)
    requires |cfg.upstreams| == cfg.Count() && Run(cfg, before).Some?
    ensures FT.Decided(cfg, before + [last]) ==
              if last.Decide? then Some(Outcome(cfg, Run(cfg, before).value).0) else FT.Decided(cfg, before)
  {
    assert (before + [last])[..|before|] == before;
  }

  lemma {:induction false} RunEndSoFar(cfg: Config, steps: seq<Step>)
    requires cfg.Valid() && Run(cfg, steps).Some?
    ensures EndSoFar(Run(cfg, steps).value, FT.Decided(cfg, steps), SaveReported(steps))
  {
    if steps == [] {
    } else {
      var before, last := steps[..|steps| - 1], steps[|steps| - 1];
      RunEndSoFar(cfg, before);
      FP.RunInv(cfg, before);
      assert steps == before + [last];
      SaveReportedAppend(before, last);
      DecidedAppend(cfg, before, last);
      EndSoFarStep(cfg, Run(cfg, before).value, last, FT.Decided(cfg, before), SaveReported(before));
    }
  }

  lemma ReportedIsSaved(steps: seq<Step>, cfg: Config)
    requires |cfg.upstreams| == cfg.Count() && Run(cfg, steps).Some? && SaveReported(steps)
    ensures FT.SavedTerminally(steps)
  {
    var k :| 0 <= k < |steps| && steps[k].SaveTerminal? && steps[k].ok;
    ReportedStep(cfg, steps, k);
  }

  lemma {:induction false} ReportedStep(cfg: Config, steps: seq<Step>, k: nat)
    requires |cfg.upstreams| == cfg.Count() && Run(cfg, steps).Some?
    requires k < |steps| && steps[k].SaveTerminal? && steps[k].ok
    ensures steps[k].applied
  {
    if k == |steps| - 1 {
    } else {
      ReportedStep(cfg, steps[..|steps| - 1], k);
    }
  }

  lemma NotCanceledInTime(cfg: Config, steps: seq<Step>)
    requires cfg.Valid() && Run(cfg, steps).Some? && !Run(cfg, steps).value.canceled
    ensures !FT.CanceledInTime(cfg, steps)
  {
    if FT.CanceledInTime(cfg, steps) {
      var k :| 0 <= k < |steps| && steps[k].Cancel? && FT.Decided(cfg, steps[..k]).None?;
      FT.CanceledInTimeFails(cfg, steps, k);
    }
  }

  /** How a run that was not cancelled ends for the client, always. The last event is about the
      generation as a whole. It is `done`, carrying the stored record with its variations, if
      and only if every strategy succeeded and the terminal save reported success. If the save
      succeeded and a strategy failed, it is an error carrying the failed record and the
      recorded cause. If the save errored, it is an error without a generation. */
  lemma LastEvent(cfg: Config, steps: seq<Step>)
    requires cfg.Valid() && Run(cfg, steps).Some?
    requires Run(cfg, steps).value.closes == 1 && !Run(cfg, steps).value.canceled
    ensures var s := Run(cfg, steps).value;
            && |s.delivered| >= 2 && s.history != []
            && var last, stored := s.delivered[|s.delivered| - 1], s.history[|s.history| - 1];
            && last.strategy == "" && last.delta == "" && last.variation == None
            && (last.kind == Done <==> SaveReported(steps) && !FT.SomeFailed(cfg, s))
            && (last.kind == Done ==>
                  last.generation == Some(stored) && stored.status == Completed && last.err == None)
            && (last.kind != Done ==> last.kind == ErrorEvent)
            && (SaveReported(steps) && FT.SomeFailed(cfg, s) ==>
                  && last.generation == Some(stored) && stored.status == Failed && stored.variations == []
                  && s.firstErr.Some? && last.err == s.firstErr)
            && (!SaveReported(steps) ==> last.generation == None && last.err == Some(SaveFailed))
  {
    FP.RunInv(cfg, steps);
    RunEndSoFar(cfg, steps);
    FT.RecordLifecycle(cfg, steps);
    var s := Run(cfg, steps).value;
    assert s.delivered != [];
    NotCanceledInTime(cfg, steps);
    FT.DecidedFailed(cfg, steps);
    if SaveReported(steps) {
      ReportedIsSaved(steps, cfg);
    }
  }

  lemma TaggedHaveStrategies(cfg: Config, d: seq<Event>, k: nat)
    requires cfg.Valid() && FP.Begun(cfg, d) && 1 <= k < |d|
    ensures d[k].strategy != ""
  {
    assert FP.IsTagged(cfg, d[k]);
    var i :| 0 <= i < cfg.Count() && cfg.input.strategies[i] == d[k].strategy;
  }

  lemma UntaggedIsLast(cfg: Config, s: State, k: nat)
    requires cfg.Valid() && FP.Ordered(cfg, s) && 1 <= k < |s.delivered| && s.delivered[k].strategy == ""
    ensures k == |s.delivered| - 1 && !FP.Begun(cfg, s.delivered)
  {
    var d := s.delivered;
    if FP.Begun(cfg, d) {
      TaggedHaveStrategies(cfg, d, k);
    } else if k < |d| - 1 {
      TaggedHaveStrategies(cfg, d[..|d| - 1], k);
    }
  }

  lemma UntaggedMeansOver(cfg: Config, s: State)
    requires Shaped(cfg, s) && FP.CoordinatorInv(cfg, s) && s.delivered != [] && !FP.Begun(cfg, s.delivered)
    ensures s.coordinator == Returning || s.coordinator == Returned
  {
  }

  lemma OverSaysOutcome(s: State, decided: Option<Generation>, reported: bool, k: nat)
    requires EndSoFar(s, decided, reported) && (s.coordinator == Returning || s.coordinator == Returned)
    requires k == |s.delivered| - 1 && k >= 1 && s.delivered[k].strategy == ""
    ensures decided.Some? && SaysOutcome(s.delivered[k], decided.value, reported, Cause(s))
  {
  }

  lemma UntaggedIsLastAndOver(cfg: Config, s: State, k: nat)
    requires cfg.Valid() && FP.Inv(cfg, s) && 1 <= k < |s.delivered| && s.delivered[k].strategy == ""
    ensures k == |s.delivered| - 1 && (s.coordinator == Returning || s.coordinator == Returned)
  {
    FT.DeliveredIsOrdered(cfg, s);
    UntaggedIsLast(cfg, s, k);
    UntaggedMeansOver(cfg, s);
  }

  /** Cancelled or not, an event about the generation as a whole, after the first, is the last
      one and says how the generation ended. */
  lemma AggregateEventSaysOutcome(cfg: Config, steps: seq<Step>, k: nat)
    requires cfg.Valid() && Run(cfg, steps).Some?
    requires 1 <= k < |Run(cfg, steps).value.delivered| && Run(cfg, steps).value.delivered[k].strategy == ""
    ensures var s := Run(cfg, steps).value;
            && k == |s.delivered| - 1
            && FT.Decided(cfg, steps).Some?
            && SaysOutcome(s.delivered[k], FT.Decided(cfg, steps).value, SaveReported(steps), Cause(s))
  {
    FP.RunInv(cfg, steps);
    RunEndSoFar(cfg, steps);
    UntaggedIsLastAndOver(cfg, Run(cfg, steps).value, k);
    OverSaysOutcome(Run(cfg, steps).value, FT.Decided(cfg, steps), SaveReported(steps), k);
  }
}
