/** The promises of `GenerateVariations`, over every interleaving. */
module FanoutTheorems {
  import opened Wrappers
  import opened Domain
  import opened Providers
  import opened Fanout
  import opened FanoutProofs

  // ---- completed means complete ----

  /** What the provider of strategy `i` ended its channel with. */
  function Terminated(w: Worker): Option<Chunk> {
    var sent := w.producer.sent;
    if sent != [] && !sent[|sent| - 1].Token? then Some(sent[|sent| - 1]) else None
  }

  /** The record says of strategy `i` what its provider and its goroutine did. */
  ghost predicate FaithfulAt(cfg: Config, s: State, vs: seq<Variation>, i: nat)
    requires cfg.Valid() && Shaped(cfg, s) && i < cfg.Count()
  {
    && |vs| == cfg.Count()
    && Terminated(s.workers[i]) == Some(VariationDone(vs[i]))
    && vs[i].strategy == cfg.Strategy(i)
    && ValidVariation(vs[i])
    && About(s.delivered, cfg.Strategy(i)) == Announced(cfg.Strategy(i), s.workers[i].producer.sent)
  }

  lemma CompletedStrategy(cfg: Config, s: State, i: nat)
    requires cfg.Valid() && Inv(cfg, s) && i < cfg.Count()
    requires Succeeded(cfg.Strategy(i), s.workers[i], s.variations[i])
    ensures FaithfulAt(cfg, s, s.variations, i)
  {
    assert WorkerInv(cfg, i, s.workers[i], s.variations[i], s.firstErr.Some?, s.canceled);
  }

  lemma CompletedRecord(cfg: Config, s: State, k: nat)
    requires cfg.Valid() && Inv(cfg, s) && k < |s.history| && s.history[k].status == Completed
    ensures k == 1 && |s.history| == 2 && s.history[k].variations == s.variations
    ensures forall i :: 0 <= i < cfg.Count() ==> Succeeded(cfg.Strategy(i), s.workers[i], s.variations[i])
  {
  }

  /** Every record ever written as `completed` holds, for each requested strategy and in
      requested order, the valid variation that strategy's provider terminated with,
      whatever order the goroutines finished in; and every event about it was delivered. */
  lemma CompletedIsFaithful(cfg: Config, steps: seq<Step>, k: nat)
    requires cfg.Valid() && Run(cfg, steps).Some?
    requires k < |Run(cfg, steps).value.history| && Run(cfg, steps).value.history[k].status == Completed
    ensures var s := Run(cfg, steps).value;
            forall i :: 0 <= i < cfg.Count() ==> FaithfulAt(cfg, s, s.history[k].variations, i)
  {
    RunInv(cfg, steps);
    var s := Run(cfg, steps).value;
    CompletedRecord(cfg, s, k);
    forall i | 0 <= i < cfg.Count()
      ensures FaithfulAt(cfg, s, s.history[k].variations, i)
    {
      CompletedStrategy(cfg, s, i);
    }
  }

  /** A goroutine that reported an error. */
  predicate Errored(w: Worker) {
    || (w.producer.pc == Unopened && w.pc != Unspawned && w.pc != Announcing && w.pc != Opening)
    || (w.producer.sent != [] && w.producer.sent[|w.producer.sent| - 1].ChunkError?)
  }

  ghost predicate ErrorsHaveCause(s: State) {
    s.firstErr.Some? ==> exists i :: 0 <= i < |s.workers| && Errored(s.workers[i])
  }

  /** The links between the two program counters that the rest of this file needs. */
  predicate Linked(w: Worker) {
    && (w.pc == Unspawned || w.pc == Announcing || w.pc == Opening ==> w.producer.pc == Unopened)
    && (w.pc.Handling? ==> w.producer.sent != [] && w.pc.chunk == w.producer.sent[|w.producer.sent| - 1])
    && (w.producer.pc == Unopened || w.producer.pc == Reading || w.producer.pc.Offering? ==> AllTokens(w.producer.sent))
    && (w.producer.pc == Unopened ==> w.pc != Receiving && !w.pc.Handling? && !w.pc.Sending?)
  }

  lemma AreLinked(cfg: Config, s: State, i: nat)
    requires cfg.Valid() && Inv(cfg, s) && i < cfg.Count()
    ensures Linked(s.workers[i])
  {
    assert WorkerInv(cfg, i, s.workers[i], s.variations[i], s.firstErr.Some?, s.canceled);
  }

  lemma ErroredIsStable(cfg: Config, s: State, i: nat, ws: WorkerStep)
    requires Shaped(cfg, s) && i < cfg.Count() && WorkerEnabled(cfg, s, i, ws) && Linked(s.workers[i])
    ensures var w' := WorkerMove(cfg, i, s.workers[i], ws);
            && (Errored(s.workers[i]) ==> Errored(w'))
            && (Recorded(cfg, i, s.workers[i], ws).Some? ==> Errored(w'))
  {
  }

  lemma ErrorsHaveCauseWorker(cfg: Config, s: State, i: nat, ws: WorkerStep)
    requires Shaped(cfg, s) && i < cfg.Count() && WorkerEnabled(cfg, s, i, ws)
    requires Linked(s.workers[i]) && ErrorsHaveCause(s)
    ensures ErrorsHaveCause(WorkerDo(cfg, s, i, ws))
  {
    ErroredIsStable(cfg, s, i, ws);
    var s' := WorkerDo(cfg, s, i, ws);
    if s.firstErr.Some? {
      var j :| 0 <= j < |s.workers| && Errored(s.workers[j]);
      assert Errored(s'.workers[j]);
    } else if s'.firstErr.Some? {
      assert Errored(s'.workers[i]);
    }
  }

  lemma ErrorsHaveCauseSpawn(s: State)
    requires s.coordinator.Spawning? && ErrorsHaveCause(s)
    requires forall i :: s.coordinator.next <= i < |s.workers| ==> s.workers[i].pc == Unspawned
    requires forall i :: 0 <= i < |s.workers| ==> Linked(s.workers[i])
    ensures ErrorsHaveCause(SpawnNext(s))
  {
    if s.firstErr.Some? {
      var j :| 0 <= j < |s.workers| && Errored(s.workers[j]);
      assert Errored(SpawnNext(s).workers[j]);
    }
  }

  lemma ErrorsHaveCauseStep(cfg: Config, s: State, step: Step)
    requires cfg.Valid() && Inv(cfg, s) && ErrorsHaveCause(s) && Enabled(cfg, s, step)
    ensures ErrorsHaveCause(Do(cfg, s, step))
  {
    match step
    case OfWorker(i, ws) =>
      AreLinked(cfg, s, i);
      ErrorsHaveCauseWorker(cfg, s, i, ws);
    case Spawn =>
      forall i | 0 <= i < |s.workers| ensures Linked(s.workers[i]) { AreLinked(cfg, s, i); }
      ErrorsHaveCauseSpawn(s);
    case _ =>
      assert Do(cfg, s, step).workers == s.workers && Do(cfg, s, step).firstErr == s.firstErr;
  }

  lemma {:induction false} RunErrorsHaveCause(cfg: Config, steps: seq<Step>)
    requires cfg.Valid() && Run(cfg, steps).Some?
    ensures ErrorsHaveCause(Run(cfg, steps).value)
  {
    if steps == [] {
    } else {
      var before := steps[..|steps| - 1];
      RunErrorsHaveCause(cfg, before);
      RunInv(cfg, before);
      ErrorsHaveCauseStep(cfg, Run(cfg, before).value, steps[|steps| - 1]);
    }
  }

  /** The status the switch picks, exactly: `completed` if and only if the context was not
      cancelled by then and every strategy delivered its variation; otherwise `failed`,
      with no variations, even when no goroutine recorded an error. */
  lemma DecisionIsExact(cfg: Config, steps: seq<Step>)
    requires cfg.Valid() && Run(cfg, steps).Some?
    requires Enabled(cfg, Run(cfg, steps).value, Decide)
    ensures var s := Run(cfg, steps).value;
            var gen := Outcome(cfg, s).0;
            && (gen.status == Completed <==>
                  && !s.canceled
                  && forall i :: 0 <= i < cfg.Count() ==> Succeeded(cfg.Strategy(i), s.workers[i], s.variations[i]))
            && (gen.status != Completed ==> gen == FailedRecord(cfg) && gen.variations == [] && Outcome(cfg, s).1.Some?)
  {
    RunInv(cfg, steps);
    RunErrorsHaveCause(cfg, steps);
    var s := Run(cfg, steps).value;
    DecideIsTruthful(cfg, s);
    if s.firstErr.Some? {
      var i :| 0 <= i < |s.workers| && Errored(s.workers[i]);
      assert !Succeeded(cfg.Strategy(i), s.workers[i], s.variations[i]);
    }
  }

  // ---- the order of events ----

  /** A prefix of: variation_started, tokens, then variation_completed or an error. */
  predicate StrategyShape(s: Strategy, log: seq<Event>) {
    log != [] ==>
      && log[0] == AnnounceEvent(s)
      && (forall k :: 1 <= k < |log| - 1 ==> log[k].kind == TokenEvent)
      && (|log| > 1 ==>
            var last := log[|log| - 1].kind;
            last == TokenEvent || last == VariationCompleted || last == ErrorEvent)
  }

  lemma AnnouncedShape(s: Strategy, sent: seq<Chunk>, id: string, unmarshal: Unmarshal)
    requires AllTokens(sent) || Ended(sent, s, id, unmarshal)
    ensures StrategyShape(s, Announced(s, sent))
    ensures StrategyShape(s, Announced(s, Front(sent)))
    ensures sent != [] && sent[|sent| - 1].VariationDone? ==>
              var log := Announced(s, sent); log[|log| - 1].kind == VariationCompleted
  {
  }

  lemma WorkerLogShape(cfg: Config, i: nat, w: Worker, slot: Variation, failed: bool, canceled: bool)
    requires cfg.Valid() && i < cfg.Count() && WorkerInv(cfg, i, w, slot, failed, canceled)
    ensures StrategyShape(cfg.Strategy(i), w.log)
  {
    var s, p, id := cfg.Strategy(i), w.producer, cfg.upstreams[i].variationId;
    AnnouncedShape(s, p.sent, id, cfg.unmarshal);
  }

  lemma OrderedShape(cfg: Config, s: State, k: nat)
    requires Ordered(cfg, s) && 1 <= k < |s.delivered|
    ensures s.delivered[0] == StartedEvent(cfg.generation)
    ensures IsTagged(cfg, s.delivered[k]) || (IsAggregate(s.delivered[k]) && k == |s.delivered| - 1)
  {
    var d := s.delivered;
    if !Begun(cfg, d) {
      assert d[..|d| - 1][0] == d[0];
      assert k < |d| - 1 ==> d[..|d| - 1][k] == d[k];
    }
  }

  lemma DeliveredIsOrdered(cfg: Config, s: State)
    requires Shaped(cfg, s) && CoordinatorInv(cfg, s) && s.delivered != []
    ensures Ordered(cfg, s)
  {
  }

  /** Every delivered sequence is generation_started, then a shuffle of well-shaped
      per-strategy sequences, then at most one aggregate event, which is last. */
  lemma EventOrder(cfg: Config, steps: seq<Step>)
    requires cfg.Valid() && Run(cfg, steps).Some?
    ensures var d := Run(cfg, steps).value.delivered;
            && (d != [] ==> d[0] == StartedEvent(cfg.generation))
            && (forall k :: 1 <= k < |d| ==> IsTagged(cfg, d[k]) || (IsAggregate(d[k]) && k == |d| - 1))
            && (forall i :: 0 <= i < cfg.Count() ==> StrategyShape(cfg.Strategy(i), About(d, cfg.Strategy(i))))
  {
    RunInv(cfg, steps);
    var s := Run(cfg, steps).value;
    StateEventOrder(cfg, s);
  }

  lemma StateEventOrder(cfg: Config, s: State)
    requires cfg.Valid() && Inv(cfg, s)
    ensures var d := s.delivered;
            && (d != [] ==> d[0] == StartedEvent(cfg.generation))
            && (forall k :: 1 <= k < |d| ==> IsTagged(cfg, d[k]) || (IsAggregate(d[k]) && k == |d| - 1))
            && (forall i :: 0 <= i < cfg.Count() ==> StrategyShape(cfg.Strategy(i), About(d, cfg.Strategy(i))))
  {
    forall i | 0 <= i < cfg.Count()
      ensures StrategyShape(cfg.Strategy(i), About(s.delivered, cfg.Strategy(i)))
    {
      WorkerLogShape(cfg, i, s.workers[i], s.variations[i], s.firstErr.Some?, s.canceled);
    }
    if s.delivered != [] {
      DeliveredIsOrdered(cfg, s);
      forall k | 1 <= k < |s.delivered|
        ensures IsTagged(cfg, s.delivered[k]) || (IsAggregate(s.delivered[k]) && k == |s.delivered| - 1)
      {
        OrderedShape(cfg, s, k);
      }
    }
  }

  lemma DoneWasSaved(cfg: Config, s: State, k: nat)
    requires cfg.Valid() && Inv(cfg, s) && k < |s.delivered| && s.delivered[k].kind == Done
    ensures k == |s.delivered| - 1
    ensures |s.history| == 2 && s.history[1].status == Completed && Truthful(cfg, s, s.history[1])
    ensures s.delivered[k] == DoneEvent(s.history[1])
  {
    var d := s.delivered;
    assert forall j :: 0 <= j < |d| - 1 ==> d[..|d| - 1][j] == d[j];
  }

  lemma SucceededLogEnds(cfg: Config, s: State, i: nat)
    requires Shaped(cfg, s) && LogsAgree(cfg, s) && i < cfg.Count()
    requires Succeeded(cfg.Strategy(i), s.workers[i], s.variations[i])
    ensures EndsWith(About(s.delivered, cfg.Strategy(i)), CompletedEvent(cfg.Strategy(i), s.variations[i]))
  {
  }

  predicate EndsWith(log: seq<Event>, e: Event) {
    log != [] && log[|log| - 1] == e
  }

  /** `done` is delivered only after the completed record was written, it carries that very
      record, and by then every strategy's sequence had ended in variation_completed. */
  lemma DoneIsEarned(cfg: Config, steps: seq<Step>, k: nat)
    requires cfg.Valid() && Run(cfg, steps).Some?
    requires k < |Run(cfg, steps).value.delivered| && Run(cfg, steps).value.delivered[k].kind == Done
    ensures var s := Run(cfg, steps).value;
            && k == |s.delivered| - 1
            && |s.history| == 2
            && s.delivered[k].generation == Some(s.history[1])
            && s.history[1].status == Completed
            && |s.history[1].variations| == cfg.Count()
            && forall i :: 0 <= i < cfg.Count() ==>
                 EndsWith(About(s.delivered, cfg.Strategy(i)),
                          CompletedEvent(cfg.Strategy(i), s.history[1].variations[i]))
  {
    RunInv(cfg, steps);
    var s := Run(cfg, steps).value;
    DoneWasSaved(cfg, s, k);
    CompletedRecord(cfg, s, 1);
    forall i | 0 <= i < cfg.Count()
      ensures EndsWith(About(s.delivered, cfg.Strategy(i)), CompletedEvent(cfg.Strategy(i), s.variations[i]))
    {
      SucceededLogEnds(cfg, s, i);
    }
  }

  // ---- tokens are conserved through both channels ----

  function DeltaText(events: seq<Event>): string {
    if events == [] then ""
    else DeltaText(events[..|events| - 1]) + events[|events| - 1].delta
  }

  lemma DeltaTextAppend(events: seq<Event>, e: Event)
    ensures DeltaText(events + [e]) == DeltaText(events) + e.delta
  {
    assert (events + [e])[..|events|] == events;
  }

  lemma {:induction false} DeltaTextOfAnnounced(s: Strategy, chunks: seq<Chunk>)
    ensures DeltaText(Announced(s, chunks)) == Text(chunks)
  {
    if chunks == [] {
      assert Announced(s, chunks) == [] + [AnnounceEvent(s)];
      DeltaTextAppend([], AnnounceEvent(s));
    } else {
      var last := chunks[|chunks| - 1];
      DeltaTextOfAnnounced(s, Front(chunks));
      assert Announced(s, chunks) == Announced(s, Front(chunks)) + [EventOf(s, last)];
      DeltaTextAppend(Announced(s, Front(chunks)), EventOf(s, last));
    }
  }

  /** A variation_completed in a strategy's log is its last event, and the log is whole. */
  lemma CompletedEventIsLast(s: Strategy, log: seq<Event>, sent: seq<Chunk>, v: Variation, id: string,
                             unmarshal: Unmarshal)
    requires AllTokens(sent) || Ended(sent, s, id, unmarshal)
    requires log == [] || log == Announced(s, sent) || log == Announced(s, Front(sent)) ||
             (|log| == 2 && log[0] == AnnounceEvent(s) && log[1].kind == ErrorEvent)
    requires CompletedEvent(s, v) in log
    ensures sent != [] && sent[|sent| - 1] == VariationDone(v) && log == Announced(s, sent)
    ensures Ended(sent, s, id, unmarshal)
  {
    var k :| 0 <= k < |log| && log[k] == CompletedEvent(s, v);
    assert k > 0;
  }

  lemma EndedTextDecodes(s: Strategy, sent: seq<Chunk>, v: Variation, id: string, unmarshal: Unmarshal)
    requires Ended(sent, s, id, unmarshal) && sent[|sent| - 1] == VariationDone(v)
    ensures Decode(s, id, DeltaText(Announced(s, sent)), unmarshal) == Ok(v)
  {
    DeltaTextOfAnnounced(s, sent);
    assert sent == Front(sent) + [sent[|sent| - 1]];
    TextAppend(Front(sent), sent[|sent| - 1]);
    assert Text(Front(sent)) + "" == Text(Front(sent));
  }

  lemma WorkerLogForm(cfg: Config, s: State, i: nat)
    requires cfg.Valid() && Inv(cfg, s) && i < cfg.Count()
    ensures var w, st := s.workers[i], cfg.Strategy(i);
            && About(s.delivered, st) == w.log
            && (AllTokens(w.producer.sent) || Ended(w.producer.sent, st, cfg.upstreams[i].variationId, cfg.unmarshal))
            && (w.log == [] ||
                w.log == Announced(st, w.producer.sent) || w.log == Announced(st, Front(w.producer.sent)) ||
                (|w.log| == 2 && w.log[0] == AnnounceEvent(st) && w.log[1].kind == ErrorEvent))
  {
    assert WorkerInv(cfg, i, s.workers[i], s.variations[i], s.firstErr.Some?, s.canceled);
  }

  /** The text a client has assembled from one strategy's token events when its
      variation_completed arrives is exactly the JSON that decoded to that variation. */
  lemma TokensDecodeToVariation(cfg: Config, steps: seq<Step>, i: nat, v: Variation)
    requires cfg.Valid() && Run(cfg, steps).Some? && i < cfg.Count()
    requires CompletedEvent(cfg.Strategy(i), v) in About(Run(cfg, steps).value.delivered, cfg.Strategy(i))
    ensures Decode(cfg.Strategy(i), cfg.upstreams[i].variationId,
                   DeltaText(About(Run(cfg, steps).value.delivered, cfg.Strategy(i))), cfg.unmarshal) == Ok(v)
  {
    RunInv(cfg, steps);
    var s := Run(cfg, steps).value;
    var w, st, id := s.workers[i], cfg.Strategy(i), cfg.upstreams[i].variationId;
    WorkerLogForm(cfg, s, i);
    CompletedEventIsLast(st, w.log, w.producer.sent, v, id, cfg.unmarshal);
    EndedTextDecodes(st, w.producer.sent, v, id, cfg.unmarshal);
  }

  // ---- the life of the record ----

  /** The record the switch after `wg.Wait` picked, once it has been reached. */
  function Decided(cfg: Config, steps: seq<Step>): Option<Generation>
    requires |cfg.upstreams| == cfg.Count()
  {
    if steps == [] then None
    else
      var before := steps[..|steps| - 1];
      if steps[|steps| - 1].Decide? && Run(cfg, before).Some? then Some(Outcome(cfg, Run(cfg, before).value).0)
      else Decided(cfg, before)
  }

  /** A terminal save took effect, whatever its caller was told. */
  predicate SavedTerminally(steps: seq<Step>) {
    exists k :: 0 <= k < |steps| && steps[k].SaveTerminal? && steps[k].applied
  }

  lemma SavedTerminallyAppend(steps: seq<Step>, step: Step)
    ensures SavedTerminally(steps + [step]) <==> SavedTerminally(steps) || (step.SaveTerminal? && step.applied)
  {
    var longer := steps + [step];
    assert longer[|steps|] == step;
    if SavedTerminally(steps) {
      var k :| 0 <= k < |steps| && steps[k].SaveTerminal? && steps[k].applied;
      assert longer[k] == steps[k];
    }
  }

  /** Where the run stands, in terms of the record: undecided, decided, or saved. */
  ghost predicate RecordSoFar(cfg: Config, s: State, decided: Option<Generation>, saved: bool) {
    && (decided.None? ==> s.terminalSaves == 0 && !s.coordinator.Saving?)
    && (decided.Some? ==> s.delivered != [] && (s.coordinator.Saving? <==> s.terminalSaves == 0))
    && (decided.Some? && s.coordinator.Saving? ==> s.coordinator.gen == decided.value)
    && (decided.None? || s.coordinator.Saving? ==> !saved)
    && (s.coordinator == Returned && s.delivered != [] ==> decided.Some?)
    && (s.coordinator == Returning && s.delivered != [] ==> decided.Some?)
    && (s.coordinator.SendingFinal? ==> decided.Some?)
    && s.history == [cfg.generation] + (if saved && decided.Some? then [decided.value] else [])
  }

  lemma RecordSoFarStep(cfg: Config, s: State, step: Step, decided: Option<Generation>, saved: bool)
    requires cfg.Valid() && Inv(cfg, s) && Enabled(cfg, s, step) && RecordSoFar(cfg, s, decided, saved)
    ensures RecordSoFar(cfg, Do(cfg, s, step),
                        if step.Decide? then Some(Outcome(cfg, s).0) else decided,
                        saved || (step.SaveTerminal? && step.applied))
  {
  }

  lemma {:induction false} RunRecord(cfg: Config, steps: seq<Step>)
    requires cfg.Valid() && Run(cfg, steps).Some?
    ensures RecordSoFar(cfg, Run(cfg, steps).value, Decided(cfg, steps), SavedTerminally(steps))
  {
    if steps == [] {
    } else {
      var before, last := steps[..|steps| - 1], steps[|steps| - 1];
      RunRecord(cfg, before);
      RunInv(cfg, before);
      assert steps == before + [last];
      SavedTerminallyAppend(before, last);
      RecordSoFarStep(cfg, Run(cfg, before).value, last, Decided(cfg, before), SavedTerminally(before));
    }
  }

  /** Over every run, what the table was told of this generation is the streaming record and
      then, if and only if a terminal save took effect, the record that was decided on.
      Identity, source, profile and creation time never change. By the time the channel is
      closed a decision was made, and its save attempted once, if and only if
      generation_started was delivered. */
  lemma RecordLifecycle(cfg: Config, steps: seq<Step>)
    requires cfg.Valid() && Run(cfg, steps).Some?
    ensures var s, decided := Run(cfg, steps).value, Decided(cfg, steps);
            && (SavedTerminally(steps) ==> decided.Some?)
            && s.history == [cfg.generation] + (if SavedTerminally(steps) then [decided.value] else [])
            && (decided.Some? ==>
                  && decided.value ==
                       cfg.generation.(status := decided.value.status, variations := decided.value.variations)
                  && (decided.value.status == Completed || decided.value == FailedRecord(cfg)))
            && |s.history| - 1 <= s.terminalSaves <= 1
            && s.closes <= 1
            && (s.closes == 1 ==>
                  (decided.Some? <==> s.delivered != []) && (s.terminalSaves == 1 <==> s.delivered != []))
  {
    RunInv(cfg, steps);
    RunRecord(cfg, steps);
    if Decided(cfg, steps).Some? {
      DecidedIsTerminal(cfg, steps);
    }
  }

  lemma {:induction false} DecidedIsTerminal(cfg: Config, steps: seq<Step>)
    requires cfg.Valid() && Run(cfg, steps).Some? && Decided(cfg, steps).Some?
    ensures var g := Decided(cfg, steps).value;
            && g == cfg.generation.(status := g.status, variations := g.variations)
            && (g.status == Completed || g == FailedRecord(cfg))
  {
    var before := steps[..|steps| - 1];
    if !steps[|steps| - 1].Decide? {
      DecidedIsTerminal(cfg, before);
    }
  }

  /** The context was done before the switch looked. */
  ghost predicate CanceledInTime(cfg: Config, steps: seq<Step>)
    requires cfg.Valid() && Run(cfg, steps).Some?
  {
    exists k :: 0 <= k < |steps| && steps[k].Cancel? && Decided(cfg, steps[..k]).None?
  }

  lemma {:induction false} CanceledInTimeFails(cfg: Config, steps: seq<Step>, k: nat)
    requires cfg.Valid() && Run(cfg, steps).Some?
    requires k < |steps| && steps[k].Cancel? && Decided(cfg, steps[..k]).None?
    ensures Run(cfg, steps).value.canceled
    ensures Decided(cfg, steps).Some? ==> Decided(cfg, steps).value == FailedRecord(cfg)
  {
    var n := |steps| - 1;
    if k < n {
      assert steps[..n][..k] == steps[..k];
      CanceledInTimeFails(cfg, steps[..n], k);
    }
  }

  lemma {:induction false} UndecidedBefore(cfg: Config, steps: seq<Step>, k: nat)
    requires |cfg.upstreams| == cfg.Count() && k <= |steps| && Decided(cfg, steps).None?
    requires Run(cfg, steps).Some?
    ensures Decided(cfg, steps[..k]).None?
  {
    var n := |steps| - 1;
    if k == |steps| {
      assert steps[..k] == steps;
    } else {
      UndecidedBefore(cfg, steps[..n], k);
      assert steps[..n][..k] == steps[..k];
    }
  }

  lemma {:induction false} CanceledByAStep(cfg: Config, steps: seq<Step>) returns (k: nat)
    requires cfg.Valid() && Run(cfg, steps).Some? && Run(cfg, steps).value.canceled
    ensures k < |steps| && steps[k].Cancel?
  {
    var n := |steps| - 1;
    if steps[n].Cancel? {
      k := n;
    } else {
      k := CanceledByAStep(cfg, steps[..n]);
    }
  }

  /** Nothing of any strategy can move any more. */
  predicate AtRest(s: State) {
    forall i :: 0 <= i < |s.workers| ==>
      && s.workers[i].pc == Finished
      && (s.workers[i].producer.pc == Closed || s.workers[i].producer.pc == Unopened)
  }

  lemma NoWorkerMoves(cfg: Config, s: State, i: nat, ws: WorkerStep)
    requires Shaped(cfg, s) && AtRest(s) && i < cfg.Count()
    ensures !WorkerEnabled(cfg, s, i, ws)
  {
  }

  lemma NoneLeftToSpawn(cfg: Config, s: State)
    requires Shaped(cfg, s) && CoordinatorInv(cfg, s) && AtRest(s) && s.coordinator.Spawning?
    ensures SpawnNext(s).workers == s.workers && SpawnNext(s).variations == s.variations
  {
  }

  lemma AtRestStays(cfg: Config, s: State, step: Step)
    requires Shaped(cfg, s) && CoordinatorInv(cfg, s) && AtRest(s) && Enabled(cfg, s, step)
    ensures var s' := Do(cfg, s, step); AtRest(s') && s'.workers == s.workers && s'.variations == s.variations
  {
    match step
    case OfWorker(i, ws) => NoWorkerMoves(cfg, s, i, ws);
    case Spawn => NoneLeftToSpawn(cfg, s);
    case _ =>
  }

  lemma UndisturbedIsAtRest(cfg: Config, s: State)
    requires cfg.Valid() && Inv(cfg, s) && AllFinished(s) && !s.canceled
    ensures AtRest(s)
  {
    forall i | 0 <= i < |s.workers|
      ensures s.workers[i].producer.pc == Closed || s.workers[i].producer.pc == Unopened
    {
      assert WorkerInv(cfg, i, s.workers[i], s.variations[i], s.firstErr.Some?, s.canceled);
    }
  }

  /** Some strategy did not deliver its variation. */
  predicate SomeFailed(cfg: Config, s: State)
    requires Shaped(cfg, s)
  {
    exists i :: 0 <= i < cfg.Count() && !Succeeded(cfg.Strategy(i), s.workers[i], s.variations[i])
  }

  lemma DecideIsFirst(cfg: Config, steps: seq<Step>)
    requires cfg.Valid() && Run(cfg, steps).Some? && Enabled(cfg, Run(cfg, steps).value, Decide)
    ensures Decided(cfg, steps).None?
  {
    RunInv(cfg, steps);
    RunRecord(cfg, steps);
  }

  lemma InTimeStaysInTime(cfg: Config, steps: seq<Step>, k: nat)
    requires cfg.Valid() && Run(cfg, steps).Some? && k < |steps| - 1
    requires steps[..|steps| - 1][k].Cancel? && Decided(cfg, steps[..|steps| - 1][..k]).None?
    ensures CanceledInTime(cfg, steps)
  {
    assert steps[k].Cancel? && steps[..|steps| - 1][..k] == steps[..k];
  }

  /** An uncancelled decision stands: it is `failed` exactly if some strategy failed, and no
      strategy changes after it. */
  lemma {:induction false} DecisionStands(cfg: Config, steps: seq<Step>)
    requires cfg.Valid() && Run(cfg, steps).Some?
    requires Decided(cfg, steps).Some? && !CanceledInTime(cfg, steps)
    ensures var s := Run(cfg, steps).value;
            AtRest(s) && (Decided(cfg, steps).value == FailedRecord(cfg) <==> SomeFailed(cfg, s))
  {
    var n := |steps| - 1;
    var before, last := steps[..n], steps[n];
    RunInv(cfg, before);
    var s := Run(cfg, before).value;
    if last.Decide? {
      DecideIsFirst(cfg, before);
      if s.canceled {
        var k := CanceledByAStep(cfg, before);
        UndecidedBefore(cfg, before, k);
        InTimeStaysInTime(cfg, steps, k);
      }
      UndisturbedIsAtRest(cfg, s);
      DecisionIsExact(cfg, before);
    } else {
      if CanceledInTime(cfg, before) {
        var k :| 0 <= k < |before| && before[k].Cancel? && Decided(cfg, before[..k]).None?;
        InTimeStaysInTime(cfg, steps, k);
      }
      DecisionStands(cfg, before);
      AtRestStays(cfg, s, last);
    }
  }

  lemma DecidedFailed(cfg: Config, steps: seq<Step>)
    requires cfg.Valid() && Run(cfg, steps).Some? && Decided(cfg, steps).Some?
    ensures Decided(cfg, steps).value == FailedRecord(cfg) <==>
              CanceledInTime(cfg, steps) || SomeFailed(cfg, Run(cfg, steps).value)
  {
    if CanceledInTime(cfg, steps) {
      var k :| 0 <= k < |steps| && steps[k].Cancel? && Decided(cfg, steps[..k]).None?;
      CanceledInTimeFails(cfg, steps, k);
    } else {
      DecisionStands(cfg, steps);
    }
  }

  /** The comment on `Execute` promises that a cancelled run is saved as failed, never left
      `streaming` and never marked completed. For every cancelled run that is over: it is saved
      as failed exactly when generation_started had been received, the terminal save took
      effect, and the cancellation came before the decision or some strategy had failed
      anyway. It is left `streaming` exactly when one of the first two is missing. */
  lemma CanceledRunIsSavedAsFailed(cfg: Config, steps: seq<Step>)
    requires cfg.Valid() && Run(cfg, steps).Some?
    requires Run(cfg, steps).value.closes == 1 && Run(cfg, steps).value.canceled
    ensures var s := Run(cfg, steps).value;
            && s.history != []
            && var stored := s.history[|s.history| - 1];
            && (stored == FailedRecord(cfg) <==>
                  && s.delivered != [] && SavedTerminally(steps)
                  && (CanceledInTime(cfg, steps) || SomeFailed(cfg, s)))
            && (stored == cfg.generation <==> s.delivered == [] || !SavedTerminally(steps))
            && (stored.status == Completed <==>
                  && s.delivered != [] && SavedTerminally(steps)
                  && !CanceledInTime(cfg, steps) && !SomeFailed(cfg, s))
  {
    RecordLifecycle(cfg, steps);
    if Decided(cfg, steps).Some? {
      DecidedFailed(cfg, steps);
    }
  }

  /** For every request there is a run that is left `streaming`: the context is done before
      generation_started is received. */
  lemma LeftStreaming(cfg: Config)
    requires cfg.Valid()
    ensures Run(cfg, [Cancel, GiveUpOwn, CloseOut]).Some?
    ensures var s := Run(cfg, [Cancel, GiveUpOwn, CloseOut]).value;
            s.closes == 1 && s.history == [cfg.generation] && s.terminalSaves == 0
  {
    var s0 := Init(cfg);
    assert [Cancel, GiveUpOwn, CloseOut][..2] == [Cancel, GiveUpOwn];
    assert [Cancel, GiveUpOwn][..1] == [Cancel];
    assert [Cancel][..0] == [];
    assert Run(cfg, [Cancel]) == Some(s0.(canceled := true));
    assert Run(cfg, [Cancel, GiveUpOwn]) == Some(s0.(canceled := true, coordinator := Returning));
  }

  /** Once a run has returned, no step changes what is stored. */
  lemma ReturnedIsStable(cfg: Config, s: State, step: Step)
    requires cfg.Valid() && Inv(cfg, s) && Enabled(cfg, s, step) && s.coordinator == Returned
    ensures var s' := Do(cfg, s, step);
            && s'.coordinator == Returned && s'.history == s.history && s'.delivered == s.delivered
            && s'.terminalSaves == s.terminalSaves && s'.closes == s.closes
  {
    if step.OfWorker? {
      assert WorkerInv(cfg, step.i, s.workers[step.i], s.variations[step.i], s.firstErr.Some?, s.canceled);
    }
  }

  // ---- channels ----

  /** The event channel is closed at most once, and when it is closed nobody is, or ever
      again will be, trying to send on it. */
  lemma NoSendAfterClose(cfg: Config, steps: seq<Step>)
    requires cfg.Valid() && Run(cfg, steps).Some? && Run(cfg, steps).value.closes > 0
    ensures var s := Run(cfg, steps).value;
            && s.closes == 1
            && s.coordinator == Returned
            && OwnOutgoing(cfg, s) == None
            && forall i :: 0 <= i < cfg.Count() ==>
                 Outgoing(cfg, i, s.workers[i]) == None && (s.workers[i].pc == Finished || s.workers[i].pc == Unspawned)
  {
    RunInv(cfg, steps);
  }

  // ---- progress ----

  /** Nothing is left running or blocked: coordinator, strategies and providers. */
  predicate Quiescent(s: State) {
    && s.coordinator == Returned
    && forall i :: 0 <= i < |s.workers| ==>
         && (s.workers[i].pc == Finished || s.workers[i].pc == Unspawned)
         && (s.workers[i].producer.pc == Closed || s.workers[i].producer.pc == Unopened)
  }

  /** A step of the service: not the context's, and not the client's coming or going. */
  predicate Internal(step: Step) { !step.Cancel? && !step.Leave? }

  /** A step that nobody outside the service has any part in. */
  predicate Unaided(step: Step) {
    && !step.Cancel? && !step.Leave? && !step.Ready? && !step.DeliverOwn?
    && !(step.OfWorker? && step.ws.Deliver?)
  }

  /** A step that some goroutine takes by itself, or hands to a client that is receiving. */
  predicate ByGoroutine(step: Step) {
    !step.Cancel? && !step.Leave? && !step.Ready?
  }

  lemma SenderProgress(cfg: Config, s: State, own: bool, i: nat) returns (step: Step)
    requires Shaped(cfg, s)
    requires s.canceled || s.consumer == Receptive
    requires if own then OwnOutgoing(cfg, s).Some? else i < cfg.Count() && Outgoing(cfg, i, s.workers[i]).Some?
    ensures Enabled(cfg, s, step) && ByGoroutine(step) && (s.canceled ==> Unaided(step))
  {
    if s.canceled {
      step := if own then GiveUpOwn else OfWorker(i, GiveUp);
    } else {
      step := if own then DeliverOwn else OfWorker(i, WorkerStep.Deliver);
    }
  }

  lemma WorkerProgress(cfg: Config, s: State, i: nat) returns (step: Step)
    requires cfg.Valid() && Inv(cfg, s) && i < cfg.Count()
    requires s.canceled || s.consumer == Receptive
    requires s.workers[i].pc != Unspawned
    requires s.workers[i].pc != Finished || (s.workers[i].producer.pc != Closed && s.workers[i].producer.pc != Unopened)
    ensures Enabled(cfg, s, step) && ByGoroutine(step) && !step.SaveTerminal? && (s.canceled ==> Unaided(step))
  {
    var w := s.workers[i];
    assert WorkerInv(cfg, i, w, s.variations[i], s.firstErr.Some?, s.canceled);
    if Outgoing(cfg, i, w).Some? {
      step := SenderProgress(cfg, s, false, i);
    } else if w.pc == Opening {
      step := OfWorker(i, Open);
    } else if w.pc.Handling? {
      step := OfWorker(i, Handle);
    } else {
      match w.producer.pc
      case Reading => step := OfWorker(i, Read);
      case Offering(_) => step := OfWorker(i, if w.pc == Receiving then Handoff else ProducerGiveUp);
      case Closing => step := OfWorker(i, CloseChunks);
      case Closed => step := OfWorker(i, EndRange);
      case Unopened => assert false;
    }
  }

  /** A step that some goroutine can take now; if it is the terminal save, it may turn out
      either way. */
  lemma Progress(cfg: Config, s: State, ok: bool, applied: bool) returns (step: Step)
    requires cfg.Valid() && Inv(cfg, s) && (ok ==> applied)
    requires (s.canceled || s.consumer == Receptive) && !Quiescent(s)
    ensures Enabled(cfg, s, step) && ByGoroutine(step) && (s.canceled ==> Unaided(step))
    ensures step.SaveTerminal? ==> step == SaveTerminal(ok, applied)
  {
    match s.coordinator
    case Starting => step := SenderProgress(cfg, s, true, 0);
    case SendingFinal(_) => step := SenderProgress(cfg, s, true, 0);
    case Spawning(_) => step := Spawn;
    case Saving(_, _) => step := SaveTerminal(ok, applied);
    case Returning => step := CloseOut;
    case Waiting =>
      if AllFinished(s) {
        step := Decide;
      } else {
        var i: nat :| i < |s.workers| && s.workers[i].pc != Finished;
        step := WorkerProgress(cfg, s, i);
      }
    case Returned =>
      var i: nat :| i < |s.workers| &&
             !(&& (s.workers[i].pc == Finished || s.workers[i].pc == Unspawned)
               && (s.workers[i].producer.pc == Closed || s.workers[i].producer.pc == Unopened));
      assert WorkerInv(cfg, i, s.workers[i], s.variations[i], s.firstErr.Some?, s.canceled);
      step := WorkerProgress(cfg, s, i);
  }

  /** The state once a client that is busy with an event has come back for the next one. */
  function Attended(s: State): State {
    if s.consumer == Busy then s.(consumer := Receptive) else s
  }

  /** No deadlock. While anything is unfinished, some goroutine can move: with the context
      done (the server cancels it when the handler returns), by itself, without anybody
      receiving; otherwise once the client has come back to receive. */
  lemma NoDeadlock(cfg: Config, steps: seq<Step>)
    requires cfg.Valid() && Run(cfg, steps).Some? && !Quiescent(Run(cfg, steps).value)
    ensures var s := Run(cfg, steps).value;
            && (s.canceled ==> exists step :: Unaided(step) && Enabled(cfg, s, step))
            && (s.consumer != Gone ==> exists step :: ByGoroutine(step) && Enabled(cfg, Attended(s), step))
  {
    RunInv(cfg, steps);
    var s := Run(cfg, steps).value;
    if s.canceled {
      var step := Progress(cfg, s, true, true);
    }
    if s.consumer != Gone {
      ConsumerInv(cfg, s, Attended(s).consumer);
      var step := Progress(cfg, Attended(s), true, true);
    }
  }

  // ---- termination ----

  function ProducerWork(p: Producer): nat {
    match p.pc
    case Unopened => 8 * |p.rest| + 20
    case Reading => 8 * |p.rest| + 14
    case Offering(c) => if c.Token? then 8 * |p.rest| + 19 else 8
    case Closing => 1
    case Closed => 0
  }

  function WorkerWork(w: Worker): nat {
    ProducerWork(w.producer) +
    match w.pc
    case Unspawned => 10
    case Announcing => 9
    case Opening => 6
    case SendingOpenError(_) => 3
    case Receiving => 1
    case Handling(_) => 4
    case Sending(_) => 3
    case Finished => 0
  }

  function CoordinatorWork(c: CoordinatorPC, n: nat): nat {
    match c
    case Starting => n + 10
    case Spawning(k) => 7 + (if k <= n then n - k else 0)
    case Waiting => 6
    case Saving(_, _) => 5
    case SendingFinal(_) => 4
    case Returning => 1
    case Returned => 0
  }

  function SumWork(ws: seq<Worker>): nat {
    if ws == [] then 0 else SumWork(ws[..|ws| - 1]) + WorkerWork(ws[|ws| - 1])
  }

  /** The work left: upstream deltas, program counters, and what the client may still do. */
  function Work(s: State): nat {
    SumWork(s.workers) + CoordinatorWork(s.coordinator, |s.workers|)
    + (if s.canceled then 0 else 1)
    + (match s.consumer case Busy => 2 case Receptive => 1 case Gone => 0)
  }

  lemma {:induction false} SumWorkUpdate(ws: seq<Worker>, i: nat, w: Worker)
    requires i < |ws|
    ensures SumWork(ws[i := w]) == SumWork(ws) - WorkerWork(ws[i]) + WorkerWork(w)
  {
    var n := |ws| - 1;
    if i == n {
      assert ws[i := w][..n] == ws[..n];
    } else {
      SumWorkUpdate(ws[..n], i, w);
      assert ws[i := w][..n] == ws[..n][i := w];
    }
  }

  lemma WorkerWorkDrops(cfg: Config, s: State, i: nat, ws: WorkerStep)
    requires Shaped(cfg, s) && i < cfg.Count() && WorkerEnabled(cfg, s, i, ws) && Linked(s.workers[i])
    ensures var w' := WorkerMove(cfg, i, s.workers[i], ws);
            WorkerWork(w') + (if ws.Deliver? then 2 else 1) <= WorkerWork(s.workers[i])
  {
  }

  lemma WorkerStepDropsWork(cfg: Config, s: State, i: nat, ws: WorkerStep)
    requires Shaped(cfg, s) && i < cfg.Count() && WorkerEnabled(cfg, s, i, ws) && Linked(s.workers[i])
    ensures Work(WorkerDo(cfg, s, i, ws)) < Work(s)
  {
    WorkerWorkDrops(cfg, s, i, ws);
    SumWorkUpdate(s.workers, i, WorkerMove(cfg, i, s.workers[i], ws));
  }

  lemma SpawnDropsWork(s: State)
    requires s.coordinator.Spawning? && s.coordinator.next <= |s.workers|
    requires forall i :: s.coordinator.next <= i < |s.workers| ==> s.workers[i].pc == Unspawned
    ensures Work(SpawnNext(s)) < Work(s)
  {
    var k := s.coordinator.next;
    if k < |s.workers| {
      SumWorkUpdate(s.workers, k, s.workers[k].(pc := Announcing));
    }
  }

  lemma OtherStepDropsWork(cfg: Config, s: State, step: Step)
    requires Shaped(cfg, s) && Enabled(cfg, s, step) && !step.OfWorker? && !step.Spawn?
    ensures Work(Do(cfg, s, step)) < Work(s)
  {
    assert Do(cfg, s, step).workers == s.workers;
  }

  /** Every step of every run uses up some of the work. */
  lemma WorkDrops(cfg: Config, s: State, step: Step)
    requires cfg.Valid() && Inv(cfg, s) && Enabled(cfg, s, step)
    ensures Work(Do(cfg, s, step)) < Work(s)
  {
    match step
    case OfWorker(i, ws) =>
      AreLinked(cfg, s, i);
      WorkerStepDropsWork(cfg, s, i, ws);
    case Spawn => SpawnDropsWork(s);
    case _ => OtherStepDropsWork(cfg, s, step);
  }

  /** So every run is finite, with a bound known at the start; with NoDeadlock, every run
      that is not stopped ends with all goroutines finished and the channel closed. */
  lemma {:induction false} RunsAreBounded(cfg: Config, steps: seq<Step>)
    requires cfg.Valid() && Run(cfg, steps).Some?
    ensures |steps| + Work(Run(cfg, steps).value) <= Work(Init(cfg))
  {
    if steps == [] {
    } else {
      var before := steps[..|steps| - 1];
      RunsAreBounded(cfg, before);
      RunInv(cfg, before);
      WorkDrops(cfg, Run(cfg, before).value, steps[|steps| - 1]);
    }
  }

  lemma InternalStepKeepsClient(cfg: Config, s: State, step: Step)
    requires Shaped(cfg, s) && Enabled(cfg, s, step) && Internal(step)
    ensures var s' := Do(cfg, s, step); s'.canceled == s.canceled && (s.consumer != Gone ==> s'.consumer != Gone)
  {
  }

  lemma NextStep(cfg: Config, s: State) returns (step: Step)
    requires cfg.Valid() && Inv(cfg, s)
    requires (s.canceled || s.consumer != Gone) && !Quiescent(s)
    ensures Enabled(cfg, s, step) && Internal(step) && (s.canceled ==> Unaided(step))
  {
    if s.canceled || s.consumer == Receptive {
      step := Progress(cfg, s, true, true);
    } else {
      step := Ready;
    }
  }

  /** Every reachable state can be run to completion: the channel is closed once and nothing
      is left running. With the context done the goroutines do it alone; without, the client
      only has to keep receiving. */
  lemma {:induction false} RunsToCompletion(cfg: Config, steps: seq<Step>) returns (all: seq<Step>)
    requires cfg.Valid() && Run(cfg, steps).Some?
    requires var s := Run(cfg, steps).value; s.canceled || s.consumer != Gone
    ensures steps <= all && Run(cfg, all).Some? && Quiescent(Run(cfg, all).value)
    ensures Run(cfg, all).value.closes == 1
    ensures forall k :: |steps| <= k < |all| ==>
              Internal(all[k]) && (Run(cfg, steps).value.canceled ==> Unaided(all[k]))
    decreases Work(Run(cfg, steps).value)
  {
    RunInv(cfg, steps);
    var s := Run(cfg, steps).value;
    if Quiescent(s) {
      all := steps;
    } else {
      var step := NextStep(cfg, s);
      var longer := steps + [step];
      assert longer[..|steps|] == steps;
      WorkDrops(cfg, s, step);
      InternalStepKeepsClient(cfg, s, step);
      all := RunsToCompletion(cfg, longer);
      assert all[|steps|] == longer[|steps|];
    }
  }
}
