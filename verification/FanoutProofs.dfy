/** What every interleaving of the fan-out keeps. */
module FanoutProofs {
  import opened Wrappers
  import opened Domain
  import opened Providers
  import opened Fanout

  // ---- One worker ----

  ghost predicate ProducerInv(cfg: Config, i: nat, p: Producer, canceled: bool)
    requires i < cfg.Count() == |cfg.upstreams|
  {
    var id := cfg.upstreams[i].variationId;
    match p.pc
    case Unopened => p.sent == [] && p.json == "" && p.rest == cfg.upstreams[i].deltas
    case Reading => AllTokens(p.sent) && p.json == Text(p.sent)
    case Offering(c) =>
      && AllTokens(p.sent)
      && p.json == Text(p.sent) + Delta(c)
      && (c.VariationDone? ==> Decode(cfg.Strategy(i), id, p.json, cfg.unmarshal) == Ok(c.variation))
    case _ => Ended(p.sent, cfg.Strategy(i), id, cfg.unmarshal) || (AllTokens(p.sent) && canceled)
  }

  /** The last chunk received has had its effect on the shared state. */
  predicate Accounted(sent: seq<Chunk>, slot: Variation, failed: bool) {
    sent != [] ==>
      match sent[|sent| - 1]
      case Token(_) => true
      case VariationDone(v) => slot == v
      case ChunkError(_) => failed
  }

  function Announced(s: Strategy, chunks: seq<Chunk>): seq<Event> {
    [AnnounceEvent(s)] + EventsOf(s, chunks)
  }

  function Front<T>(s: seq<T>): seq<T> { if s == [] then [] else s[..|s| - 1] }

  /** The delivered events of a strategy whose goroutine has finished. */
  predicate FinalLog(s: Strategy, log: seq<Event>, sent: seq<Chunk>) {
    || log == []
    || log == Announced(s, sent)
    || log == Announced(s, Front(sent))
    || (sent == [] && |log| == 2 && log[0] == AnnounceEvent(s) &&
        log[1].kind == ErrorEvent && log[1].strategy == s && log[1].err.Some?)
  }

  /** The strategy produced its variation and every event about it was delivered. */
  predicate Succeeded(s: Strategy, w: Worker, slot: Variation) {
    && w.producer.pc == Closed
    && w.producer.sent != []
    && w.producer.sent[|w.producer.sent| - 1] == VariationDone(slot)
    && w.log == Announced(s, w.producer.sent)
  }

  ghost predicate WorkerInv(cfg: Config, i: nat, w: Worker, slot: Variation, failed: bool, canceled: bool)
    requires i < cfg.Count() == |cfg.upstreams|
  {
    var s, p := cfg.Strategy(i), w.producer;
    && ProducerInv(cfg, i, p, canceled)
    && match w.pc
       case Unspawned => p.pc == Unopened && w.log == []
       case Announcing => p.pc == Unopened && w.log == []
       case Opening => p.pc == Unopened && w.log == [AnnounceEvent(s)]
       case SendingOpenError(_) => p.pc == Unopened && w.log == [AnnounceEvent(s)] && failed
       case Receiving => p.pc != Unopened && w.log == Announced(s, p.sent) && Accounted(p.sent, slot, failed)
       case Handling(c) =>
         && p.pc != Unopened && p.sent != [] && c == p.sent[|p.sent| - 1]
         && w.log == Announced(s, Front(p.sent))
       case Sending(ev) =>
         && p.pc != Unopened && p.sent != []
         && ev == EventOf(s, p.sent[|p.sent| - 1])
         && w.log == Announced(s, Front(p.sent))
         && Accounted(p.sent, slot, failed)
       case Finished =>
         && FinalLog(s, w.log, p.sent)
         && (canceled || failed || Succeeded(s, w, slot))
         && (canceled || p.pc == Closed || p.pc == Unopened)
  }

  lemma EventsOfAppend(s: Strategy, chunks: seq<Chunk>)
    requires chunks != []
    ensures EventsOf(s, chunks) == EventsOf(s, Front(chunks)) + [EventOf(s, chunks[|chunks| - 1])]
  {
  }

  /** Cancellation and a recorded error only ever come; a slot changes only by its owner. */
  lemma WorkerInvStable(cfg: Config, i: nat, w: Worker, slot: Variation, failed: bool, canceled: bool,
                        failed': bool, canceled': bool)
    requires i < cfg.Count() == |cfg.upstreams|
    requires WorkerInv(cfg, i, w, slot, failed, canceled)
    requires failed ==> failed'
    requires canceled ==> canceled'
    ensures WorkerInv(cfg, i, w, slot, failed', canceled')
  {
  }

  lemma ReadKeepsProducerInv(cfg: Config, i: nat, p: Producer, canceled: bool)
    requires i < cfg.Count() == |cfg.upstreams|
    requires p.pc == Reading && ProducerInv(cfg, i, p, canceled)
    ensures ProducerInv(cfg, i, ReadNext(cfg, i, p), canceled)
    ensures ReadNext(cfg, i, p).sent == p.sent && ReadNext(cfg, i, p).pc != Unopened
    ensures ReadNext(cfg, i, p).pc == Reading || ReadNext(cfg, i, p).pc.Offering?
  {
    if p.rest == [] {
      assert Text(p.sent) + "" == Text(p.sent);
    }
  }

  lemma HandoffKeepsProducerInv(cfg: Config, i: nat, p: Producer, canceled: bool)
    requires i < cfg.Count() == |cfg.upstreams|
    requires p.pc.Offering? && ProducerInv(cfg, i, p, canceled)
    ensures var c := p.pc.chunk;
            ProducerInv(cfg, i, p.(pc := if c.Token? then Reading else Closing, sent := p.sent + [c]), canceled)
  {
    var c := p.pc.chunk;
    TextAppend(p.sent, c);
    assert (p.sent + [c])[..|p.sent|] == p.sent;
    assert Text(p.sent) + "" == Text(p.sent);
  }

  /** Receiving, handling and leaving the range loop. */
  lemma ReceiverMoveInv(cfg: Config, i: nat, w: Worker, ws: WorkerStep, slot: Variation, failed: bool, canceled: bool)
    requires cfg.Valid() && i < cfg.Count()
    requires WorkerInv(cfg, i, w, slot, failed, canceled)
    requires (ws == Handoff && w.pc == Receiving && w.producer.pc.Offering?)
          || (ws == Handle && w.pc.Handling?)
          || (ws == EndRange && w.pc == Receiving && w.producer.pc == Closed)
    ensures var slot' := if ws.Handle? && w.pc.chunk.VariationDone? then w.pc.chunk.variation else slot;
            WorkerInv(cfg, i, WorkerMove(cfg, i, w, ws), slot', failed || Recorded(cfg, i, w, ws).Some?, canceled)
  {
    var p := w.producer;
    if ws == Handoff {
      HandoffKeepsProducerInv(cfg, i, p, canceled);
      assert Front(p.sent + [p.pc.chunk]) == p.sent;
    }
  }

  /** Sending, giving up, opening, and the provider's own steps. */
  lemma OtherMoveInv(cfg: Config, i: nat, w: Worker, ws: WorkerStep, slot: Variation, failed: bool, canceled: bool)
    requires cfg.Valid() && i < cfg.Count()
    requires WorkerInv(cfg, i, w, slot, failed, canceled)
    requires match ws
             case Deliver => Outgoing(cfg, i, w).Some?
             case GiveUp => Outgoing(cfg, i, w).Some? && canceled
             case Open => w.pc == Opening
             case Read => w.producer.pc == Reading
             case Cut(_) => w.producer.pc == Reading && canceled
             case ProducerGiveUp => w.producer.pc.Offering? && canceled
             case CloseChunks => w.producer.pc == Closing
             case _ => false
    ensures WorkerInv(cfg, i, WorkerMove(cfg, i, w, ws), slot, failed || Recorded(cfg, i, w, ws).Some?, canceled)
  {
    var p := w.producer;
    match ws
    case Deliver =>
      if w.pc.Sending? {
        EventsOfAppend(cfg.Strategy(i), p.sent);
        assert Announced(cfg.Strategy(i), Front(p.sent)) + [w.pc.ev] == Announced(cfg.Strategy(i), p.sent);
      }
    case Read => ReadKeepsProducerInv(cfg, i, p, canceled);
    case Cut(end) => ReadKeepsProducerInv(cfg, i, p.(rest := [], end := end), canceled);
    case _ =>
  }

  /** A worker's own step keeps its invariant. */
  lemma WorkerStepInv(cfg: Config, s: State, i: nat, ws: WorkerStep)
    requires cfg.Valid() && Shaped(cfg, s) && i < cfg.Count()
    requires WorkerEnabled(cfg, s, i, ws)
    requires WorkerInv(cfg, i, s.workers[i], s.variations[i], s.firstErr.Some?, s.canceled)
    ensures var s' := WorkerDo(cfg, s, i, ws);
            WorkerInv(cfg, i, s'.workers[i], s'.variations[i], s'.firstErr.Some?, s'.canceled)
  {
    var w, slot, failed := s.workers[i], s.variations[i], s.firstErr.Some?;
    if ws == Handoff || ws == Handle || ws == EndRange {
      ReceiverMoveInv(cfg, i, w, ws, slot, failed, s.canceled);
    } else {
      OtherMoveInv(cfg, i, w, ws, slot, failed, s.canceled);
    }
  }

  // ---- The whole machine ----

  /** The events of `events` about strategy `s`, in order. */
  function About(events: seq<Event>, s: Strategy): seq<Event> {
    if events == [] then []
    else
      var e := events[|events| - 1];
      About(events[..|events| - 1], s) + (if e.strategy == s then [e] else [])
  }

  lemma AboutAppend(events: seq<Event>, e: Event, s: Strategy)
    ensures About(events + [e], s) == if e.strategy == s then About(events, s) + [e] else About(events, s)
  {
    assert (events + [e])[..|events|] == events;
  }

  ghost predicate WorkersInv(cfg: Config, s: State)
    requires Shaped(cfg, s)
  {
    forall i :: 0 <= i < cfg.Count() ==>
      WorkerInv(cfg, i, s.workers[i], s.variations[i], s.firstErr.Some?, s.canceled)
  }

  /** The consumer's view restricted to a strategy is that strategy's own log. */
  ghost predicate LogsAgree(cfg: Config, s: State)
    requires Shaped(cfg, s)
  {
    forall i :: 0 <= i < cfg.Count() ==> About(s.delivered, cfg.Strategy(i)) == s.workers[i].log
  }

  /** An event about one requested strategy. */
  predicate IsTagged(cfg: Config, e: Event) {
    e.strategy in cfg.input.strategies && e.kind != GenerationStarted && e.kind != Done
  }

  /** generation_started, then events about strategies only. */
  ghost predicate Begun(cfg: Config, d: seq<Event>) {
    && d != []
    && d[0] == StartedEvent(cfg.generation)
    && forall k :: 1 <= k < |d| ==> IsTagged(cfg, d[k])
  }

  predicate IsAggregate(e: Event) {
    e.strategy == "" && (e.kind == Done || e.kind == ErrorEvent)
  }

  function FailedRecord(cfg: Config): Generation { cfg.generation.(status := Failed) }

  /** A terminal record tells the truth: `completed` only when every strategy succeeded,
      with the variations in requested order. */
  ghost predicate Truthful(cfg: Config, s: State, gen: Generation)
    requires Shaped(cfg, s)
  {
    || gen == FailedRecord(cfg)
    || (&& gen == cfg.generation.(status := Completed, variations := s.variations)
        && forall i :: 0 <= i < cfg.Count() ==> Succeeded(cfg.Strategy(i), s.workers[i], s.variations[i]))
  }

  ghost predicate Unstarted(s: State) {
    && s.terminalSaves == 0
    && forall i :: 0 <= i < |s.workers| ==> s.workers[i].pc == Unspawned
  }

  /** The coordinator's last event, once the terminal save was attempted. */
  ghost predicate FinalEvent(cfg: Config, s: State, ev: Event) {
    && IsAggregate(ev)
    && (ev.kind == Done ==> |s.history| == 2 && s.history[1].status == Completed && ev == DoneEvent(s.history[1]))
  }

  ghost predicate Settled(cfg: Config, s: State)
    requires Shaped(cfg, s)
  {
    && AllFinished(s)
    && s.terminalSaves == 1
    && (|s.history| == 1 || (|s.history| == 2 && Truthful(cfg, s, s.history[1])))
  }

  /** The shape of `delivered` once the coordinator is on its way out. */
  ghost predicate Ordered(cfg: Config, s: State) {
    var d := s.delivered;
    || Begun(cfg, d)
    || (|d| >= 2 && Begun(cfg, d[..|d| - 1]) && FinalEvent(cfg, s, d[|d| - 1]))
  }

  ghost predicate CoordinatorInv(cfg: Config, s: State)
    requires Shaped(cfg, s)
  {
    && |s.history| >= 1 && s.history[0] == cfg.generation
    && match s.coordinator
       case Starting => s.delivered == [] && Unstarted(s) && |s.history| == 1 && s.closes == 0 && s.firstErr.None?
       case Spawning(k) =>
         && Begun(cfg, s.delivered) && |s.history| == 1 && s.terminalSaves == 0 && s.closes == 0
         && k <= |s.workers|
         && forall i :: 0 <= i < |s.workers| ==> (s.workers[i].pc == Unspawned <==> k <= i)
       case Waiting =>
         && Begun(cfg, s.delivered) && |s.history| == 1 && s.terminalSaves == 0 && s.closes == 0
         && forall i :: 0 <= i < |s.workers| ==> s.workers[i].pc != Unspawned
       case Saving(gen, err) =>
         && Begun(cfg, s.delivered) && |s.history| == 1 && s.terminalSaves == 0 && s.closes == 0
         && AllFinished(s) && Truthful(cfg, s, gen) && (err.None? <==> gen.status == Completed)
       case SendingFinal(ev) =>
         && Begun(cfg, s.delivered) && s.closes == 0 && Settled(cfg, s) && FinalEvent(cfg, s, ev)
       case Returning =>
         && s.closes == 0
         && if s.delivered == [] then Unstarted(s) && s.canceled && |s.history| == 1
            else Settled(cfg, s) && Ordered(cfg, s)
       case Returned =>
         && s.closes == 1
         && if s.delivered == [] then Unstarted(s) && s.canceled && |s.history| == 1
            else Settled(cfg, s) && Ordered(cfg, s)
  }

  ghost predicate Inv(cfg: Config, s: State) {
    && Shaped(cfg, s)
    && WorkersInv(cfg, s)
    && LogsAgree(cfg, s)
    && CoordinatorInv(cfg, s)
  }

  lemma InitInv(cfg: Config)
    requires cfg.Valid()
    ensures Inv(cfg, Init(cfg))
  {
  }

  lemma WorkersInvWorker(cfg: Config, s: State, i: nat, ws: WorkerStep)
    requires cfg.Valid() && Inv(cfg, s) && i < cfg.Count() && WorkerEnabled(cfg, s, i, ws)
    ensures WorkersInv(cfg, WorkerDo(cfg, s, i, ws))
  {
    var s' := WorkerDo(cfg, s, i, ws);
    WorkerStepInv(cfg, s, i, ws);
    forall j | 0 <= j < cfg.Count() && j != i
      ensures WorkerInv(cfg, j, s'.workers[j], s'.variations[j], s'.firstErr.Some?, s'.canceled)
    {
      WorkerInvStable(cfg, j, s.workers[j], s.variations[j], s.firstErr.Some?, s.canceled,
                      s'.firstErr.Some?, s'.canceled);
    }
  }

  lemma WorkersInvStep(cfg: Config, s: State, step: Step)
    requires cfg.Valid() && Inv(cfg, s) && Enabled(cfg, s, step)
    ensures Shaped(cfg, Do(cfg, s, step)) && WorkersInv(cfg, Do(cfg, s, step))
  {
    match step
    case OfWorker(i, ws) => WorkersInvWorker(cfg, s, i, ws);
    case Cancel =>
      forall j | 0 <= j < cfg.Count()
        ensures WorkerInv(cfg, j, s.workers[j], s.variations[j], s.firstErr.Some?, true)
      {
        WorkerInvStable(cfg, j, s.workers[j], s.variations[j], s.firstErr.Some?, s.canceled, s.firstErr.Some?, true);
      }
    case Spawn =>
      var s' := Do(cfg, s, step);
      forall j | 0 <= j < cfg.Count()
        ensures WorkerInv(cfg, j, s'.workers[j], s'.variations[j], s'.firstErr.Some?, s'.canceled)
      {
        assert WorkerInv(cfg, j, s.workers[j], s.variations[j], s.firstErr.Some?, s.canceled);
      }
    case _ =>
  }

  /** A delivering worker sends an event about its own strategy. */
  lemma OutgoingIsTagged(cfg: Config, s: State, i: nat)
    requires cfg.Valid() && Inv(cfg, s) && i < cfg.Count() && Outgoing(cfg, i, s.workers[i]).Some?
    ensures var e := Outgoing(cfg, i, s.workers[i]).value; IsTagged(cfg, e) && e.strategy == cfg.Strategy(i)
  {
    assert WorkerInv(cfg, i, s.workers[i], s.variations[i], s.firstErr.Some?, s.canceled);
  }

  lemma WorkerLogStep(cfg: Config, s: State, i: nat, ws: WorkerStep)
    requires cfg.Valid() && Shaped(cfg, s) && i < cfg.Count() && WorkerEnabled(cfg, s, i, ws)
    ensures var s' := WorkerDo(cfg, s, i, ws);
            if ws.Deliver? then
              var e := Outgoing(cfg, i, s.workers[i]).value;
              s'.delivered == s.delivered + [e] && s'.workers[i].log == s.workers[i].log + [e]
            else
              s'.delivered == s.delivered && s'.workers[i].log == s.workers[i].log
    ensures forall j :: 0 <= j < cfg.Count() && j != i ==> WorkerDo(cfg, s, i, ws).workers[j] == s.workers[j]
  {
  }

  lemma LogsAgreeWorker(cfg: Config, s: State, i: nat, ws: WorkerStep)
    requires cfg.Valid() && Inv(cfg, s) && i < cfg.Count() && WorkerEnabled(cfg, s, i, ws)
    ensures LogsAgree(cfg, WorkerDo(cfg, s, i, ws))
  {
    var s' := WorkerDo(cfg, s, i, ws);
    WorkerLogStep(cfg, s, i, ws);
    if ws.Deliver? {
      var e := Outgoing(cfg, i, s.workers[i]).value;
      OutgoingIsTagged(cfg, s, i);
      forall j | 0 <= j < cfg.Count()
        ensures About(s'.delivered, cfg.Strategy(j)) == s'.workers[j].log
      {
        AboutAppend(s.delivered, e, cfg.Strategy(j));
        assert i != j ==> cfg.Strategy(i) != cfg.Strategy(j);
      }
    }
  }

  lemma LogsAgreeOwn(cfg: Config, s: State)
    requires cfg.Valid() && Inv(cfg, s) && Enabled(cfg, s, DeliverOwn)
    ensures LogsAgree(cfg, Do(cfg, s, DeliverOwn))
  {
    var e := OwnOutgoing(cfg, s).value;
    assert e.strategy == "";
    forall j | 0 <= j < cfg.Count()
      ensures About(s.delivered + [e], cfg.Strategy(j)) == s.workers[j].log
    {
      AboutAppend(s.delivered, e, cfg.Strategy(j));
    }
  }

  lemma LogsAgreeStep(cfg: Config, s: State, step: Step)
    requires cfg.Valid() && Inv(cfg, s) && Enabled(cfg, s, step)
    ensures LogsAgree(cfg, Do(cfg, s, step))
  {
    match step
    case DeliverOwn => LogsAgreeOwn(cfg, s);
    case OfWorker(i, ws) => LogsAgreeWorker(cfg, s, i, ws);
    case _ =>
  }

  /** A goroutine that has finished, with its provider done, takes no further step. */
  lemma FinishedWorkerStep(cfg: Config, s: State, i: nat, ws: WorkerStep)
    requires cfg.Valid() && Inv(cfg, s) && i < cfg.Count() && WorkerEnabled(cfg, s, i, ws)
    requires s.workers[i].pc == Finished || s.workers[i].pc == Unspawned
    ensures s.workers[i].pc == Finished && s.workers[i].producer.pc != Closed
    ensures var s' := WorkerDo(cfg, s, i, ws);
            && s' == s.(workers := s'.workers)
            && s'.workers[i].pc == Finished
  {
    assert WorkerInv(cfg, i, s.workers[i], s.variations[i], s.firstErr.Some?, s.canceled);
  }

  lemma FinishedKeepsCoordinatorInv(cfg: Config, s: State, i: nat, ws: WorkerStep)
    requires cfg.Valid() && Inv(cfg, s) && Enabled(cfg, s, OfWorker(i, ws))
    requires s.workers[i].pc == Finished || s.workers[i].pc == Unspawned
    ensures CoordinatorInv(cfg, WorkerDo(cfg, s, i, ws))
  {
    var s' := WorkerDo(cfg, s, i, ws);
    FinishedWorkerStep(cfg, s, i, ws);
    assert forall j :: 0 <= j < |s.workers| && j != i ==> s'.workers[j] == s.workers[j];
    assert forall gen :: Truthful(cfg, s, gen) ==> Truthful(cfg, s', gen);
  }

  lemma ActiveWorkerStep(cfg: Config, s: State, i: nat, ws: WorkerStep)
    requires Shaped(cfg, s) && i < cfg.Count() && WorkerEnabled(cfg, s, i, ws) && s.workers[i].pc != Unspawned
    ensures var s' := WorkerDo(cfg, s, i, ws);
            && s'.coordinator == s.coordinator && s'.history == s.history
            && s'.terminalSaves == s.terminalSaves && s'.closes == s.closes
            && |s'.workers| == |s.workers| && s'.workers[i].pc != Unspawned
            && forall j :: 0 <= j < |s.workers| && j != i ==> s'.workers[j] == s.workers[j]
  {
  }

  lemma ActiveMeansRunning(cfg: Config, s: State, i: nat)
    requires Shaped(cfg, s) && CoordinatorInv(cfg, s) && i < cfg.Count()
    requires s.workers[i].pc != Finished && s.workers[i].pc != Unspawned
    ensures s.coordinator.Spawning? || s.coordinator == Waiting
  {
  }

  lemma ActiveKeepsBegun(cfg: Config, s: State, i: nat, ws: WorkerStep)
    requires cfg.Valid() && Inv(cfg, s) && i < cfg.Count() && WorkerEnabled(cfg, s, i, ws) && Begun(cfg, s.delivered)
    ensures Begun(cfg, WorkerDo(cfg, s, i, ws).delivered)
  {
    WorkerLogStep(cfg, s, i, ws);
    if ws.Deliver? {
      OutgoingIsTagged(cfg, s, i);
    }
  }

  lemma ActiveKeepsCoordinatorInv(cfg: Config, s: State, i: nat, ws: WorkerStep)
    requires cfg.Valid() && Inv(cfg, s) && Enabled(cfg, s, OfWorker(i, ws))
    requires s.workers[i].pc != Finished && s.workers[i].pc != Unspawned
    ensures CoordinatorInv(cfg, WorkerDo(cfg, s, i, ws))
  {
    ActiveMeansRunning(cfg, s, i);
    ActiveWorkerStep(cfg, s, i, ws);
    ActiveKeepsBegun(cfg, s, i, ws);
  }

  lemma WorkerKeepsCoordinatorInv(cfg: Config, s: State, i: nat, ws: WorkerStep)
    requires cfg.Valid() && Inv(cfg, s) && Enabled(cfg, s, OfWorker(i, ws))
    ensures CoordinatorInv(cfg, Do(cfg, s, OfWorker(i, ws)))
  {
    if s.workers[i].pc == Finished || s.workers[i].pc == Unspawned {
      FinishedKeepsCoordinatorInv(cfg, s, i, ws);
    } else {
      ActiveKeepsCoordinatorInv(cfg, s, i, ws);
    }
  }

  /** When the switch picks `completed`, every goroutine has succeeded. */
  lemma DecideIsTruthful(cfg: Config, s: State)
    requires cfg.Valid() && Inv(cfg, s) && AllFinished(s)
    ensures Truthful(cfg, s, Outcome(cfg, s).0)
    ensures Outcome(cfg, s).1.None? <==> Outcome(cfg, s).0.status == Completed
  {
    if !s.canceled && s.firstErr.None? {
      forall i | 0 <= i < cfg.Count()
        ensures Succeeded(cfg.Strategy(i), s.workers[i], s.variations[i])
      {
        assert WorkerInv(cfg, i, s.workers[i], s.variations[i], s.firstErr.Some?, s.canceled);
      }
    }
  }

  lemma TruthfulFrame(cfg: Config, s: State, s': State, gen: Generation)
    requires Shaped(cfg, s) && Shaped(cfg, s')
    requires s'.workers == s.workers && s'.variations == s.variations
    requires Truthful(cfg, s, gen)
    ensures Truthful(cfg, s', gen)
  {
  }

  lemma FinalDelivered(cfg: Config, s: State, s': State, ev: Event)
    requires Shaped(cfg, s) && Shaped(cfg, s')
    requires Begun(cfg, s.delivered) && Settled(cfg, s) && FinalEvent(cfg, s, ev)
    requires s'.workers == s.workers && s'.variations == s.variations && s'.history == s.history
    requires s'.terminalSaves == s.terminalSaves && s'.delivered == s.delivered + [ev]
    ensures Settled(cfg, s') && Ordered(cfg, s')
  {
    assert s'.delivered[..|s'.delivered| - 1] == s.delivered;
    if |s.history| == 2 {
      TruthfulFrame(cfg, s, s', s.history[1]);
    }
  }

  lemma DeliverOwnKeepsCoordinatorInv(cfg: Config, s: State)
    requires cfg.Valid() && Shaped(cfg, s) && CoordinatorInv(cfg, s) && Enabled(cfg, s, DeliverOwn)
    ensures CoordinatorInv(cfg, Do(cfg, s, DeliverOwn))
  {
    if s.coordinator.SendingFinal? {
      FinalDelivered(cfg, s, Do(cfg, s, DeliverOwn), s.coordinator.ev);
    }
  }

  lemma SaveKeepsCoordinatorInv(cfg: Config, s: State, ok: bool, applied: bool)
    requires cfg.Valid() && Shaped(cfg, s) && CoordinatorInv(cfg, s) && Enabled(cfg, s, SaveTerminal(ok, applied))
    ensures CoordinatorInv(cfg, SaveDo(s, ok, applied))
  {
    var s' := SaveDo(s, ok, applied);
    assert forall gen :: Truthful(cfg, s, gen) ==> Truthful(cfg, s', gen);
  }

  lemma DecideKeepsCoordinatorInv(cfg: Config, s: State)
    requires cfg.Valid() && Inv(cfg, s) && Enabled(cfg, s, Decide)
    ensures CoordinatorInv(cfg, Do(cfg, s, Decide))
  {
    DecideIsTruthful(cfg, s);
    var s' := Do(cfg, s, Decide);
    assert forall gen :: Truthful(cfg, s, gen) ==> Truthful(cfg, s', gen);
  }

  lemma OnlyEnvironmentMoved(cfg: Config, s: State, s': State)
    requires Shaped(cfg, s) && CoordinatorInv(cfg, s)
    requires s' == s.(canceled := s'.canceled, consumer := s'.consumer) && (s.canceled ==> s'.canceled)
    ensures Shaped(cfg, s') && CoordinatorInv(cfg, s')
  {
    if s.coordinator.Saving? {
      TruthfulFrame(cfg, s, s', s.coordinator.gen);
    } else if |s.history| == 2 {
      TruthfulFrame(cfg, s, s', s.history[1]);
    }
  }

  lemma EnvironmentKeepsCoordinatorInv(cfg: Config, s: State, step: Step)
    requires cfg.Valid() && Shaped(cfg, s) && CoordinatorInv(cfg, s) && Enabled(cfg, s, step)
    requires step.Cancel? || step.Ready? || step.Leave?
    ensures CoordinatorInv(cfg, Do(cfg, s, step))
  {
    OnlyEnvironmentMoved(cfg, s, Do(cfg, s, step));
  }

  lemma ExitKeepsCoordinatorInv(cfg: Config, s: State, step: Step)
    requires cfg.Valid() && Shaped(cfg, s) && CoordinatorInv(cfg, s) && Enabled(cfg, s, step)
    requires step.GiveUpOwn? || step.CloseOut?
    ensures CoordinatorInv(cfg, Do(cfg, s, step))
  {
    if |s.history| == 2 {
      TruthfulFrame(cfg, s, Do(cfg, s, step), s.history[1]);
    }
  }

  lemma SpawnKeepsCoordinatorInv(cfg: Config, s: State)
    requires cfg.Valid() && Shaped(cfg, s) && CoordinatorInv(cfg, s) && s.coordinator.Spawning?
    ensures CoordinatorInv(cfg, SpawnNext(s))
  {
  }

  lemma CoordinatorInvStep(cfg: Config, s: State, step: Step)
    requires cfg.Valid() && Inv(cfg, s) && Enabled(cfg, s, step)
    ensures CoordinatorInv(cfg, Do(cfg, s, step))
  {
    match step
    case OfWorker(i, ws) => WorkerKeepsCoordinatorInv(cfg, s, i, ws);
    case Decide => DecideKeepsCoordinatorInv(cfg, s);
    case DeliverOwn => DeliverOwnKeepsCoordinatorInv(cfg, s);
    case SaveTerminal(ok, applied) => SaveKeepsCoordinatorInv(cfg, s, ok, applied);
    case Spawn => SpawnKeepsCoordinatorInv(cfg, s);
    case GiveUpOwn => ExitKeepsCoordinatorInv(cfg, s, step);
    case CloseOut => ExitKeepsCoordinatorInv(cfg, s, step);
    case _ => EnvironmentKeepsCoordinatorInv(cfg, s, step);
  }

  lemma StepInv(cfg: Config, s: State, step: Step)
    requires cfg.Valid() && Inv(cfg, s) && Enabled(cfg, s, step)
    ensures Inv(cfg, Do(cfg, s, step))
  {
    WorkersInvStep(cfg, s, step);
    LogsAgreeStep(cfg, s, step);
    CoordinatorInvStep(cfg, s, step);
  }

  /** Every interleaving keeps the invariant. */
  lemma {:induction false} RunInv(cfg: Config, steps: seq<Step>)
    requires cfg.Valid() && Run(cfg, steps).Some?
    ensures Inv(cfg, Run(cfg, steps).value)
  {
    if steps == [] {
      InitInv(cfg);
    } else {
      var before := steps[..|steps| - 1];
      RunInv(cfg, before);
      StepInv(cfg, Run(cfg, before).value, steps[|steps| - 1]);
    }
  }

  /** What the client is doing is nobody else's business. */
  lemma ConsumerInv(cfg: Config, s: State, consumer: Consumer)
    requires cfg.Valid() && Inv(cfg, s)
    ensures Inv(cfg, s.(consumer := consumer))
  {
    OnlyEnvironmentMoved(cfg, s, s.(consumer := consumer));
  }
}
