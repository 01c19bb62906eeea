/** What the fan-out comes to: its producers keep the adapters' contract, and a run that is
    not cancelled stores a record that depends on the upstreams alone. */
module FanoutOutcome {
  import opened Wrappers
  import opened Domain
  import opened Providers
  import opened Fanout
  import FP = FanoutProofs
  import FT = FanoutTheorems

  // ---- the machine's producer is the adapters' ----

  /** The deltas an adapter would relay. */
  function Relayable(cfg: Config, i: nat): seq<string>
    requires i < cfg.Count() == |cfg.upstreams|
  {
    NonEmpty(cfg.upstreams[i].deltas)
  }

  lemma NonEmptyAppend(parts: seq<string>, p: string)
    ensures NonEmpty(parts + [p]) == NonEmpty(parts) + (if p == "" then [] else [p])
  {
    assert (parts + [p])[..|parts|] == parts;
  }

  lemma {:induction false} NonEmptyFromFront(parts: seq<string>)
    requires parts != []
    ensures NonEmpty(parts) == (if parts[0] == "" then [] else [parts[0]]) + NonEmpty(parts[1..])
    decreases |parts|
  {
    var n := |parts| - 1;
    var front, last := parts[..n], parts[n];
    assert parts == front + [last];
    NonEmptyAppend(front, last);
    if n == 0 {
      assert parts[1..] == [];
    } else {
      assert parts[1..] == front[1..] + [last];
      NonEmptyFromFront(front);
      NonEmptyAppend(front[1..], last);
    }
  }

  function TerminalOf(cfg: Config, i: nat, json: string, end: Option<Error>): Chunk
    requires i < cfg.Count() == |cfg.upstreams|
  {
    Terminal(cfg.Strategy(i), cfg.upstreams[i].variationId, json, end, cfg.unmarshal)
  }

  /** The first n deltas have been read and the rest are still to come. Only a cut stream
      ends before that, and then at once. */
  predicate ReadSoFar(cfg: Config, i: nat, p: Producer, n: nat)
    requires i < cfg.Count() == |cfg.upstreams|
  {
    var deltas := Relayable(cfg, i);
    && n <= |deltas|
    && p.json == Join(deltas[..n])
    && NonEmpty(p.rest) == deltas[n..]
    && p.end == cfg.upstreams[i].end
  }

  ghost predicate Relays(cfg: Config, i: nat, p: Producer, canceled: bool)
    requires i < cfg.Count() == |cfg.upstreams|
  {
    var deltas := Relayable(cfg, i);
    match p.pc
    case Unopened =>
      p.sent == [] && p.json == "" && p.rest == cfg.upstreams[i].deltas && p.end == cfg.upstreams[i].end
    case Reading =>
      ReadSoFar(cfg, i, p, |p.sent|) && p.sent == Tokens(deltas[..|p.sent|])
    case Offering(c) =>
      && |p.sent| <= |deltas| && p.sent == Tokens(deltas[..|p.sent|])
      && (if c.Token? then
            |p.sent| < |deltas| && c.delta == deltas[|p.sent|] && ReadSoFar(cfg, i, p, |p.sent| + 1)
          else
            && c == TerminalOf(cfg, i, Join(deltas[..|p.sent|]), p.end)
            && (!canceled ==> |p.sent| == |deltas| && p.end == cfg.upstreams[i].end))
    case _ =>
      || (canceled && |p.sent| <= |deltas| && p.sent == Tokens(deltas[..|p.sent|]))
      || FullyRelayed(cfg, i, p.sent, p.end, canceled)
  }

  /** A context that is done may end the stream at any read, with any error: that error is then
      what the provider offers. Without one it offers what the text so far spells, a variation
      if it is an acceptable tool call, the error of an invalid response if not. */
  lemma CutOffersItsEnd(cfg: Config, s: State, i: nat, end: Option<Error>)
    requires cfg.Valid() && Shaped(cfg, s) && i < cfg.Count()
    requires s.canceled && s.workers[i].producer.pc == Reading
    ensures Enabled(cfg, s, OfWorker(i, Cut(end)))
    ensures var p := s.workers[i].producer;
            var out := cfg.unmarshal(p.json);
            var pc := Do(cfg, s, OfWorker(i, Cut(end))).workers[i].producer.pc;
            && pc.Offering?
            && match end
               case Some(e) => pc.chunk == ChunkError(e)
               case None =>
                 if cfg.input.strategies[i] in ["anchor", "freemium", "value_based"]
                    && out.Some? && AcceptableOutput(out.value) then
                   && pc.chunk.VariationDone? && pc.chunk.variation.strategy == cfg.input.strategies[i]
                   && ToolOutputOf(pc.chunk.variation) == out.value
                 else pc.chunk == ChunkError(InvalidLLMResponse)
  {
    DecodeIsExact(cfg.Strategy(i), cfg.upstreams[i].variationId, s.workers[i].producer.json, cfg.unmarshal);
  }

  /** Tokens and the terminal chunk have crossed the channel. */
  ghost predicate FullyRelayed(cfg: Config, i: nat, sent: seq<Chunk>, end: Option<Error>, canceled: bool)
    requires i < cfg.Count() == |cfg.upstreams|
  {
    var deltas := Relayable(cfg, i);
    && 1 <= |sent| <= |deltas| + 1
    && sent == Script(cfg.Strategy(i), cfg.upstreams[i].variationId, deltas[..|sent| - 1], end, cfg.unmarshal)
    && (!canceled ==> |sent| == |deltas| + 1 && end == cfg.upstreams[i].end)
  }

  lemma OpenRelays(cfg: Config, i: nat, p: Producer, canceled: bool)
    requires i < cfg.Count() == |cfg.upstreams| && p.pc == Unopened && Relays(cfg, i, p, canceled)
    ensures Relays(cfg, i, p.(pc := Reading), canceled)
  {
    assert Relayable(cfg, i)[..0] == [];
  }

  lemma ReadRelays(cfg: Config, i: nat, p: Producer, canceled: bool)
    requires i < cfg.Count() == |cfg.upstreams| && p.pc == Reading && Relays(cfg, i, p, canceled)
    ensures Relays(cfg, i, ReadNext(cfg, i, p), canceled)
  {
    var deltas, n := Relayable(cfg, i), |p.sent|;
    if p.rest != [] {
      NonEmptyFromFront(p.rest);
      if p.rest[0] != "" {
        assert deltas[n..][0] == deltas[n] && deltas[n..][1..] == deltas[n + 1..];
        assert deltas[..n + 1] == deltas[..n] + [deltas[n]];
        JoinAppend(deltas[..n], deltas[n]);
      }
    }
  }

  lemma CutRelays(cfg: Config, i: nat, p: Producer, end: Option<Error>)
    requires i < cfg.Count() == |cfg.upstreams| && p.pc == Reading && Relays(cfg, i, p, true)
    ensures Relays(cfg, i, ReadNext(cfg, i, p.(rest := [], end := end)), true)
  {
  }

  lemma HandoffRelays(cfg: Config, i: nat, p: Producer, canceled: bool)
    requires i < cfg.Count() == |cfg.upstreams| && p.pc.Offering? && Relays(cfg, i, p, canceled)
    ensures var c := p.pc.chunk;
            Relays(cfg, i, p.(pc := if c.Token? then Reading else Closing, sent := p.sent + [c]), canceled)
  {
    var deltas, n := Relayable(cfg, i), |p.sent|;
    if p.pc.chunk.Token? {
      assert deltas[..n + 1] == deltas[..n] + [deltas[n]];
    }
  }

  /** When `StreamStructured` opens a stream, and when it reports that it cannot. */
  predicate OpensRightly(cfg: Config, i: nat, w: Worker, canceled: bool)
    requires i < cfg.Count()
  {
    && (w.producer.pc != Unopened ==> cfg.OpenError(i) == None)
    && (w.pc.SendingOpenError? ==> cfg.OpenError(i).Some?)
    && (w.pc == Finished && w.producer.pc == Unopened && !canceled ==> cfg.OpenError(i).Some?)
  }

  ghost predicate ProducerOk(cfg: Config, i: nat, w: Worker, canceled: bool)
    requires i < cfg.Count() == |cfg.upstreams|
  {
    Relays(cfg, i, w.producer, canceled) && OpensRightly(cfg, i, w, canceled)
  }

  lemma WorkerStepProducerOk(cfg: Config, s: State, i: nat, ws: WorkerStep)
    requires Shaped(cfg, s) && i < cfg.Count() && WorkerEnabled(cfg, s, i, ws) && FT.Linked(s.workers[i])
    requires ProducerOk(cfg, i, s.workers[i], s.canceled)
    ensures ProducerOk(cfg, i, WorkerMove(cfg, i, s.workers[i], ws), s.canceled)
  {
    var p := s.workers[i].producer;
    match ws
    case Open => OpenRelays(cfg, i, p, s.canceled);
    case Read => ReadRelays(cfg, i, p, s.canceled);
    case Cut(end) => CutRelays(cfg, i, p, end);
    case Handoff => HandoffRelays(cfg, i, p, s.canceled);
    case _ =>
  }

  ghost predicate ProducersOk(cfg: Config, s: State)
    requires Shaped(cfg, s)
  {
    forall i :: 0 <= i < cfg.Count() ==> ProducerOk(cfg, i, s.workers[i], s.canceled)
  }

  lemma ProducersOkWorker(cfg: Config, s: State, i: nat, ws: WorkerStep)
    requires cfg.Valid() && FP.Inv(cfg, s) && ProducersOk(cfg, s)
    requires i < cfg.Count() && WorkerEnabled(cfg, s, i, ws)
    ensures ProducersOk(cfg, WorkerDo(cfg, s, i, ws))
  {
    FT.AreLinked(cfg, s, i);
    WorkerStepProducerOk(cfg, s, i, ws);
  }

  lemma ProducersOkSpawn(cfg: Config, s: State)
    requires cfg.Valid() && Shaped(cfg, s) && ProducersOk(cfg, s) && s.coordinator.Spawning?
    ensures ProducersOk(cfg, SpawnNext(s))
  {
  }

  lemma ProducersOkLater(cfg: Config, s: State, s': State)
    requires Shaped(cfg, s) && Shaped(cfg, s') && ProducersOk(cfg, s)
    requires s'.workers == s.workers && (s.canceled ==> s'.canceled)
    ensures ProducersOk(cfg, s')
  {
    forall i | 0 <= i < cfg.Count()
      ensures ProducerOk(cfg, i, s'.workers[i], s'.canceled)
    {
      assert ProducerOk(cfg, i, s.workers[i], s.canceled);
    }
  }

  lemma ProducersOkStep(cfg: Config, s: State, step: Step)
    requires cfg.Valid() && FP.Inv(cfg, s) && ProducersOk(cfg, s) && Enabled(cfg, s, step)
    ensures ProducersOk(cfg, Do(cfg, s, step))
  {
    match step
    case OfWorker(i, ws) => ProducersOkWorker(cfg, s, i, ws);
    case Spawn => ProducersOkSpawn(cfg, s);
    case _ => ProducersOkLater(cfg, s, Do(cfg, s, step));
  }

  lemma {:induction false} RunProducersOk(cfg: Config, steps: seq<Step>)
    requires cfg.Valid() && Run(cfg, steps).Some?
    ensures ProducersOk(cfg, Run(cfg, steps).value)
  {
    if steps == [] {
    } else {
      var before := steps[..|steps| - 1];
      RunProducersOk(cfg, before);
      FP.RunInv(cfg, before);
      ProducersOkStep(cfg, Run(cfg, before).value, steps[|steps| - 1]);
    }
  }

  lemma ClosedProducerStreamed(cfg: Config, i: nat, p: Producer, canceled: bool)
    requires i < cfg.Count() == |cfg.upstreams| && p.pc == Closed && Relays(cfg, i, p, canceled)
    ensures Streamed(p.sent, canceled, cfg.Strategy(i), cfg.upstreams[i].variationId, Relayable(cfg, i),
                     cfg.upstreams[i].end, cfg.unmarshal)
  {
    var deltas := Relayable(cfg, i);
    var n := if FullyRelayed(cfg, i, p.sent, p.end, canceled) then |p.sent| - 1 else |p.sent|;
    assert n == |deltas| ==> deltas[..n] == deltas;
    StreamedBy(p.sent, canceled, cfg.Strategy(i), cfg.upstreams[i].variationId, deltas[..n], deltas,
               cfg.upstreams[i].end, p.end, cfg.unmarshal);
  }

  /** Whatever the interleaving, what a provider goroutine has sent when it closes its channel
      satisfies the contract that both adapters' streaming loops are proved against. */
  lemma ProducersKeepTheContract(cfg: Config, steps: seq<Step>, i: nat)
    requires cfg.Valid() && Run(cfg, steps).Some? && i < cfg.Count()
    requires Run(cfg, steps).value.workers[i].producer.pc == Closed
    ensures var s := Run(cfg, steps).value;
            Streamed(s.workers[i].producer.sent, s.canceled, cfg.Strategy(i), cfg.upstreams[i].variationId,
                     Relayable(cfg, i), cfg.upstreams[i].end, cfg.unmarshal)
  {
    RunProducersOk(cfg, steps);
    var s := Run(cfg, steps).value;
    assert ProducerOk(cfg, i, s.workers[i], s.canceled);
    ClosedProducerStreamed(cfg, i, s.workers[i].producer, s.canceled);
  }

  // ---- the outcome does not depend on the interleaving ----

  /** What strategy i comes to when nothing interferes. */
  function Expected(cfg: Config, i: nat): Result<Variation, Error>
    requires i < cfg.Count() == |cfg.upstreams|
  {
    match cfg.OpenError(i)
    case Some(e) => Err(e)
    case None =>
      match TerminalOf(cfg, i, Join(Relayable(cfg, i)), cfg.upstreams[i].end)
      case VariationDone(v) => Ok(v)
      case ChunkError(e) => Err(e)
  }

  /** The record one strategy after another would lead to. */
  ghost predicate ExpectedRecord(cfg: Config, gen: Generation)
    requires |cfg.upstreams| == cfg.Count()
  {
    if exists i :: 0 <= i < cfg.Count() && Expected(cfg, i).Err? then gen == FP.FailedRecord(cfg)
    else
      && gen == cfg.generation.(status := Completed, variations := gen.variations)
      && |gen.variations| == cfg.Count()
      && forall i :: 0 <= i < cfg.Count() ==> Expected(cfg, i) == Ok(gen.variations[i])
  }

  lemma UndisturbedProducer(cfg: Config, i: nat, w: Worker)
    requires i < cfg.Count() == |cfg.upstreams| && ProducerOk(cfg, i, w, false) && w.producer.pc == Closed
    ensures w.producer.sent != [] && cfg.OpenError(i) == None
    ensures w.producer.sent[|w.producer.sent| - 1] == TerminalOf(cfg, i, Join(Relayable(cfg, i)), cfg.upstreams[i].end)
  {
    var deltas := Relayable(cfg, i);
    assert deltas[..|deltas|] == deltas;
  }

  lemma FinishedStrategy(cfg: Config, s: State, i: nat)
    requires cfg.Valid() && FP.Inv(cfg, s) && ProducersOk(cfg, s) && i < cfg.Count()
    requires !s.canceled && s.workers[i].pc == Finished
    ensures FP.Succeeded(cfg.Strategy(i), s.workers[i], s.variations[i]) ==> Expected(cfg, i) == Ok(s.variations[i])
    ensures FT.Errored(s.workers[i]) ==> Expected(cfg, i).Err?
    ensures s.firstErr.None? ==> FP.Succeeded(cfg.Strategy(i), s.workers[i], s.variations[i])
  {
    var w := s.workers[i];
    assert ProducerOk(cfg, i, w, false);
    assert FP.WorkerInv(cfg, i, w, s.variations[i], s.firstErr.Some?, s.canceled);
    if w.producer.pc == Closed {
      UndisturbedProducer(cfg, i, w);
    }
  }

  /** Without cancellation, every interleaving decides on the same record: the one the
      upstreams determine, strategy by strategy. */
  lemma OutcomeIsDetermined(cfg: Config, steps: seq<Step>)
    requires cfg.Valid() && Run(cfg, steps).Some?
    requires Enabled(cfg, Run(cfg, steps).value, Decide) && !Run(cfg, steps).value.canceled
    ensures ExpectedRecord(cfg, Outcome(cfg, Run(cfg, steps).value).0)
  {
    FP.RunInv(cfg, steps);
    RunProducersOk(cfg, steps);
    FT.RunErrorsHaveCause(cfg, steps);
    var s := Run(cfg, steps).value;
    forall i | 0 <= i < cfg.Count()
      ensures FP.Succeeded(cfg.Strategy(i), s.workers[i], s.variations[i]) ==> Expected(cfg, i) == Ok(s.variations[i])
      ensures FT.Errored(s.workers[i]) ==> Expected(cfg, i).Err?
      ensures s.firstErr.None? ==> FP.Succeeded(cfg.Strategy(i), s.workers[i], s.variations[i])
    {
      FinishedStrategy(cfg, s, i);
    }
    if s.firstErr.Some? {
      var i :| 0 <= i < |s.workers| && FT.Errored(s.workers[i]);
      assert Expected(cfg, i).Err?;
    }
  }

  /** So two runs of the same request, scheduled in any two ways, store the same record. */
  lemma OutcomeIgnoresScheduling(cfg: Config, a: seq<Step>, b: seq<Step>)
    requires cfg.Valid() && Run(cfg, a).Some? && Run(cfg, b).Some?
    requires Enabled(cfg, Run(cfg, a).value, Decide) && !Run(cfg, a).value.canceled
    requires Enabled(cfg, Run(cfg, b).value, Decide) && !Run(cfg, b).value.canceled
    ensures Outcome(cfg, Run(cfg, a).value).0 == Outcome(cfg, Run(cfg, b).value).0
  {
    OutcomeIsDetermined(cfg, a);
    OutcomeIsDetermined(cfg, b);
    SameRecord(cfg, Outcome(cfg, Run(cfg, a).value).0, Outcome(cfg, Run(cfg, b).value).0);
  }

  lemma SameRecord(cfg: Config, g: Generation, h: Generation)
    requires |cfg.upstreams| == cfg.Count() && ExpectedRecord(cfg, g) && ExpectedRecord(cfg, h)
    ensures g == h
  {
    if forall i :: 0 <= i < cfg.Count() ==> Expected(cfg, i).Ok? {
      forall i | 0 <= i < cfg.Count()
        ensures g.variations[i] == h.variations[i]
      {
        assert Expected(cfg, i) == Ok(g.variations[i]);
      }
      assert g.variations == h.variations;
    }
  }

  /** Strategy i succeeds when nothing interferes: the provider takes the input, the stream ends
      without an error, and its text is an acceptable tool call. */
  predicate WillSucceed(cfg: Config, i: nat)
    requires i < cfg.Count() == |cfg.upstreams|
  {
    var input, u := cfg.input, cfg.upstreams[i];
    && input.strategies[i] in ["anchor", "freemium", "value_based"]
    && input.profile.url != ""
    && |input.currency| == 3 && (forall k :: 0 <= k < 3 ==> 'A' <= input.currency[k] <= 'Z')
    && u.end == None
    && var out := cfg.unmarshal(Join(u.deltas));
       out.Some? && AcceptableOutput(out.value)
  }

  lemma ExpectedIsExact(cfg: Config, i: nat)
    requires i < cfg.Count() == |cfg.upstreams|
    ensures Expected(cfg, i).Ok? <==> WillSucceed(cfg, i)
    ensures Expected(cfg, i).Ok? ==>
              var v := Expected(cfg, i).value;
              && v.id == cfg.upstreams[i].variationId && v.strategy == cfg.input.strategies[i]
              && Some(ToolOutputOf(v)) == cfg.unmarshal(Join(cfg.upstreams[i].deltas))
  {
    NonEmptyText(cfg.upstreams[i].deltas);
    DecodeIsExact(cfg.Strategy(i), cfg.upstreams[i].variationId, Join(Relayable(cfg, i)), cfg.unmarshal);
  }

  /** Without cancellation a generation is completed exactly when every strategy's upstream
      says something acceptable, and then its variations are what they said, in requested
      order. Otherwise it is failed, with none. */
  lemma CompletedExactlyWhen(cfg: Config, steps: seq<Step>)
    requires cfg.Valid() && Run(cfg, steps).Some?
    requires Enabled(cfg, Run(cfg, steps).value, Decide) && !Run(cfg, steps).value.canceled
    ensures var g := Outcome(cfg, Run(cfg, steps).value).0;
            && (g.status == Completed <==> forall i :: 0 <= i < cfg.Count() ==> WillSucceed(cfg, i))
            && (g.status == Completed ==>
                  && |g.variations| == cfg.Count()
                  && forall i :: 0 <= i < cfg.Count() ==>
                       && g.variations[i].id == cfg.upstreams[i].variationId
                       && g.variations[i].strategy == cfg.input.strategies[i]
                       && Some(ToolOutputOf(g.variations[i])) == cfg.unmarshal(Join(cfg.upstreams[i].deltas)))
            && (g.status != Completed ==> g.status == Failed && g.variations == [])
  {
    OutcomeIsDetermined(cfg, steps);
    forall i | 0 <= i < cfg.Count()
      ensures Expected(cfg, i).Ok? <==> WillSucceed(cfg, i)
      ensures Expected(cfg, i).Ok? ==>
                var v := Expected(cfg, i).value;
                && v.id == cfg.upstreams[i].variationId && v.strategy == cfg.input.strategies[i]
                && Some(ToolOutputOf(v)) == cfg.unmarshal(Join(cfg.upstreams[i].deltas))
    {
      ExpectedIsExact(cfg, i);
    }
    FailedHasNone(cfg, steps);
  }

  lemma FailedHasNone(cfg: Config, steps: seq<Step>)
    requires cfg.Valid() && Run(cfg, steps).Some?
    requires Enabled(cfg, Run(cfg, steps).value, Decide)
    ensures var g := Outcome(cfg, Run(cfg, steps).value).0;
            g.status != Completed ==> g.status == Failed && g.variations == []
  {
    FT.DecisionIsExact(cfg, steps);
  }

  // ---- cancelled too late ----

  /** Up to and including `wg.Wait`. */
  predicate Early(c: CoordinatorPC) {
    c == Starting || c.Spawning? || c == Waiting
  }

  lemma EarlyStep(cfg: Config, s: State, step: Step)
    requires Shaped(cfg, s) && Enabled(cfg, s, step) && FT.Internal(step) && !step.Decide?
    requires Early(s.coordinator) && !s.canceled
    ensures Early(Do(cfg, s, step).coordinator)
  {
  }

  /** With the client receiving, a run that has not been cancelled gets to its decision. */
  lemma {:induction false} ReachDecision(cfg: Config, steps: seq<Step>) returns (all: seq<Step>)
    requires cfg.Valid() && Run(cfg, steps).Some?
    requires var s := Run(cfg, steps).value; !s.canceled && s.consumer != Gone && Early(s.coordinator)
    ensures Run(cfg, all).Some?
    ensures !Run(cfg, all).value.canceled && Enabled(cfg, Run(cfg, all).value, Decide)
    decreases FT.Work(Run(cfg, steps).value)
  {
    FP.RunInv(cfg, steps);
    var s := Run(cfg, steps).value;
    if Enabled(cfg, s, Decide) {
      all := steps;
    } else {
      var step := FT.NextStep(cfg, s);
      var longer := Longer(cfg, steps, step);
      FT.WorkDrops(cfg, s, step);
      FT.InternalStepKeepsClient(cfg, s, step);
      EarlyStep(cfg, s, step);
      all := ReachDecision(cfg, longer);
    }
  }

  lemma Longer(cfg: Config, steps: seq<Step>, step: Step) returns (longer: seq<Step>)
    requires cfg.Valid() && Run(cfg, steps).Some? && Enabled(cfg, Run(cfg, steps).value, step)
    ensures longer == steps + [step] && Run(cfg, longer) == Some(Do(cfg, Run(cfg, steps).value, step))
  {
    longer := steps + [step];
    assert longer[..|steps|] == steps;
  }

  /** From the decision on: the client goes, the save succeeds, and the last event has nobody
      to receive it. */
  lemma CancelAfterDecision(cfg: Config, before: seq<Step>) returns (steps: seq<Step>)
    requires cfg.Valid() && Run(cfg, before).Some?
    requires !Run(cfg, before).value.canceled && Enabled(cfg, Run(cfg, before).value, Decide)
    ensures Run(cfg, steps).Some?
    ensures var s, s' := Run(cfg, before).value, Run(cfg, steps).value;
            && s'.canceled && s'.closes == s.closes + 1
            && s'.history == s.history + [Outcome(cfg, s).0]
            && s'.delivered == s.delivered
  {
    var s1 := Longer(cfg, before, Decide);
    var s2 := Longer(cfg, s1, Cancel);
    var s3 := Longer(cfg, s2, SaveTerminal(true, true));
    var s4 := Longer(cfg, s3, GiveUpOwn);
    steps := Longer(cfg, s4, CloseOut);
  }

  /** So whenever every upstream would succeed, a run can be cancelled, be over, have its
      record saved, and be stored as completed. */
  lemma LateCancelIsStoredCompleted(cfg: Config) returns (steps: seq<Step>)
    requires cfg.Valid() && forall i :: 0 <= i < cfg.Count() ==> Expected(cfg, i).Ok?
    ensures Run(cfg, steps).Some?
    ensures var s := Run(cfg, steps).value;
            && s.canceled && s.closes == 1 && s.delivered != []
            && |s.history| == 2 && s.history[1].status == Completed
  {
    assert Run(cfg, []) == Some(Init(cfg));
    var before := ReachDecision(cfg, []);
    FP.RunInv(cfg, before);
    OutcomeIsDetermined(cfg, before);
    steps := CancelAfterDecision(cfg, before);
  }
}
