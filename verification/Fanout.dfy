/** `GenerateVariations.run` and everything it runs beside: one coordinator, one goroutine
    and one provider goroutine per strategy, and the consumer of the unbuffered event
    channel. A step of the machine is one atomic action of one of them; a run is any
    interleaving. Cancellation may arrive between any two steps, and a select that can
    both deliver and give up may do either. */
module Fanout {
  import opened Wrappers
  import opened Domain
  import opened Providers

  /** What the SDK stream of one strategy would produce if never cancelled, and the id
      `uuid.NewString` would stamp on its variation. */
  datatype UpstreamScript = UpstreamScript(deltas: seq<string>, end: Option<Error>, variationId: string)

  datatype Config = Config(
    input: GenerateInput, generation: Generation, upstreams: seq<UpstreamScript>, unmarshal: Unmarshal)
  {
    function Count(): nat { |input.strategies| }

    /** The record `Execute` builds from the input, and one upstream per strategy. */
    ghost predicate Prepared() {
      && |upstreams| == Count()
      && generation.status == Streaming
      && generation.variations == []
      && generation.profile == input.profile
      && generation.sourceUrl == input.profile.url
    }

    /** What `run` relies on: any number of strategies, none twice and none unnamed.
        `Validate` establishes it and caps the number at three. */
    ghost predicate Valid() {
      && Prepared()
      && NoDuplicates(input.strategies)
      && forall i :: 0 <= i < |input.strategies| ==> input.strategies[i] != ""
    }

    function Strategy(i: nat): Strategy
      requires i < Count()
    {
      input.strategies[i]
    }

    function OpenError(i: nat): Option<Error>
      requires i < Count()
    {
      GenerationInputError(input.profile, Strategy(i), input.currency)
    }
  }

  // ---- Events ----

  function StartedEvent(g: Generation): Event { Event(GenerationStarted, "", "", None, Some(g), None) }
  function AnnounceEvent(s: Strategy): Event { Event(VariationStarted, s, "", None, None, None) }
  function StrategyErrorEvent(s: Strategy, e: Error): Event { Event(ErrorEvent, s, "", None, None, Some(e)) }
  function CompletedEvent(s: Strategy, v: Variation): Event { Event(VariationCompleted, s, "", Some(v), None, None) }
  function DoneEvent(g: Generation): Event { Event(Done, "", "", None, Some(g), None) }
  function AggregateErrorEvent(e: Error, g: Option<Generation>): Event { Event(ErrorEvent, "", "", None, g, Some(e)) }

  /** The event `streamStrategy` relays a chunk as. */
  function EventOf(s: Strategy, c: Chunk): Event {
    match c
    case Token(d) => Event(TokenEvent, s, d, None, None, None)
    case VariationDone(v) => CompletedEvent(s, v)
    case ChunkError(e) => StrategyErrorEvent(s, e)
  }

  function EventsOf(s: Strategy, chunks: seq<Chunk>): seq<Event> {
    seq(|chunks|, i requires 0 <= i < |chunks| => EventOf(s, chunks[i]))
  }

  // ---- State ----

  /** The provider goroutine of one strategy. `sent` is what has crossed its channel. */
  datatype ProducerPC = Unopened | Reading | Offering(chunk: Chunk) | Closing | Closed

  datatype Producer = Producer(pc: ProducerPC, rest: seq<string>, end: Option<Error>, json: string, sent: seq<Chunk>)

  datatype WorkerPC =
    | Unspawned
    | Announcing                    // in send(variation_started)
    | Opening                       // about to call StreamStructured
    | SendingOpenError(err: Error)  // StreamStructured failed; error recorded
    | Receiving                     // at the head of `for chunk := range chunks`
    | Handling(chunk: Chunk)        // received; not yet recorded
    | Sending(ev: Event)            // in send(ev)
    | Finished

  /** A strategy goroutine; `log` is the history of its delivered events. */
  datatype Worker = Worker(pc: WorkerPC, producer: Producer, log: seq<Event>)

  datatype CoordinatorPC =
    | Starting
    | Spawning(next: nat)
    | Waiting
    | Saving(gen: Generation, err: Option<Error>)
    | SendingFinal(ev: Event)
    | Returning
    | Returned

  /** `Busy` is a consumer that has received an event and has not come back for another. */
  datatype Consumer = Receptive | Busy | Gone

  datatype State = State(
    coordinator: CoordinatorPC,
    workers: seq<Worker>,
    variations: seq<Variation>,
    firstErr: Option<Error>,
    canceled: bool,
    consumer: Consumer,
    delivered: seq<Event>,       // events received by the consumer, in order
    history: seq<Generation>,    // writes that reached the repository for this id, in order
    terminalSaves: nat,          // terminal saves attempted
    closes: nat)                 // times the event channel was closed

  function InitWorker(u: UpstreamScript): Worker {
    Worker(Unspawned, Producer(Unopened, u.deltas, u.end, "", []), [])
  }

  /** The state when `Execute` has saved the streaming record and started `run`. */
  function Init(cfg: Config): State
    requires |cfg.upstreams| == cfg.Count()
  {
    State(Starting,
          seq(cfg.Count(), i requires 0 <= i < cfg.Count() => InitWorker(cfg.upstreams[i])),
          seq(cfg.Count(), i => ZERO_VARIATION),
          None, false, Receptive, [], [cfg.generation], 0, 0)
  }

  // ---- Steps ----

  datatype WorkerStep =
    | Deliver                        // a pending send is received by the consumer
    | GiveUp                         // a pending send sees ctx.Done
    | Open                           // StreamStructured is called
    | Read                           // the provider takes the next delta, or its terminal chunk
    | Cut(end: Option<Error>)        // the SDK stream ends early because the context is done
    | Handoff                        // a chunk crosses the provider's channel
    | ProducerGiveUp                 // sendChunk sees ctx.Done
    | CloseChunks                    // the provider's deferred close
    | Handle                         // setVariation / recordErr
    | EndRange                       // the strategy goroutine sees the closed channel

  datatype Step =
    | Cancel
    | Ready                          // the consumer comes back to receive
    | Leave                          // the consumer stops receiving
    | DeliverOwn                     // the coordinator's send is received
    | GiveUpOwn                      // the coordinator's send sees ctx.Done
    | Spawn
    | Decide                         // wg.Wait returns; the switch picks a status
    | SaveTerminal(ok: bool, applied: bool)   // a failing save may still have been applied
    | CloseOut
    | OfWorker(i: nat, ws: WorkerStep)

  /** The event a worker is trying to send. */
  function Outgoing(cfg: Config, i: nat, w: Worker): Option<Event>
    requires i < cfg.Count()
  {
    match w.pc
    case Announcing => Some(AnnounceEvent(cfg.Strategy(i)))
    case SendingOpenError(e) => Some(StrategyErrorEvent(cfg.Strategy(i), e))
    case Sending(ev) => Some(ev)
    case _ => None
  }

  predicate WorkerEnabled(cfg: Config, s: State, i: nat, ws: WorkerStep)
    requires i < cfg.Count() == |s.workers|
  {
    var w := s.workers[i];
    match ws
    case Deliver => Outgoing(cfg, i, w).Some? && s.consumer == Receptive
    case GiveUp => Outgoing(cfg, i, w).Some? && s.canceled
    case Open => w.pc == Opening
    case Read => w.producer.pc == Reading
    case Cut(_) => w.producer.pc == Reading && s.canceled
    case Handoff => w.pc == Receiving && w.producer.pc.Offering?
    case ProducerGiveUp => w.producer.pc.Offering? && s.canceled
    case CloseChunks => w.producer.pc == Closing
    case Handle => w.pc.Handling?
    case EndRange => w.pc == Receiving && w.producer.pc == Closed
  }

  /** `stream.Next`: the next delta (empty ones are skipped), or the terminal chunk. */
  function ReadNext(cfg: Config, i: nat, p: Producer): Producer
    requires i < cfg.Count() == |cfg.upstreams|
  {
    if p.rest != [] then
      if p.rest[0] == "" then p.(rest := p.rest[1..])
      else p.(pc := Offering(Token(p.rest[0])), rest := p.rest[1..], json := p.json + p.rest[0])
    else
      p.(pc := Offering(Terminal(cfg.Strategy(i), cfg.upstreams[i].variationId, p.json, p.end, cfg.unmarshal)))
  }

  function WorkerMove(cfg: Config, i: nat, w: Worker, ws: WorkerStep): Worker
    requires i < cfg.Count() == |cfg.upstreams|
  {
    var p := w.producer;
    match ws
    case Deliver =>
      var ev := Outgoing(cfg, i, w);
      if ev.None? then w else
      Worker(match w.pc case Announcing => Opening case Sending(_) => Receiving case _ => Finished,
             p, w.log + [ev.value])
    case GiveUp => w.(pc := Finished)
    case Open =>
      (match cfg.OpenError(i)
       case Some(e) => w.(pc := SendingOpenError(e))
       case None => w.(pc := Receiving, producer := p.(pc := Reading)))
    case Read => w.(producer := ReadNext(cfg, i, p))
    case Cut(end) => w.(producer := ReadNext(cfg, i, p.(rest := [], end := end)))
    case Handoff =>
      if !p.pc.Offering? then w else
      w.(pc := Handling(p.pc.chunk),
         producer := p.(pc := if p.pc.chunk.Token? then Reading else Closing, sent := p.sent + [p.pc.chunk]))
    case ProducerGiveUp => w.(producer := p.(pc := Closing))
    case CloseChunks => w.(producer := p.(pc := Closed))
    case Handle => if !w.pc.Handling? then w else w.(pc := Sending(EventOf(cfg.Strategy(i), w.pc.chunk)))
    case EndRange => w.(pc := Finished)
  }

  /** The error, if any, that the step passes to `recordErr`. */
  function Recorded(cfg: Config, i: nat, w: Worker, ws: WorkerStep): Option<Error>
    requires i < cfg.Count()
  {
    match ws
    case Open => (match cfg.OpenError(i) case Some(e) => Some(StreamFailed(cfg.Strategy(i), e)) case None => None)
    case Handle => if w.pc.Handling? && w.pc.chunk.ChunkError?
                   then Some(StreamFailed(cfg.Strategy(i), w.pc.chunk.error)) else None
    case _ => None
  }

  function WorkerDo(cfg: Config, s: State, i: nat, ws: WorkerStep): State
    requires i < cfg.Count() == |s.workers| == |s.variations| == |cfg.upstreams|
  {
    var w := s.workers[i];
    var recorded := Recorded(cfg, i, w, ws);
    var setsSlot := ws.Handle? && w.pc.Handling? && w.pc.chunk.VariationDone?;
    var delivers := ws.Deliver? && Outgoing(cfg, i, w).Some?;
    s.(workers := s.workers[i := WorkerMove(cfg, i, w, ws)],
       variations := if setsSlot then s.variations[i := w.pc.chunk.variation] else s.variations,
       firstErr := if s.firstErr.None? then recorded else s.firstErr,
       consumer := if delivers then Busy else s.consumer,
       delivered := if delivers then s.delivered + [Outgoing(cfg, i, w).value] else s.delivered)
  }

  predicate AllFinished(s: State) {
    forall i :: 0 <= i < |s.workers| ==> s.workers[i].pc == Finished
  }

  /** The event the coordinator is trying to send. */
  function OwnOutgoing(cfg: Config, s: State): Option<Event> {
    match s.coordinator
    case Starting => Some(StartedEvent(cfg.generation))
    case SendingFinal(ev) => Some(ev)
    case _ => None
  }

  /** The switch after `wg.Wait`. */
  function Outcome(cfg: Config, s: State): (Generation, Option<Error>) {
    if s.canceled then
      (cfg.generation.(status := Failed), if s.firstErr.None? then Some(Canceled) else s.firstErr)
    else if s.firstErr.Some? then
      (cfg.generation.(status := Failed), s.firstErr)
    else
      (cfg.generation.(status := Completed, variations := s.variations), None)
  }

  predicate Enabled(cfg: Config, s: State, step: Step)
    requires cfg.Count() == |s.workers|
  {
    match step
    case Cancel => !s.canceled
    case Ready => s.consumer == Busy
    case Leave => s.consumer != Gone
    case DeliverOwn => OwnOutgoing(cfg, s).Some? && s.consumer == Receptive
    case GiveUpOwn => OwnOutgoing(cfg, s).Some? && s.canceled
    case Spawn => s.coordinator.Spawning?
    case Decide => s.coordinator == Waiting && AllFinished(s)
    case SaveTerminal(ok, applied) => s.coordinator.Saving? && (ok ==> applied)
    case CloseOut => s.coordinator == Returning
    case OfWorker(i, ws) => i < cfg.Count() && WorkerEnabled(cfg, s, i, ws)
  }

  function SpawnNext(s: State): State
    requires s.coordinator.Spawning?
  {
    var k := s.coordinator.next;
    if k < |s.workers| then
      s.(coordinator := Spawning(k + 1), workers := s.workers[k := s.workers[k].(pc := Announcing)])
    else
      s.(coordinator := Waiting)
  }

  function SaveDo(s: State, ok: bool, applied: bool): State
    requires s.coordinator.Saving?
  {
    var gen, err := s.coordinator.gen, s.coordinator.err;
    var ev := if !ok then AggregateErrorEvent(SaveFailed, None)
              else if err.Some? then AggregateErrorEvent(err.value, Some(gen))
              else DoneEvent(gen);
    s.(coordinator := SendingFinal(ev),
       terminalSaves := s.terminalSaves + 1,
       history := if applied then s.history + [gen] else s.history)
  }

  function Do(cfg: Config, s: State, step: Step): State
    requires cfg.Count() == |s.workers| == |s.variations| == |cfg.upstreams|
    requires Enabled(cfg, s, step)
  {
    match step
    case Cancel => s.(canceled := true)
    case Ready => s.(consumer := Receptive)
    case Leave => s.(consumer := Gone)
    case DeliverOwn =>
      s.(coordinator := if s.coordinator == Starting then Spawning(0) else Returning,
         consumer := Busy,
         delivered := s.delivered + [OwnOutgoing(cfg, s).value])
    case GiveUpOwn => s.(coordinator := Returning)
    case Spawn => SpawnNext(s)
    case Decide => var (gen, err) := Outcome(cfg, s); s.(coordinator := Saving(gen, err))
    case SaveTerminal(ok, applied) => SaveDo(s, ok, applied)
    case CloseOut => s.(coordinator := Returned, closes := s.closes + 1)
    case OfWorker(i, ws) => WorkerDo(cfg, s, i, ws)
  }

  predicate Shaped(cfg: Config, s: State) {
    cfg.Count() == |s.workers| == |s.variations| == |cfg.upstreams|
  }

  lemma DoKeepsShape(cfg: Config, s: State, step: Step)
    requires Shaped(cfg, s) && Enabled(cfg, s, step)
    ensures Shaped(cfg, Do(cfg, s, step))
  {
  }

  /** The state an interleaving reaches, or None when one of its steps is not possible. */
  function Run(cfg: Config, steps: seq<Step>): (r: Option<State>)
    requires |cfg.upstreams| == cfg.Count()
    ensures r.Some? ==> Shaped(cfg, r.value)
  {
    if steps == [] then Some(Init(cfg))
    else
      var last := steps[|steps| - 1];
      match Run(cfg, steps[..|steps| - 1])
      case None => None
      case Some(s) => if Enabled(cfg, s, last) then Some(Do(cfg, s, last)) else None
  }
}
