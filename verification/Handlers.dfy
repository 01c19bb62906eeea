/** The `POST /v1/generate` handler as one request runs it, over the mutable stores. The
    faults of store and repository calls, and the events the fan-out delivers before the
    channel closes or the client goes away, are parameters. */
module Handlers {
  import opened Wrappers
  import opened Domain
  import opened ApiMapping
  import opened IdempotencyStore
  import opened Repository
  import RL = RateLimiter
  import S = Sessions
  import opened ContentKey
  import F = Fanout
  import FT = FanoutTheorems
  import Providers

  // ---- rate limiting ----

  /** `checkRateLimit`: no limiter, or one that fails, lets the request through. */
  method CheckRateLimit(w: Response, limiter: RL.RedisRateLimiter?, client: string, now: int, fault: Fault)
    returns (proceed: bool)
    requires w.Untouched()
    modifies w, limiter
    ensures limiter == null ==> proceed
    ensures limiter != null && fault != NoFault ==> proceed
    ensures limiter != null && fault == NoFault ==>
              var v := RL.Script(old(limiter.CellOf(client)), limiter.Limits(), now);
              && (proceed <==> v.allowed)
              && limiter.CellOf(client) == v.cell
              && (!proceed && v.ttl >= 0 ==> v.ttl <= w.retryAfter.GetOr(0) * 1000 < v.ttl + 1000)
    ensures if proceed then w.Untouched() else w.status == Some(429) && w.retryAfter.Some? && w.frames == []
  {
    if limiter == null {
      return true;
    }
    var answer := limiter.Allow(client, now, fault);
    if answer.None? {
      return true;
    }
    if !answer.value.allowed {
      var retryAfter := answer.value.retryAfterNs;
      var seconds := RL.TruncDiv(retryAfter, RL.NS_PER_SECOND);
      if RL.TruncMod(retryAfter, RL.NS_PER_SECOND) != 0 {
        seconds := seconds + 1;
      }
      w.retryAfter := Some(seconds);
      w.WriteProblem(429);
      ghost var v := RL.Script(old(limiter.CellOf(client)), limiter.Limits(), now);
      if v.ttl >= 0 { RL.HeaderCoversTtl(v.ttl); }
      return false;
    }
    return true;
  }

  // ---- idempotency ----

  datatype Decision = Proceed(grant: S.Grant) | Refuse | Replay(record: Generation)

  /** What `resolveIdempotencyConflict` decides from what the key and the table hold. */
  function Resolve(cell: Option<string>, rows: Table, getFault: Fault, loadOk: bool): Decision {
    if getFault != NoFault then Proceed(S.LookupFailed)
    else match Interpret(cell)
         case Err(StillPending) => Refuse
         case Err(_) => Proceed(S.KeyVanished)
         case Ok(id) =>
           if !loadOk || id !in rows then Proceed(S.RecordUnavailable)
           else match rows[id].status
                case Completed => Replay(rows[id])
                case Failed => Proceed(S.PriorFailed)
                case _ => Refuse
  }

  /** The decision is the one the concurrent model's lookup and load steps make. */
  lemma ResolveIsLookupThenLoad(w: S.World, q: S.Request, getFault: Fault, loadOk: bool)
    ensures var d := Resolve(w.cell, w.rows, getFault, loadOk);
            var q1 := S.LookupMove(w, q, getFault == NoFault);
            var q2 := if q1.pc.LoadingPrior? then S.LoadMove(w, q1, loadOk) else q1;
            && (d.Proceed? ==> q2 == S.Admit(q, d.grant).(pc := S.Admitted))
            && (d.Refuse? ==> q2.pc == S.Answered(S.Conflict))
            && (d.Replay? ==> q2.pc.Answered? && q2.pc.answer.Replayed? && q2.pc.answer.record == d.record)
  {
  }

  /** What `checkIdempotency` decides: the winner of Reserve proceeds, and so does a request
      whose Reserve call failed. */
  function Decide(cell: Option<string>, rows: Table, reserveFault: Fault, getFault: Fault, loadOk: bool): Decision {
    if reserveFault != NoFault then Proceed(S.ReserveFailed)
    else if SetNX(cell).1 then Proceed(S.Won)
    else Resolve(cell, rows, getFault, loadOk)
  }

  /** The decision, as a table over what the calls found. A call that fails never turns a request
      away, nor does a prior generation that failed or cannot be found; only a completed one is
      replayed, and it is the one the key names. */
  lemma DecisionTable(cell: Option<string>, rows: Table, reserveFault: Fault, getFault: Fault, loadOk: bool)
    ensures var d := Decide(cell, rows, reserveFault, getFault, loadOk);
            var answered := reserveFault == NoFault && getFault == NoFault && cell.Some?;
            var known := answered && cell.value != "pending" && loadOk && cell.value in rows;
            && (d.Refuse? <==>
                  || (answered && cell.value == "pending")
                  || (known && rows[cell.value].status in [Pending, Streaming]))
            && (d.Replay? <==> known && rows[cell.value].status == Completed)
            && (d.Replay? ==> d.record == rows[cell.value])
            && (d.Proceed? ==>
                  d.grant == if reserveFault != NoFault then S.ReserveFailed
                             else if cell == None then S.Won
                             else if getFault != NoFault then S.LookupFailed
                             else if !loadOk || cell.value !in rows then S.RecordUnavailable
                             else S.PriorFailed)
  {
  }

  /** The key after the Reserve call. */
  function Reserved(cell: Option<string>, fault: Fault): Option<string> {
    if fault == Lost then cell else SetNX(cell).0
  }

  /** The response to a request that must not proceed. */
  ghost predicate AnsweredBy(w: Response, d: Decision)
    reads w
  {
    match d
    case Proceed(_) => w.Untouched()
    case Refuse => w.status == Some(409) && w.frames == []
    case Replay(g) =>
      && w.status == Some(200) && w.generationHeader == Some(g.id)
      && (if w.flushable then w.broken || w.frames == ReplayFrames(g) else w.frames == [])
  }

  /** `checkIdempotency` with `resolveIdempotencyConflict`. */
  method CheckIdempotency(w: Response, store: RedisIdempotencyStore, repo: GenerationRepo, key: string, now: int,
                          reserveFault: Fault, getFault: Fault, loadOk: bool)
    returns (proceed: bool)
    requires w.Untouched() && store.ttl > 0
    modifies w, store
    ensures key == "" ==> proceed && store.entries == old(store.entries)
    ensures proceed ==> w.Untouched()
    ensures key != "" ==>
              var cell := old(store.Cell(key, now));
              var d := Decide(cell, repo.rows, reserveFault, getFault, loadOk);
              && (proceed <==> d.Proceed?)
              && AnsweredBy(w, d)
              && store.Cell(key, now) == Reserved(cell, reserveFault)
    ensures store.OnlyTouches(key)
  {
    if key == "" {
      return true;
    }
    var reserved := store.Reserve(key, now, reserveFault);
    if reserved.Err? {
      return true;
    }
    if reserved.value {
      return true;
    }
    var mapped := store.Get(key, now, getFault);
    if mapped.Err? {
      if mapped.error == StillPending {
        w.WriteProblem(409);
        return false;
      }
      return true;
    }
    var gen := repo.Get(mapped.value, loadOk);
    if gen.Err? {
      return true;
    }
    match gen.value.status
    case Completed =>
      WriteReplayedGeneration(w, gen.value);
      return false;
    case Failed =>
      return true;
    case _ =>
      w.WriteProblem(409);
      return false;
  }

  /** `releaseIdempotencyReservation`: a failure is only logged. */
  method ReleaseReservation(store: RedisIdempotencyStore, key: string, now: int, fault: Fault)
    modifies store
    ensures key == "" ==> store.entries == old(store.entries)
    ensures store.OnlyTouches(key)
    ensures key != "" ==> store.Cell(key, now) == Released(old(store.Cell(key, now)), fault)
  {
    if key == "" {
      return;
    }
    var _ := store.Release(key, now, fault);
  }

  function Released(cell: Option<string>, fault: Fault): Option<string> {
    if fault == Lost then cell else None
  }

  /** `saveIdempotencyMapping`: false only when a save was attempted and failed. */
  method SaveMapping(store: RedisIdempotencyStore, key: string, id: Option<string>, now: int, fault: Fault)
    returns (saved: bool)
    requires store.ttl > 0
    modifies store
    ensures store.OnlyTouches(key)
    ensures key == "" || id == None ==> saved && store.entries == old(store.entries)
    ensures key != "" && id.Some? ==>
              && (saved <==> fault == NoFault)
              && store.Cell(key, now) == if fault == Lost then old(store.Cell(key, now)) else id
  {
    if key == "" || id == None {
      return true;
    }
    saved := store.Save(key, id.value, now, fault);
  }

  /** The generation id in the first frame: None with no frame, Some(None) if it has no id. */
  function FirstId(events: seq<Event>): Option<Option<string>> {
    if events == [] then None else Some(ToChunk(events[0]).generationId)
  }

  /** The key after `streamSSE`, given what the first frame carried, if one was written. */
  function KeyAfterStream(cell: Option<string>, first: Option<Option<string>>, saveFault: Fault, releaseFault: Fault)
    : Option<string>
  {
    match first
    case None => Released(cell, releaseFault)
    case Some(None) => cell
    case Some(Some(id)) =>
      if saveFault == NoFault then Some(id)
      else Released(if saveFault == Lost then cell else Some(id), releaseFault)
  }

  /** `streamSSE`: one frame per event received, unless a write fails. The mapping is saved
      with the first event, and unless it was saved the reservation is released on the way
      out. */
  method StreamSSE(w: Response, events: seq<Event>, store: RedisIdempotencyStore, key: string, now: int,
                   saveFault: Fault, releaseFault: Fault)
    requires w.Untouched() && store.ttl > 0
    modifies w, store
    ensures w.frames <= Chunks(events)
    ensures if w.flushable then w.broken || w.frames == Chunks(events) else w.frames == []
    ensures w.status == if !w.flushable then Some(500) else if events == [] then None else Some(200)
    ensures w.flushable && events != [] ==> w.generationHeader == ToChunk(events[0]).generationId
    ensures store.OnlyTouches(key)
    ensures key == "" ==> store.entries == old(store.entries)
    ensures key != "" ==>
              store.Cell(key, now) == KeyAfterStream(old(store.Cell(key, now)),
                                                     if w.flushable then FirstId(events) else None,
                                                     saveFault, releaseFault)
    ensures w.flushable && events != [] && events[0].generation.Some? ==>
              && w.generationHeader == Some(events[0].generation.value.id)
              && (key != "" && saveFault == NoFault ==> store.Cell(key, now) == Some(events[0].generation.value.id))
    ensures key != "" && (!w.flushable || events == []) && releaseFault != Lost ==> store.Cell(key, now) == None
  {
    if !w.flushable {
      w.WriteProblem(500);
      ReleaseReservation(store, key, now, releaseFault);
      return;
    }
    ghost var cell := store.Cell(key, now);
    var headerWritten := false;
    var saved := false;
    var i := 0;
    while i < |events|
      invariant 0 <= i <= |events|
      invariant headerWritten <==> i > 0
      invariant w.frames == Chunks(events)[..i] && !w.broken
      invariant store.OnlyTouches(key)
      invariant key == "" ==> store.entries == old(store.entries)
      invariant !headerWritten ==> !saved && w.status == None && store.Cell(key, now) == cell
      invariant headerWritten ==> w.status == Some(200) && w.generationHeader == ToChunk(events[0]).generationId
      invariant headerWritten && key != "" ==>
                  AfterSave(store.Cell(key, now), saved, cell, w.generationHeader, saveFault)
    {
      var chunk := ToChunk(events[i]);
      if !headerWritten {
        w.WriteSSEHeader(chunk.generationId);
        headerWritten := true;
        saved := SaveMapping(store, key, chunk.generationId, now, saveFault);
      }
      var ok := w.WriteFrame(chunk);
      if !ok {
        break;
      }
      i := i + 1;
    }
    if !saved {
      ReleaseReservation(store, key, now, releaseFault);
    }
  }

  /** Between the mapping's save and the end of the stream. */
  predicate AfterSave(cell: Option<string>, saved: bool, before: Option<string>, id: Option<string>, fault: Fault) {
    && (saved <==> id.None? || fault == NoFault)
    && cell == if id.None? || fault == Lost then before else id
  }

  /** A reservation outlives its stream only if the first frame has no id, or the Release call
      never reached the store after the mapping did not either. */
  lemma ReservationOutlivesStream(first: Option<Option<string>>, saveFault: Fault, releaseFault: Fault)
    requires first != Some(Some(PENDING))
    ensures KeyAfterStream(Some(PENDING), first, saveFault, releaseFault) == Some(PENDING) <==>
              || first == Some(None)
              || (releaseFault == Lost && (first == None || saveFault == Lost))
  {
  }

  /** How a fault of the handler's calls reads as a move of the concurrent model. */
  function ReserveMove(fault: Fault): S.Move { S.Reserve(fault == NoFault, fault != Lost) }
  function SaveMove(fault: Fault): S.Move { S.SaveMapping(fault == NoFault, fault != Lost) }
  function ReleaseMove(fault: Fault): S.Move { S.Release(fault == NoFault, fault != Lost) }

  /** The handler's Reserve call, decision included, is the concurrent model's first move of a
      request: the same key afterwards, and let through for the same reason or sent to look
      the key up. */
  lemma DecideIsReserveMove(c: S.Client, w: S.World, reserveFault: Fault, getFault: Fault, loadOk: bool)
    requires |c.cfg.upstreams| == c.cfg.Count()
    ensures var q, move := S.NEW_REQUEST, ReserveMove(reserveFault);
            && S.MoveEnabled(c, q, move)
            && S.NewCell(w, q, move) == Reserved(w.cell, reserveFault)
            && var q' := S.NewRequest(c, w, q, move);
            var d := Decide(w.cell, w.rows, reserveFault, getFault, loadOk);
            if q'.pc == S.Resolving then d == Resolve(w.cell, w.rows, getFault, loadOk)
            else d.Proceed? && q' == S.Admit(q, d.grant)
  {
  }

  /** The key `streamSSE` leaves when it has handled its first event is the one the concurrent
      model leaves by saving the mapping and, unless that was saved, releasing. */
  lemma KeyAfterStreamIsSaveThenRelease(c: S.Client, w: S.World, q: S.Request, released: S.Request, id: string,
                                        saveFault: Fault, releaseFault: Fault)
    requires |c.cfg.upstreams| == c.cfg.Count() && q.run.Some? && F.Shaped(c.cfg, q.run.value)
    requires S.HasEvent(q) && !q.headerWritten && S.MappedId(q) == Some(id)
    ensures var save, release := SaveMove(saveFault), ReleaseMove(releaseFault);
            && S.MoveEnabled(c, q, save)
            && var q' := S.NewRequest(c, w, q, save);
            var w' := w.(cell := S.NewCell(w, q, save));
            && (q'.saved <==> saveFault == NoFault)
            && KeyAfterStream(w.cell, Some(Some(id)), saveFault, releaseFault)
                 == if q'.saved then w'.cell else S.NewCell(w', released, release)
  {
  }

  /** When no event ever came, or Execute was refused, it is the release alone. */
  lemma KeyAfterNothingIsRelease(w: S.World, q: S.Request, releaseFault: Fault)
    ensures var release := ReleaseMove(releaseFault);
            && KeyAfterStream(w.cell, None, NoFault, releaseFault) == S.NewCell(w, q, release)
            && forall e: Error, flushable: bool ::
                 KeyAfterProceeding(w.cell, Err(e), flushable, NoFault, releaseFault) == S.NewCell(w, q, release)
  {
  }

  /** And the first event of every run does carry the generation's id, whatever prefix of the
      run's events the handler received. */
  lemma FirstFrameHasId(cfg: F.Config, steps: seq<F.Step>, received: seq<Event>)
    requires cfg.Valid() && F.Run(cfg, steps).Some?
    requires received <= F.Run(cfg, steps).value.delivered
    ensures FirstId(received) == if received == [] then None else Some(Some(cfg.generation.id))
  {
    FT.EventOrder(cfg, steps);
    if received != [] {
      assert received[0] == F.Run(cfg, steps).value.delivered[0];
    }
  }

  /** Which key a request is deduplicated under: none without a store, the client's own if it
      sent one, otherwise the digest of its content. */
  function RequestKey(hasStore: bool, header: Option<string>, input: GenerateInput, digest: Key -> string): string {
    if !hasStore then ""
    else if header.Some? && header.value != "" then header.value
    else "content:" + digest(KeyOf(input))
  }

  /** The client's own key is used as it is, whatever the request asks; an empty header counts
      as none, and then the key starts with "content:"; without a store there is no key. */
  lemma RequestKeyCases(header: Option<string>, input: GenerateInput, other: GenerateInput, digest: Key -> string)
    ensures RequestKey(false, header, input, digest) == ""
    ensures header.GetOr("") != "" ==>
              && Some(RequestKey(true, header, input, digest)) == header
              && RequestKey(true, header, other, digest) == RequestKey(true, header, input, digest)
    ensures header.GetOr("") == "" ==>
              && RequestKey(true, header, input, digest) == RequestKey(true, None, input, digest)
              && "content:" <= RequestKey(true, header, input, digest)
  {
  }

  /** With an injective digest, requests without a key of their own share one exactly when
      they ask for the same thing. */
  lemma ImplicitKeysSeparate(a: GenerateInput, b: GenerateInput, digest: Key -> string)
    requires forall x, y :: digest(x) == digest(y) ==> x == y
    ensures RequestKey(true, None, a, digest) == RequestKey(true, None, b, digest) <==>
              && a.profile.(analyzedAt := b.profile.analyzedAt) == b.profile
              && multiset(a.strategies) == multiset(b.strategies)
              && a.currency == b.currency
  {
    KeySeparates(a, b);
    var x, y := digest(KeyOf(a)), digest(KeyOf(b));
    assert ("content:" + x)[8..] == x && ("content:" + y)[8..] == y;
  }

  /** The key after a request that was let through. */
  function KeyAfterProceeding(cell: Option<string>, executed: Result<seq<Event>, Error>, flushable: bool,
                              saveFault: Fault, releaseFault: Fault): Option<string>
  {
    match executed
    case Err(_) => Released(cell, releaseFault)
    case Ok(events) => KeyAfterStream(cell, if flushable then FirstId(events) else None, saveFault, releaseFault)
  }

  /** `GenerateVariations` after rate limiting and decoding. `executed` is what Execute would
      return: an error, or the events it goes on to deliver. */
  method GenerateVariations(w: Response, store: RedisIdempotencyStore, repo: GenerationRepo, key: string, now: int,
                            reserveFault: Fault, getFault: Fault, loadOk: bool,
                            executed: Result<seq<Event>, Error>, saveFault: Fault, releaseFault: Fault)
    requires w.Untouched() && store.ttl > 0
    modifies w, store
    ensures store.OnlyTouches(key)
    ensures key == "" ==> store.entries == old(store.entries)
    ensures key != "" ==>
              var cell := old(store.Cell(key, now));
              var d := Decide(cell, repo.rows, reserveFault, getFault, loadOk);
              var held := Reserved(cell, reserveFault);
              && (!d.Proceed? ==> AnsweredBy(w, d) && store.Cell(key, now) == held)
              && (d.Proceed? ==>
                    && StreamedOrRejected(w, executed)
                    && store.Cell(key, now) == KeyAfterProceeding(held, executed, w.flushable, saveFault, releaseFault))
    ensures key == "" ==> StreamedOrRejected(w, executed)
  {
    var proceed := CheckIdempotency(w, store, repo, key, now, reserveFault, getFault, loadOk);
    if !proceed {
      return;
    }
    if executed.Err? {
      ReleaseReservation(store, key, now, releaseFault);
      w.WriteProblem(if executed.error == InvalidInput then 422 else 500);
      return;
    }
    StreamSSE(w, executed.value, store, key, now, saveFault, releaseFault);
  }

  /** The response to a request that was let through. */
  ghost predicate StreamedOrRejected(w: Response, executed: Result<seq<Event>, Error>)
    reads w
  {
    match executed
    case Err(e) => w.status == Some(if e == InvalidInput then 422 else 500) && w.frames == []
    case Ok(events) => if w.flushable then w.broken || w.frames == Chunks(events) else w.status == Some(500)
  }

  // ---------- Execute's own part ----------

  /** `Execute` up to the start of `run`: validates, builds the streaming record, saves it. */
  method Execute(repo: GenerationRepo, input: GenerateInput, id: string, now: int, saveOk: bool, applied: bool)
    returns (r: Result<Generation, Error>)
    requires saveOk ==> applied
    modifies repo
    ensures r.Ok? <==> AcceptableInput(input) && saveOk
    ensures !AcceptableInput(input) ==> r == Err(InvalidInput) && repo.rows == old(repo.rows)
    ensures AcceptableInput(input) && !saveOk ==> r == Err(SaveFailed)
    ensures r.Ok? ==>
              && r.value.id == id && r.value.createdAt == now
              && r.value.sourceUrl == input.profile.url && r.value.profile == input.profile
              && r.value.status == Streaming && r.value.variations == []
              && repo.rows == Upsert(old(repo.rows), r.value)
  {
    var invalid := ValidateInput(input);
    if invalid.Some? {
      return Err(invalid.value);
    }
    var gen := Generation(id, input.profile.url, input.profile, Streaming, [], now);
    var saved := repo.Save(gen, saveOk, applied);
    if !saved {
      return Err(SaveFailed);
    }
    return Ok(gen);
  }

  /** Such a record is what the fan-out starts from. */
  lemma ExecutePrepares(input: GenerateInput, gen: Generation, upstreams: seq<F.UpstreamScript>,
                        unmarshal: string -> Option<Providers.ToolOutput>)
    requires AcceptableInput(input) && |upstreams| == |input.strategies|
    requires gen.sourceUrl == input.profile.url && gen.profile == input.profile
    requires gen.status == Streaming && gen.variations == []
    ensures F.Config(input, gen, upstreams, unmarshal).Valid()
  {
    assert forall i :: 0 <= i < |input.strategies| ==> input.strategies[i] in [ANCHOR, FREEMIUM, VALUE_BASED];
  }

  // ---------- the whole request ----------

  /** `POST /v1/generate` with a decoded body: the rate limit, the defaults, the key, and the
      rest. */
  method ServeGenerate(w: Response, limiter: RL.RedisRateLimiter?, client: string, req: ApiRequest,
                       store: RedisIdempotencyStore, hasStore: bool, header: Option<string>, digest: Key -> string,
                       repo: GenerationRepo, now: int, limitFault: Fault,
                       reserveFault: Fault, getFault: Fault, loadOk: bool,
                       executed: Result<seq<Event>, Error>, saveFault: Fault, releaseFault: Fault)
    returns (admitted: bool)
    requires w.Untouched() && store.ttl > 0
    modifies w, store, limiter
    ensures admitted <==>
              || limiter == null || limitFault != NoFault
              || RL.Script(old(limiter.CellOf(client)), limiter.Limits(), now).allowed
    ensures !admitted ==> w.status == Some(429) && w.frames == [] && store.entries == old(store.entries)
    ensures admitted ==>
              var key := RequestKey(hasStore, header, ToInput(req), digest);
              && store.OnlyTouches(key)
              && (key == "" ==> store.entries == old(store.entries) && StreamedOrRejected(w, executed))
              && (key != "" ==>
                    var cell := old(store.Cell(key, now));
                    var d := Decide(cell, repo.rows, reserveFault, getFault, loadOk);
                    var held := Reserved(cell, reserveFault);
                    && (!d.Proceed? ==> AnsweredBy(w, d) && store.Cell(key, now) == held)
                    && (d.Proceed? ==>
                          && StreamedOrRejected(w, executed)
                          && store.Cell(key, now)
                               == KeyAfterProceeding(held, executed, w.flushable, saveFault, releaseFault)))
  {
    admitted := CheckRateLimit(w, limiter, client, now, limitFault);
    if !admitted {
      return;
    }
    var key := RequestKey(hasStore, header, ToInput(req), digest);
    GenerateVariations(w, store, repo, key, now, reserveFault, getFault, loadOk, executed, saveFault, releaseFault);
  }
}
