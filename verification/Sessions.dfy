/** Any number of `POST /v1/generate` requests bearing the same idempotency key, each
    composed with its own fan-out, over one Redis key and one generations table. A step is
    one store call, one repository call, one handler action, or one step of some fan-out;
    calls may fail with or without having taken effect, and the key may expire at any time. */
module Sessions {
  import opened Wrappers
  import opened Domain
  import opened Repository
  import opened IdempotencyStore
  import F = Fanout

  /** Why a request was allowed to start a generation: it won `Reserve`, or it took one of
      the fail-open branches of `checkIdempotency` / `resolveIdempotencyConflict`. */
  datatype Grant =
    | Won
    | ReserveFailed      // Reserve returned an error
    | LookupFailed       // Get returned an error other than not-found
    | KeyVanished        // Get found nothing: the key went away after the lost Reserve
    | RecordUnavailable  // the mapped generation could not be loaded
    | PriorFailed        // the mapped generation is `failed`

  datatype Answer =
    | Conflict                                   // 409
    | Replayed(record: Generation, from: nat)    // `from`: whose generation it is (history only)
    | Rejected                                   // Execute returned an error
    | Unflushable                                // the response writer cannot stream
    | Streamed                                   // the SSE response ended

  datatype RequestPC =
    | Arrived
    | Resolving                          // lost Reserve; about to Get the key
    | LoadingPrior(id: string, from: nat) // about to load the generation it names
    | Admitted                           // about to call Execute
    | InStream                           // in streamSSE's loop
    | Releasing(outcome: Answer)           // about to call Release, then done
    | Answered(answer: Answer)

  datatype Request = Request(
    pc: RequestPC,
    grant: Option<Grant>,
    executed: bool,               // Execute was called
    run: Option<F.State>,         // the fan-out it started
    headerWritten: bool,
    saved: bool,                  // idempotencySaved
    releaseFailed: bool)

  const NEW_REQUEST := Request(Arrived, None, false, None, false, false, false)

  /** `author` is the request that last wrote the key (history only; Redis stores only the
      value). The counters are history too. */
  datatype World = World(
    requests: seq<Request>,
    cell: Option<string>,
    author: nat,
    rows: Table,
    wins: nat,          // SETNX calls that created the key
    reported: nat,      // of which the caller was told
    blindWrites: nat,   // SETs that created the key
    removals: nat,      // DELs and expiries of a present key
    faults: nat,        // store and repository calls that returned an error
    failOpens: nat)     // fail-open branches taken

  /** For each request, the fan-out its Execute would start, and its response writer. */
  datatype Client = Client(cfg: F.Config, flushable: bool)

  type Clients = seq<Client>

  ghost predicate ValidClients(cs: Clients) {
    && (forall r :: 0 <= r < |cs| ==> cs[r].cfg.Prepared() && cs[r].cfg.generation.id != PENDING)
    && (forall q, r :: 0 <= q < r < |cs| ==> cs[q].cfg.generation.id != cs[r].cfg.generation.id)
  }

  function Id(cs: Clients, r: nat): string
    requires r < |cs|
  {
    cs[r].cfg.generation.id
  }

  function Init(cs: Clients): World {
    World(seq(|cs|, i => NEW_REQUEST), None, 0, map[], 0, 0, 0, 0, 0, 0)
  }

  datatype Move =
    | Reserve(ok: bool, applied: bool)
    | Lookup(ok: bool)
    | Load(ok: bool)
    | Execute(ok: bool, applied: bool)
    | RunStep(fs: F.Step)
    | SaveMapping(ok: bool, applied: bool)
    | WriteFrame(ok: bool)
    | Return
    | Release(ok: bool, applied: bool)

  datatype Step = Act(r: nat, move: Move) | Expire

  predicate Sized(cs: Clients, w: World) {
    && |w.requests| == |cs|
    && forall r :: 0 <= r < |cs| && w.requests[r].run.Some? ==> F.Shaped(cs[r].cfg, w.requests[r].run.value)
  }

  predicate HasEvent(q: Request) {
    q.pc == InStream && q.run.Some? && q.run.value.consumer == F.Busy && q.run.value.delivered != []
  }

  predicate MoveEnabled(c: Client, q: Request, move: Move)
    requires q.run.Some? ==> F.Shaped(c.cfg, q.run.value)
  {
    match move
    case Reserve(ok, applied) => q.pc == Arrived && (ok ==> applied)
    case Lookup(_) => q.pc == Resolving
    case Load(_) => q.pc.LoadingPrior?
    case Execute(ok, applied) =>
      q.pc == Admitted && (ok ==> applied) && (!AcceptableInput(c.cfg.input) ==> !applied)
    case RunStep(fs) =>
      q.run.Some? && F.Enabled(c.cfg, q.run.value, fs) && !fs.Ready? && !fs.Leave?
    case SaveMapping(ok, applied) => HasEvent(q) && !q.headerWritten && (ok ==> applied)
    case WriteFrame(_) => HasEvent(q) && q.headerWritten
    case Return =>
      && q.pc == InStream && q.run.Some? && q.run.value.consumer == F.Receptive
      && (q.run.value.canceled || q.run.value.closes > 0)
    case Release(ok, applied) => q.pc.Releasing? && (ok ==> applied)
  }

  predicate Enabled(cs: Clients, w: World, step: Step)
    requires Sized(cs, w)
  {
    match step
    case Act(r, move) => r < |cs| && MoveEnabled(cs[r], w.requests[r], move)
    case Expire => w.cell.Some?
  }

  function Admit(q: Request, g: Grant): Request {
    q.(pc := Admitted, grant := Some(g))
  }

  /** streamSSE returns: the deferred release runs unless the mapping was saved. */
  function StopStreaming(q: Request): Request {
    q.(pc := if q.saved then Answered(Streamed) else Releasing(Streamed),
       run := if q.run.Some? then Some(q.run.value.(consumer := F.Gone)) else None)
  }

  function LookupMove(w: World, q: Request, ok: bool): Request {
    if !ok then Admit(q, LookupFailed)
    else match Interpret(w.cell)
         case Ok(id) => q.(pc := LoadingPrior(id, w.author))
         case Err(StillPending) => q.(pc := Answered(Conflict))
         case Err(_) => Admit(q, KeyVanished)
  }

  function LoadMove(w: World, q: Request, ok: bool): Request
    requires q.pc.LoadingPrior?
  {
    if !ok || q.pc.id !in w.rows then Admit(q, RecordUnavailable)
    else
      var record := w.rows[q.pc.id];
      match record.status
      case Completed => q.(pc := Answered(Replayed(record, q.pc.from)))
      case Failed => Admit(q, PriorFailed)
      case _ => q.(pc := Answered(Conflict))
  }

  /** `Execute`, then the start of `streamSSE`. */
  function ExecuteMove(c: Client, q: Request, ok: bool): Request
    requires |c.cfg.upstreams| == c.cfg.Count()
  {
    if !ok then q.(pc := Releasing(Rejected), executed := true)
    else if c.flushable then q.(pc := InStream, executed := true, run := Some(F.Init(c.cfg)))
    else q.(pc := Releasing(Unflushable), executed := true, run := Some(F.Init(c.cfg).(consumer := F.Gone)))
  }

  /** The generation id carried by the event being handled, which is the first one. */
  function MappedId(q: Request): Option<string>
    requires HasEvent(q)
  {
    var d := q.run.value.delivered;
    match d[|d| - 1].generation
    case Some(g) => Some(g.id)
    case None => None
  }

  function NewRequest(c: Client, w: World, q: Request, move: Move): Request
    requires q.run.Some? ==> F.Shaped(c.cfg, q.run.value)
    requires |c.cfg.upstreams| == c.cfg.Count()
    requires MoveEnabled(c, q, move)
  {
    match move
    case Reserve(ok, _) =>
      if !ok then Admit(q, ReserveFailed)
      else if SetNX(w.cell).1 then Admit(q, Won)
      else q.(pc := Resolving)
    case Lookup(ok) => LookupMove(w, q, ok)
    case Load(ok) => LoadMove(w, q, ok)
    case Execute(ok, _) => ExecuteMove(c, q, ok)
    case RunStep(fs) => q.(run := Some(F.Do(c.cfg, q.run.value, fs)))
    case SaveMapping(ok, _) => q.(headerWritten := true, saved := ok || MappedId(q).None?)
    case WriteFrame(ok) =>
      if ok then q.(run := Some(q.run.value.(consumer := F.Receptive))) else StopStreaming(q)
    case Return => StopStreaming(q)
    case Release(ok, _) => q.(pc := Answered(q.pc.outcome), releaseFailed := !ok)
  }

  /** The key after the move. */
  function NewCell(w: World, q: Request, move: Move): Option<string>
    requires move.SaveMapping? ==> HasEvent(q)
  {
    match move
    case Reserve(_, applied) => if applied then SetNX(w.cell).0 else w.cell
    case SaveMapping(_, applied) => if applied && MappedId(q).Some? then MappedId(q) else w.cell
    case Release(_, applied) => if applied then None else w.cell
    case _ => w.cell
  }

  function NewAuthor(w: World, r: nat, q: Request, move: Move): nat
    requires move.SaveMapping? ==> HasEvent(q)
  {
    match move
    case Reserve(_, applied) => if applied && w.cell.None? then r else w.author
    case SaveMapping(_, applied) => if applied && MappedId(q).Some? then r else w.author
    case _ => w.author
  }

  function NewRows(c: Client, w: World, q: Request, q': Request, move: Move): Table {
    match move
    case Execute(_, applied) => if applied then Upsert(w.rows, c.cfg.generation) else w.rows
    case RunStep(_) =>
      if q.run.Some? && q'.run.Some? && |q'.run.value.history| > |q.run.value.history| && q'.run.value.history != []
      then Upsert(w.rows, q'.run.value.history[|q'.run.value.history| - 1])
      else w.rows
    case _ => w.rows
  }

  function Failures(c: Client, move: Move): nat {
    match move
    case Reserve(ok, _) => if ok then 0 else 1
    case Lookup(ok) => if ok then 0 else 1
    case Load(ok) => if ok then 0 else 1
    case Execute(ok, _) => if !ok && AcceptableInput(c.cfg.input) then 1 else 0
    case RunStep(fs) => if fs.SaveTerminal? && !fs.ok then 1 else 0
    case SaveMapping(ok, _) => if ok then 0 else 1
    case Release(ok, _) => if ok then 0 else 1
    case _ => 0
  }

  function Do(cs: Clients, w: World, step: Step): World
    requires Sized(cs, w) && Enabled(cs, w, step)
    requires forall r :: 0 <= r < |cs| ==> |cs[r].cfg.upstreams| == cs[r].cfg.Count()
  {
    match step
    case Expire => w.(cell := None, removals := w.removals + 1)
    case Act(r, move) =>
      var c, q := cs[r], w.requests[r];
      var q' := NewRequest(c, w, q, move);
      var cell' := NewCell(w, q, move);
      var created := w.cell.None? && cell'.Some?;
      World(w.requests[r := q'],
            cell',
            NewAuthor(w, r, q, move),
            NewRows(c, w, q, q', move),
            w.wins + (if move.Reserve? && created then 1 else 0),
            w.reported + (if move.Reserve? && move.ok && created then 1 else 0),
            w.blindWrites + (if move.SaveMapping? && created then 1 else 0),
            w.removals + (if w.cell.Some? && cell'.None? then 1 else 0),
            w.faults + Failures(c, move),
            w.failOpens + (if q.grant.None? && q'.grant.Some? && q'.grant.value != Won then 1 else 0))
  }

  lemma MoveKeepsShape(c: Client, w: World, q: Request, move: Move)
    requires c.cfg.Prepared()
    requires q.run.Some? ==> F.Shaped(c.cfg, q.run.value)
    requires MoveEnabled(c, q, move)
    ensures var q' := NewRequest(c, w, q, move); q'.run.Some? ==> F.Shaped(c.cfg, q'.run.value)
  {
    if move.RunStep? {
      F.DoKeepsShape(c.cfg, q.run.value, move.fs);
    }
  }

  lemma DoKeepsSize(cs: Clients, w: World, step: Step)
    requires ValidClients(cs) && Sized(cs, w) && Enabled(cs, w, step)
    ensures Sized(cs, Do(cs, w, step))
  {
    if step.Act? {
      MoveKeepsShape(cs[step.r], w, w.requests[step.r], step.move);
    }
  }

  /** The world an interleaving reaches from an unused key, if all its steps are possible. */
  ghost function Run(cs: Clients, steps: seq<Step>): (w: Option<World>)
    requires ValidClients(cs)
    ensures w.Some? ==> Sized(cs, w.value)
  {
    if steps == [] then Some(Init(cs))
    else
      var last := steps[|steps| - 1];
      match Run(cs, steps[..|steps| - 1])
      case None => None
      case Some(w) =>
        if Enabled(cs, w, last) then
          DoKeepsSize(cs, w, last);
          Some(Do(cs, w, last))
        else None
  }
}
