/** What every interleaving of requests on one idempotency key keeps. */
module SessionProofs {
  import opened Wrappers
  import opened Domain
  import opened Repository
  import opened IdempotencyStore
  import opened Sessions
  import F = Fanout
  import FP = FanoutProofs

  // ---- what a request's own fan-out may do to it ----

  lemma FanoutStepEffect(cfg: F.Config, s: F.State, fs: F.Step)
    requires cfg.Valid() && FP.Inv(cfg, s) && F.Enabled(cfg, s, fs) && !fs.Ready? && !fs.Leave?
    ensures FP.Inv(cfg, F.Do(cfg, s, fs))
    ensures var s' := F.Do(cfg, s, fs);
            || (s'.consumer == s.consumer && s'.delivered == s.delivered)
            || (s.consumer == F.Receptive && s'.consumer == F.Busy && |s'.delivered| == |s.delivered| + 1)
    ensures var s' := F.Do(cfg, s, fs);
            s'.history == s.history || (fs.SaveTerminal? && |s'.history| == |s.history| + 1 && s.history <= s'.history)
  {
    FP.StepInv(cfg, s, fs);
  }

  ghost predicate RunOk(c: Client, q: Request) {
    q.run.Some? ==> c.cfg.Valid() && FP.Inv(c.cfg, q.run.value)
  }

  /** The control flow of one request, and what its flags mean. */
  predicate FlowOk(q: Request) {
    match q.pc
    case Arrived => q == NEW_REQUEST
    case Resolving => q == NEW_REQUEST.(pc := q.pc)
    case LoadingPrior(_, _) => q == NEW_REQUEST.(pc := q.pc)
    case Admitted => q == NEW_REQUEST.(pc := q.pc, grant := q.grant) && q.grant.Some?
    case InStream =>
      && q.grant.Some? && q.executed && q.run.Some?
      && q.run.value.consumer != F.Gone
      && (q.saved ==> q.headerWritten)
      && !q.releaseFailed
      && if q.headerWritten then q.run.value.delivered != []
         else |q.run.value.delivered| == if q.run.value.consumer == F.Busy then 1 else 0
    case Releasing(a) =>
      && q.grant.Some? && q.executed && !q.saved && !q.releaseFailed
      && (a == Rejected || a == Unflushable || a == Streamed)
      && (q.run.Some? ==> q.run.value.consumer == F.Gone)
    case Answered(a) =>
      if a == Conflict || a.Replayed? then q == NEW_REQUEST.(pc := q.pc)
      else
        && q.grant.Some? && q.executed
        && (q.saved ==> q.run.Some? && q.run.value.delivered != [])
        && (q.run.Some? ==> q.run.value.consumer == F.Gone)
  }

  /** The first event of every run carries the generation being streamed. */
  lemma FirstEventNamesGeneration(c: Client, q: Request)
    requires RunOk(c, q) && FlowOk(q) && HasEvent(q) && !q.headerWritten
    ensures MappedId(q) == Some(c.cfg.generation.id)
  {
  }

  lemma RunStepRequest(c: Client, w: World, q: Request, fs: F.Step)
    requires c.cfg.Prepared() && RunOk(c, q) && FlowOk(q)
    requires q.run.Some? && F.Shaped(c.cfg, q.run.value)
    requires MoveEnabled(c, q, RunStep(fs))
    ensures var q' := NewRequest(c, w, q, RunStep(fs)); RunOk(c, q') && FlowOk(q')
    ensures var q' := NewRequest(c, w, q, RunStep(fs));
            q'.run.Some? && q.run.value.history <= q'.run.value.history &&
            (q.run.value.delivered != [] ==> q'.run.value.delivered != [])
  {
    FanoutStepEffect(c.cfg, q.run.value, fs);
  }

  lemma HandlerMoveRequest(c: Client, w: World, q: Request, move: Move)
    requires c.cfg.Prepared() && RunOk(c, q) && FlowOk(q)
    requires q.run.Some? ==> F.Shaped(c.cfg, q.run.value)
    requires MoveEnabled(c, q, move) && (move.WriteFrame? || move.Return? || move.SaveMapping?)
    ensures var q' := NewRequest(c, w, q, move); RunOk(c, q') && FlowOk(q')
  {
    FP.ConsumerInv(c.cfg, q.run.value, F.Gone);
    FP.ConsumerInv(c.cfg, q.run.value, F.Receptive);
  }

  lemma AdmissionMoveRequest(c: Client, w: World, q: Request, move: Move)
    requires c.cfg.Prepared() && RunOk(c, q) && FlowOk(q)
    requires q.run.Some? ==> F.Shaped(c.cfg, q.run.value)
    requires MoveEnabled(c, q, move)
    requires move.Reserve? || move.Lookup? || move.Load? || move.Release? || move.Execute?
    ensures var q' := NewRequest(c, w, q, move); RunOk(c, q') && FlowOk(q')
  {
    if move.Execute? && move.ok {
      FP.InitInv(c.cfg);
      FP.ConsumerInv(c.cfg, F.Init(c.cfg), F.Gone);
    }
  }

  lemma MoveRequest(c: Client, w: World, q: Request, move: Move)
    requires c.cfg.Prepared() && RunOk(c, q) && FlowOk(q)
    requires q.run.Some? ==> F.Shaped(c.cfg, q.run.value)
    requires MoveEnabled(c, q, move)
    ensures var q' := NewRequest(c, w, q, move); RunOk(c, q') && FlowOk(q')
  {
    match move
    case RunStep(fs) => RunStepRequest(c, w, q, fs);
    case WriteFrame(_) => HandlerMoveRequest(c, w, q, move);
    case Return => HandlerMoveRequest(c, w, q, move);
    case SaveMapping(_, _) => HandlerMoveRequest(c, w, q, move);
    case _ => AdmissionMoveRequest(c, w, q, move);
  }

  // ---- the key ----

  /** The request owns an unresolved reservation and has yet to replace or delete it. */
  predicate WillResolve(q: Request) {
    || q.pc == Admitted
    || (q.pc == InStream && !q.saved)
    || q.pc.Releasing?
    || q.releaseFailed
  }

  /** The request started a generation whose generation_started was received. */
  predicate HasStarted(q: Request) {
    q.run.Some? && q.run.value.delivered != []
  }

  ghost predicate KeyOk(cs: Clients, w: World)
    requires Sized(cs, w)
  {
    w.cell.Some? ==>
      && w.author < |cs|
      && if w.cell.value == PENDING then WillResolve(w.requests[w.author])
         else w.cell.value == Id(cs, w.author) && HasStarted(w.requests[w.author])
  }

  /** A request that looked the key up holds the id of a generation that had started. */
  ghost predicate PriorOk(cs: Clients, w: World)
    requires Sized(cs, w)
  {
    forall r :: 0 <= r < |cs| && w.requests[r].pc.LoadingPrior? ==>
      var id, from := w.requests[r].pc.id, w.requests[r].pc.from;
      from < |cs| && id == Id(cs, from) && HasStarted(w.requests[from])
  }

  /** The table row of a running generation is the last record its run wrote. */
  ghost predicate RowsOk(cs: Clients, w: World)
    requires Sized(cs, w)
  {
    forall r :: 0 <= r < |cs| ==> RowOk(cs[r], w.requests[r], w.rows)
  }

  ghost predicate RowOk(c: Client, q: Request, rows: Table) {
    var g := c.cfg.generation;
    && (g.id in rows ==> rows[g.id].createdAt == g.createdAt)
    && (q.run.Some? ==>
          var h := q.run.value.history;
          h != [] && g.id in rows && rows[g.id] == h[|h| - 1])
  }

  /** A replayed record is the completed one of a run whose first event was received. */
  ghost predicate ReplaysOk(cs: Clients, w: World)
    requires Sized(cs, w)
  {
    forall r :: 0 <= r < |cs| && w.requests[r].pc.Answered? && w.requests[r].pc.answer.Replayed? ==>
      var a := w.requests[r].pc.answer;
      a.from < |cs| && ReplaySource(cs[a.from], w.requests[a.from], a.record)
  }

  ghost predicate ReplaySource(c: Client, q: Request, record: Generation) {
    && record.status == Completed
    && HasStarted(q)
    && RunOk(c, q)
    && |q.run.value.history| == 2
    && q.run.value.history[1] == record
  }

  ghost predicate RequestsOk(cs: Clients, w: World)
    requires Sized(cs, w)
  {
    forall r :: 0 <= r < |cs| ==> RunOk(cs[r], w.requests[r]) && FlowOk(w.requests[r])
  }

  ghost predicate CountersOk(w: World) {
    && w.wins + w.blindWrites == w.removals + (if w.cell.Some? then 1 else 0)
    && w.reported <= w.wins
  }

  ghost predicate Inv(cs: Clients, w: World) {
    && Sized(cs, w)
    && RequestsOk(cs, w)
    && KeyOk(cs, w)
    && PriorOk(cs, w)
    && RowsOk(cs, w)
    && ReplaysOk(cs, w)
    && CountersOk(w)
  }

  lemma RequestsOkStep(cs: Clients, w: World, step: Step)
    requires ValidClients(cs) && Inv(cs, w) && Enabled(cs, w, step)
    ensures Sized(cs, Do(cs, w, step)) && RequestsOk(cs, Do(cs, w, step))
  {
    DoKeepsSize(cs, w, step);
    if step.Act? {
      MoveRequest(cs[step.r], w, w.requests[step.r], step.move);
    }
  }

  /** A move never takes back a start, and keeps or extends the run's history. */
  lemma MoveKeepsStart(c: Client, w: World, q: Request, move: Move)
    requires c.cfg.Prepared() && RunOk(c, q) && FlowOk(q)
    requires q.run.Some? ==> F.Shaped(c.cfg, q.run.value)
    requires MoveEnabled(c, q, move)
    ensures var q' := NewRequest(c, w, q, move);
            && (HasStarted(q) ==> HasStarted(q'))
            && (q.run.Some? ==> q'.run.Some? && q.run.value.history <= q'.run.value.history)
            && (q.run.Some? && !move.RunStep? ==> q.run.value.history == q'.run.value.history)
            && (q.run.None? && q'.run.Some? ==>
                  move == Execute(true, true) && q'.run.value.history == [c.cfg.generation])
  {
    if move.RunStep? {
      RunStepRequest(c, w, q, move.fs);
    }
  }

  /** What a request keeps once it has it. */
  predicate Grew(q: Request, q': Request) {
    && (HasStarted(q) ==> HasStarted(q'))
    && (q.run.Some? ==> q'.run.Some? && q.run.value.history <= q'.run.value.history)
  }

  /** Two worlds that differ in one request only, which has grown. */
  ghost predicate Moved(cs: Clients, w: World, w': World, r: nat) {
    && r < |cs| == |w.requests| == |w'.requests|
    && Grew(w.requests[r], w'.requests[r])
    && forall i :: 0 <= i < |cs| && i != r ==> w'.requests[i] == w.requests[i]
  }

  lemma DoMoves(cs: Clients, w: World, r: nat, move: Move)
    requires ValidClients(cs) && Inv(cs, w) && Enabled(cs, w, Act(r, move))
    ensures var w' := Do(cs, w, Act(r, move));
            && Moved(cs, w, w', r)
            && w'.requests[r] == NewRequest(cs[r], w, w.requests[r], move)
            && w'.cell == NewCell(w, w.requests[r], move)
            && w'.author == NewAuthor(w, r, w.requests[r], move)
            && w'.rows == NewRows(cs[r], w, w.requests[r], w'.requests[r], move)
  {
    MoveKeepsStart(cs[r], w, w.requests[r], move);
  }

  /** What the move wrote to the key, if anything. */
  lemma KeyWrite(c: Client, w: World, r: nat, q: Request, move: Move)
    requires c.cfg.Prepared() && RunOk(c, q) && FlowOk(q)
    requires q.run.Some? ==> F.Shaped(c.cfg, q.run.value)
    requires MoveEnabled(c, q, move)
    ensures var cell', author', q' := NewCell(w, q, move), NewAuthor(w, r, q, move), NewRequest(c, w, q, move);
            || (cell' == w.cell && author' == w.author)
            || cell' == None
            || (cell' == Some(PENDING) && author' == r && WillResolve(q'))
            || (cell' == Some(c.cfg.generation.id) && author' == r && HasStarted(q'))
  {
    if move.SaveMapping? {
      FirstEventNamesGeneration(c, q);
    }
  }

  /** Saving the mapping overwrites the sentinel, and the only other way out of owing a
      resolution is to delete the key. */
  lemma PendingKept(c: Client, w: World, r: nat, q: Request, move: Move)
    requires c.cfg.Prepared() && RunOk(c, q) && FlowOk(q) && c.cfg.generation.id != PENDING
    requires q.run.Some? ==> F.Shaped(c.cfg, q.run.value)
    requires MoveEnabled(c, q, move) && WillResolve(q) && w.cell == Some(PENDING)
    ensures NewCell(w, q, move) == Some(PENDING) ==> WillResolve(NewRequest(c, w, q, move))
  {
    if move.SaveMapping? {
      FirstEventNamesGeneration(c, q);
    }
  }

  lemma KeyKept(cs: Clients, w: World, w': World, r: nat)
    requires Sized(cs, w) && Sized(cs, w') && ValidClients(cs) && KeyOk(cs, w) && Moved(cs, w, w', r)
    requires || (w'.cell == w.cell && w'.author == w.author)
             || w'.cell == None
             || (w'.cell == Some(PENDING) && w'.author == r && WillResolve(w'.requests[r]))
             || (w'.cell == Some(Id(cs, r)) && w'.author == r && HasStarted(w'.requests[r]))
    requires w.cell == Some(PENDING) && w'.cell == Some(PENDING) && WillResolve(w.requests[r]) ==>
               WillResolve(w'.requests[r])
    ensures KeyOk(cs, w')
  {
  }

  lemma KeyOkStep(cs: Clients, w: World, step: Step)
    requires ValidClients(cs) && Inv(cs, w) && Enabled(cs, w, step)
    requires Sized(cs, Do(cs, w, step))
    ensures KeyOk(cs, Do(cs, w, step))
  {
    if step.Act? {
      var r, move := step.r, step.move;
      var c, q := cs[r], w.requests[r];
      DoMoves(cs, w, r, move);
      KeyWrite(c, w, r, q, move);
      if WillResolve(q) && w.cell == Some(PENDING) { PendingKept(c, w, r, q, move); }
      KeyKept(cs, w, Do(cs, w, step), r);
    }
  }

  /** A request comes to hold an id only by reading it from the key. */
  lemma PriorsComeFromKey(c: Client, w: World, q: Request, move: Move)
    requires c.cfg.Prepared()
    requires q.run.Some? ==> F.Shaped(c.cfg, q.run.value)
    requires MoveEnabled(c, q, move)
    ensures var q' := NewRequest(c, w, q, move);
            q'.pc.LoadingPrior? ==>
              || q'.pc == q.pc
              || (move == Lookup(true) && w.cell == Some(q'.pc.id) && q'.pc.id != PENDING && q'.pc.from == w.author)
  {
  }

  lemma PriorKept(cs: Clients, w: World, w': World, r: nat)
    requires Sized(cs, w) && Sized(cs, w') && KeyOk(cs, w) && PriorOk(cs, w) && Moved(cs, w, w', r)
    requires var pc' := w'.requests[r].pc;
             pc'.LoadingPrior? ==>
               || pc' == w.requests[r].pc
               || (w.cell == Some(pc'.id) && pc'.id != PENDING && pc'.from == w.author)
    ensures PriorOk(cs, w')
  {
    forall i | 0 <= i < |cs| && w'.requests[i].pc.LoadingPrior?
      ensures var id, from := w'.requests[i].pc.id, w'.requests[i].pc.from;
              from < |cs| && id == Id(cs, from) && HasStarted(w'.requests[from])
    {
      var from := w'.requests[i].pc.from;
      assert HasStarted(w.requests[from]);
    }
  }

  lemma PriorOkStep(cs: Clients, w: World, step: Step)
    requires ValidClients(cs) && Inv(cs, w) && Enabled(cs, w, step)
    requires Sized(cs, Do(cs, w, step))
    ensures PriorOk(cs, Do(cs, w, step))
  {
    if step.Act? {
      DoMoves(cs, w, step.r, step.move);
      PriorsComeFromKey(cs[step.r], w, w.requests[step.r], step.move);
      PriorKept(cs, w, Do(cs, w, step), step.r);
    }
  }

  /** Only the request's own row can change. */
  lemma OtherRows(c: Client, w: World, q: Request, move: Move, id: string)
    requires c.cfg.Prepared() && RunOk(c, q) && FlowOk(q)
    requires q.run.Some? ==> F.Shaped(c.cfg, q.run.value)
    requires MoveEnabled(c, q, move) && id != c.cfg.generation.id
    ensures var rows' := NewRows(c, w, q, NewRequest(c, w, q, move), move);
            (id in rows' <==> id in w.rows) && (id in w.rows ==> rows'[id] == w.rows[id])
  {
    if move.RunStep? {
      FanoutStepEffect(c.cfg, q.run.value, move.fs);
    }
  }

  lemma OwnRow(c: Client, w: World, q: Request, move: Move)
    requires c.cfg.Prepared() && RunOk(c, q) && FlowOk(q)
    requires q.run.Some? ==> F.Shaped(c.cfg, q.run.value)
    requires MoveEnabled(c, q, move) && RowOk(c, q, w.rows)
    ensures var q' := NewRequest(c, w, q, move); RowOk(c, q', NewRows(c, w, q, q', move))
  {
    if move.RunStep? {
      OwnRowRunStep(c, w, q, move.fs);
    } else {
      MoveKeepsStart(c, w, q, move);
    }
  }

  lemma OwnRowRunStep(c: Client, w: World, q: Request, fs: F.Step)
    requires c.cfg.Prepared() && RunOk(c, q)
    requires q.run.Some? && F.Shaped(c.cfg, q.run.value)
    requires MoveEnabled(c, q, RunStep(fs)) && RowOk(c, q, w.rows)
    ensures var q' := NewRequest(c, w, q, RunStep(fs)); RowOk(c, q', NewRows(c, w, q, q', RunStep(fs)))
  {
    var s := q.run.value;
    FanoutStepEffect(c.cfg, s, fs);
    HistoryFixesIdentity(c.cfg, F.Do(c.cfg, s, fs));
  }

  lemma HistoryFixesIdentity(cfg: F.Config, s: F.State)
    requires cfg.Valid() && FP.Inv(cfg, s)
    ensures s.history != []
    ensures forall k :: 0 <= k < |s.history| ==>
              s.history[k].id == cfg.generation.id && s.history[k].createdAt == cfg.generation.createdAt
  {
  }

  lemma RowsKept(cs: Clients, w: World, w': World, r: nat)
    requires Sized(cs, w) && Sized(cs, w') && ValidClients(cs) && RowsOk(cs, w) && Moved(cs, w, w', r)
    requires RowOk(cs[r], w'.requests[r], w'.rows)
    requires forall id :: id != Id(cs, r) ==>
               (id in w'.rows <==> id in w.rows) && (id in w.rows ==> w'.rows[id] == w.rows[id])
    ensures RowsOk(cs, w')
  {
    forall i | 0 <= i < |cs| && i != r
      ensures RowOk(cs[i], w'.requests[i], w'.rows)
    {
      assert Id(cs, i) != Id(cs, r);
      assert RowOk(cs[i], w.requests[i], w.rows);
    }
  }

  lemma RowsOkStep(cs: Clients, w: World, step: Step)
    requires ValidClients(cs) && Inv(cs, w) && Enabled(cs, w, step)
    requires Sized(cs, Do(cs, w, step))
    ensures RowsOk(cs, Do(cs, w, step))
  {
    var w' := Do(cs, w, step);
    if step.Act? {
      var r, move := step.r, step.move;
      DoMoves(cs, w, r, move);
      OwnRow(cs[r], w, w.requests[r], move);
      forall id | id != Id(cs, r)
        ensures (id in w'.rows <==> id in w.rows) && (id in w.rows ==> w'.rows[id] == w.rows[id])
      {
        OtherRows(cs[r], w, w.requests[r], move, id);
      }
      RowsKept(cs, w, w', r);
    }
  }

  /** A completed record never changes, so a replay stays true. */
  lemma ReplaySourceStable(c: Client, q: Request, q': Request, record: Generation)
    requires ReplaySource(c, q, record) && HasStarted(q') && RunOk(c, q')
    requires q.run.value.history <= q'.run.value.history
    ensures ReplaySource(c, q', record)
  {
  }

  lemma LoadedReplay(cs: Clients, w: World, r: nat)
    requires ValidClients(cs) && Inv(cs, w) && r < |cs| && w.requests[r].pc.LoadingPrior?
    ensures var q' := LoadMove(w, w.requests[r], true);
            q'.pc.Answered? && q'.pc.answer.Replayed? ==>
              var from := q'.pc.answer.from;
              from < |cs| && ReplaySource(cs[from], w.requests[from], q'.pc.answer.record)
  {
    var from := w.requests[r].pc.from;
    assert RowOk(cs[from], w.requests[from], w.rows);
    assert RunOk(cs[from], w.requests[from]);
  }

  lemma ReplaysComeFromLoads(c: Client, w: World, q: Request, move: Move)
    requires c.cfg.Prepared() && FlowOk(q)
    requires q.run.Some? ==> F.Shaped(c.cfg, q.run.value)
    requires MoveEnabled(c, q, move)
    ensures var q' := NewRequest(c, w, q, move);
            q'.pc.Answered? && q'.pc.answer.Replayed? ==>
              q'.pc == q.pc || (q.pc.LoadingPrior? && q' == LoadMove(w, q, true))
  {
  }

  lemma ReplaysKept(cs: Clients, w: World, w': World, r: nat)
    requires Sized(cs, w) && Sized(cs, w') && ReplaysOk(cs, w) && RequestsOk(cs, w') && Moved(cs, w, w', r)
    requires var pc' := w'.requests[r].pc;
             pc'.Answered? && pc'.answer.Replayed? ==>
               || pc' == w.requests[r].pc
               || (pc'.answer.from < |cs| &&
                   ReplaySource(cs[pc'.answer.from], w.requests[pc'.answer.from], pc'.answer.record))
    ensures ReplaysOk(cs, w')
  {
    forall i | 0 <= i < |cs| && w'.requests[i].pc.Answered? && w'.requests[i].pc.answer.Replayed?
      ensures var a := w'.requests[i].pc.answer;
              a.from < |cs| && ReplaySource(cs[a.from], w'.requests[a.from], a.record)
    {
      var a := w'.requests[i].pc.answer;
      assert a.from < |cs| && ReplaySource(cs[a.from], w.requests[a.from], a.record);
      ReplaySourceStable(cs[a.from], w.requests[a.from], w'.requests[a.from], a.record);
    }
  }

  lemma ReplaysOkStep(cs: Clients, w: World, step: Step)
    requires ValidClients(cs) && Inv(cs, w) && Enabled(cs, w, step)
    requires Sized(cs, Do(cs, w, step)) && RequestsOk(cs, Do(cs, w, step))
    ensures ReplaysOk(cs, Do(cs, w, step))
  {
    if step.Act? {
      var r, move := step.r, step.move;
      DoMoves(cs, w, r, move);
      ReplaysComeFromLoads(cs[r], w, w.requests[r], move);
      if w.requests[r].pc.LoadingPrior? { LoadedReplay(cs, w, r); }
      ReplaysKept(cs, w, Do(cs, w, step), r);
    }
  }

  lemma CountersOkStep(cs: Clients, w: World, step: Step)
    requires ValidClients(cs) && Inv(cs, w) && Enabled(cs, w, step)
    ensures CountersOk(Do(cs, w, step))
  {
  }

  lemma StepInv(cs: Clients, w: World, step: Step)
    requires ValidClients(cs) && Inv(cs, w) && Enabled(cs, w, step)
    ensures Inv(cs, Do(cs, w, step))
  {
    RequestsOkStep(cs, w, step);
    KeyOkStep(cs, w, step);
    PriorOkStep(cs, w, step);
    RowsOkStep(cs, w, step);
    ReplaysOkStep(cs, w, step);
    CountersOkStep(cs, w, step);
  }

  /** Every interleaving keeps the invariant. */
  lemma {:induction false} RunInv(cs: Clients, steps: seq<Step>)
    requires ValidClients(cs) && Run(cs, steps).Some?
    ensures Inv(cs, Run(cs, steps).value)
  {
    if steps == [] {
    } else {
      var before := steps[..|steps| - 1];
      RunInv(cs, before);
      StepInv(cs, Run(cs, before).value, steps[|steps| - 1]);
    }
  }

  /** A run, one step of request `a` longer. */
  lemma Advance(cs: Clients, steps: seq<Step>, a: nat, move: Move) returns (longer: seq<Step>)
    requires ValidClients(cs) && Run(cs, steps).Some? && Enabled(cs, Run(cs, steps).value, Act(a, move))
    ensures longer == steps + [Act(a, move)] && Run(cs, longer).Some?
    ensures var w, w' := Run(cs, steps).value, Run(cs, longer).value;
            && Inv(cs, w) && Inv(cs, w')
            && w' == Do(cs, w, Act(a, move))
            && Moved(cs, w, w', a)
            && w'.requests[a] == NewRequest(cs[a], w, w.requests[a], move)
            && w'.cell == NewCell(w, w.requests[a], move)
            && w'.author == NewAuthor(w, a, w.requests[a], move)
  {
    longer := steps + [Act(a, move)];
    assert longer[..|steps|] == steps;
    RunInv(cs, steps);
    RunInv(cs, longer);
    DoMoves(cs, Run(cs, steps).value, a, move);
  }

  lemma FailOpensGrow(cs: Clients, w: World, step: Step)
    requires ValidClients(cs) && Sized(cs, w) && Enabled(cs, w, step)
    ensures w.failOpens <= Do(cs, w, step).failOpens
  {
  }

  lemma {:induction false} PrefixRuns(cs: Clients, steps: seq<Step>, j: nat)
    requires ValidClients(cs) && Run(cs, steps).Some? && j <= |steps|
    ensures Run(cs, steps[..j]).Some?
    ensures Run(cs, steps[..j]).value.failOpens <= Run(cs, steps).value.failOpens
    ensures j < |steps| ==> Enabled(cs, Run(cs, steps[..j]).value, steps[j])
    decreases |steps|
  {
    if j == |steps| {
      assert steps[..j] == steps;
    } else {
      var n := |steps| - 1;
      PrefixOfRun(cs, steps, j);
      PrefixRuns(cs, steps[..n], j);
      FailOpensGrow(cs, Run(cs, steps[..n]).value, steps[n]);
    }
  }

  lemma PrefixOfRun(cs: Clients, steps: seq<Step>, j: nat)
    requires ValidClients(cs) && Run(cs, steps).Some? && j < |steps|
    ensures var n := |steps| - 1;
            && Run(cs, steps[..n]).Some?
            && Enabled(cs, Run(cs, steps[..n]).value, steps[n])
            && Run(cs, steps).value == Do(cs, Run(cs, steps[..n]).value, steps[n])
            && steps[..n][..j] == steps[..j]
            && (j < n ==> steps[..n][j] == steps[j])
  {
  }
}
