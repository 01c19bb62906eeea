/** What a key is for: a retry is answered with what the first request was served. */
module Retries {
  import opened Wrappers
  import opened Domain
  import opened Sessions
  import opened SessionProofs
  import opened Reservations
  import F = Fanout
  import FT = FanoutTheorems

  /** The key names the request's generation, and the request put it there. */
  ghost predicate KeyIsOf(cs: Clients, w: World, a: nat)
    requires a < |cs|
  {
    w.cell == Some(Id(cs, a)) && w.author == a
  }

  lemma KeySavedByMove(c: Client, w: World, a: nat, q: Request, move: Move)
    requires c.cfg.Prepared() && RunOk(c, q) && FlowOk(q)
    requires q.run.Some? ==> F.Shaped(c.cfg, q.run.value)
    requires MoveEnabled(c, q, move) && !q.saved && NewRequest(c, w, q, move).saved
    ensures NewCell(w, q, move) == Some(c.cfg.generation.id) && NewAuthor(w, a, q, move) == a
  {
    FirstEventNamesGeneration(c, q);
  }

  lemma SavedDoesNotHold(q: Request)
    requires FlowOk(q) && q.saved
    ensures !Holding(q)
  {
  }

  lemma MappingKeptStep(cs: Clients, w: World, step: Step, a: nat)
    requires ValidClients(cs) && Inv(cs, w) && Enabled(cs, w, step) && HoldersWrote(w)
    requires !step.Expire? && Do(cs, w, step).failOpens == w.failOpens
    requires a < |cs| && (w.requests[a].saved ==> KeyIsOf(cs, w, a))
    ensures Do(cs, w, step).requests[a].saved ==> KeyIsOf(cs, Do(cs, w, step), a)
  {
    var r := step.r;
    var q := w.requests[r];
    DoMoves(cs, w, r, step.move);
    if w.requests[a].saved {
      SavedDoesNotHold(w.requests[a]);
      HolderMove(cs[r], w, r, q, step.move);
    } else if r == a && Do(cs, w, step).requests[a].saved {
      KeySavedByMove(cs[a], w, a, q, step.move);
    }
  }

  /** In every run without fail-open and expiry, whatever other call fails: a mapping that was
      saved stays. */
  lemma {:induction false} MappingIsKept(cs: Clients, steps: seq<Step>, a: nat)
    requires ValidClients(cs) && Run(cs, steps).Some? && a < |cs|
    requires Run(cs, steps).value.failOpens == 0 && Expiries(steps) == 0
    ensures Run(cs, steps).value.requests[a].saved ==> KeyIsOf(cs, Run(cs, steps).value, a)
  {
    if steps == [] {
    } else {
      var before := steps[..|steps| - 1];
      PrefixRuns(cs, steps, |steps| - 1);
      RunInv(cs, before);
      ReservationsAreOwned(cs, before);
      MappingIsKept(cs, before, a);
      MappingKeptStep(cs, Run(cs, before).value, steps[|steps| - 1], a);
    }
  }

  /** The request's mapping was saved, and it was told so. */
  predicate Mapped(steps: seq<Step>, a: nat) {
    exists j :: 0 <= j < |steps| && steps[j] == Act(a, SaveMapping(true, true))
  }

  lemma MappedAppend(steps: seq<Step>, step: Step, a: nat)
    ensures Mapped(steps + [step], a) <==> Mapped(steps, a) || step == Act(a, SaveMapping(true, true))
  {
    var longer := steps + [step];
    if Mapped(steps, a) {
      var j :| 0 <= j < |steps| && steps[j] == Act(a, SaveMapping(true, true));
      assert longer[j] == steps[j];
    }
    if step == Act(a, SaveMapping(true, true)) {
      assert longer[|steps|] == step;
    }
  }

  lemma SavedStays(c: Client, w: World, q: Request, move: Move)
    requires c.cfg.Prepared() && FlowOk(q)
    requires q.run.Some? ==> F.Shaped(c.cfg, q.run.value)
    requires MoveEnabled(c, q, move) && (q.saved || move == SaveMapping(true, true))
    ensures NewRequest(c, w, q, move).saved && NewRequest(c, w, q, move).run.Some?
  {
  }

  lemma {:induction false} MappedIsSaved(cs: Clients, steps: seq<Step>, a: nat)
    requires ValidClients(cs) && Run(cs, steps).Some? && a < |cs| && Mapped(steps, a)
    ensures Run(cs, steps).value.requests[a].saved && Run(cs, steps).value.requests[a].run.Some?
  {
    var before, last := steps[..|steps| - 1], steps[|steps| - 1];
    assert steps == before + [last];
    MappedAppend(before, last, a);
    PrefixRuns(cs, steps, |steps| - 1);
    RunInv(cs, before);
    var w := Run(cs, before).value;
    if Mapped(before, a) {
      MappedIsSaved(cs, before, a);
    }
    if last.Act? {
      DoMoves(cs, w, last.r, last.move);
      if last.r == a {
        SavedStays(cs[a], w, w.requests[a], last.move);
      }
    }
  }

  /** What a request is told that finds the key naming a record. */
  predicate ToldOf(q: Request, record: Generation, from: nat) {
    match record.status
    case Completed => q.pc == Answered(Replayed(record, from)) && !q.executed
    case Failed => q.pc == Admitted && q.grant == Some(PriorFailed)
    case _ => q.pc == Answered(Conflict) && !q.executed
  }

  /** The key is taken by `a`, whose record is `record`. */
  ghost predicate Recorded(cs: Clients, w: World, a: nat, record: Generation)
    requires a < |cs|
  {
    KeyIsOf(cs, w, a) && Id(cs, a) in w.rows && w.rows[Id(cs, a)] == record
  }

  lemma RetryLosesReserve(cs: Clients, before: seq<Step>, a: nat, r: nat, record: Generation) returns (steps: seq<Step>)
    requires ValidClients(cs) && Run(cs, before).Some? && a < |cs| && r < |cs|
    requires Recorded(cs, Run(cs, before).value, a, record)
    requires Run(cs, before).value.requests[r] == NEW_REQUEST
    ensures steps == before + [Act(r, Reserve(true, true))] && Run(cs, steps).Some?
    ensures Recorded(cs, Run(cs, steps).value, a, record)
    ensures Run(cs, steps).value.requests[r] == NEW_REQUEST.(pc := Resolving)
  {
    steps := Advance(cs, before, r, Reserve(true, true));
  }

  lemma RetryLooksUp(cs: Clients, before: seq<Step>, a: nat, r: nat, record: Generation) returns (steps: seq<Step>)
    requires ValidClients(cs) && Run(cs, before).Some? && a < |cs| && r < |cs|
    requires Recorded(cs, Run(cs, before).value, a, record)
    requires Run(cs, before).value.requests[r] == NEW_REQUEST.(pc := Resolving)
    ensures steps == before + [Act(r, Lookup(true))] && Run(cs, steps).Some?
    ensures Recorded(cs, Run(cs, steps).value, a, record)
    ensures Run(cs, steps).value.requests[r] == NEW_REQUEST.(pc := LoadingPrior(Id(cs, a), a))
  {
    steps := Advance(cs, before, r, Lookup(true));
  }

  lemma LoadFindsRow(cs: Clients, before: seq<Step>, a: nat, r: nat, record: Generation) returns (steps: seq<Step>)
    requires ValidClients(cs) && Run(cs, before).Some? && a < |cs| && r < |cs|
    requires Recorded(cs, Run(cs, before).value, a, record)
    requires Run(cs, before).value.requests[r] == NEW_REQUEST.(pc := LoadingPrior(Id(cs, a), a))
    ensures steps == before + [Act(r, Load(true))] && Run(cs, steps).Some?
    ensures ToldOf(Run(cs, steps).value.requests[r], record, a)
  {
    steps := Advance(cs, before, r, Load(true));
  }

  function LastRecord(q: Request): Option<Generation> {
    if q.run.None? || q.run.value.history == [] then None
    else Some(q.run.value.history[|q.run.value.history| - 1])
  }

  lemma MappedIsRecorded(cs: Clients, w: World, a: nat)
    requires ValidClients(cs) && Inv(cs, w) && a < |cs| && w.requests[a].run.Some? && KeyIsOf(cs, w, a)
    ensures var record := LastRecord(w.requests[a]); record.Some? && Recorded(cs, w, a, record.value)
  {
    assert RowOk(cs[a], w.requests[a], w.rows);
  }

  lemma RetryRuns(cs: Clients, before: seq<Step>, a: nat, r: nat, record: Generation) returns (steps: seq<Step>)
    requires ValidClients(cs) && Run(cs, before).Some? && a < |cs| && r < |cs|
    requires Recorded(cs, Run(cs, before).value, a, record)
    requires Run(cs, before).value.requests[r] == NEW_REQUEST
    ensures steps == before + [Act(r, Reserve(true, true)), Act(r, Lookup(true)), Act(r, Load(true))]
    ensures Run(cs, steps).Some? && ToldOf(Run(cs, steps).value.requests[r], record, a)
  {
    var s1 := RetryLosesReserve(cs, before, a, r, record);
    var s2 := RetryLooksUp(cs, s1, a, r, record);
    steps := LoadFindsRow(cs, s2, a, r, record);
  }

  /** The next request with the key, while the record stands as it does, is answered by the
      record: replayed if it is completed, let through if it failed, refused if it is not
      over. */
  lemma RetryFollowsRecord(cs: Clients, steps: seq<Step>, a: nat, r: nat) returns (longer: seq<Step>)
    requires ValidClients(cs) && Run(cs, steps).Some? && a < |cs| && r < |cs|
    requires Run(cs, steps).value.failOpens == 0 && Expiries(steps) == 0
    requires Mapped(steps, a) && Run(cs, steps).value.requests[r] == NEW_REQUEST
    ensures longer == steps + [Act(r, Reserve(true, true)), Act(r, Lookup(true)), Act(r, Load(true))]
    ensures Run(cs, longer).Some?
    ensures var record := LastRecord(Run(cs, steps).value.requests[a]);
            record.Some? && ToldOf(Run(cs, longer).value.requests[r], record.value, a)
  {
    RunInv(cs, steps);
    MappedIsSaved(cs, steps, a);
    MappingIsKept(cs, steps, a);
    MappedIsRecorded(cs, Run(cs, steps).value, a);
    longer := RetryRuns(cs, steps, a, r, LastRecord(Run(cs, steps).value.requests[a]).value);
  }

  lemma DoneNamesRecord(cs: Clients, steps: seq<Step>, a: nat, k: nat)
    requires ValidClients(cs) && Run(cs, steps).Some? && a < |cs| && Run(cs, steps).value.requests[a].run.Some?
    requires var d := Run(cs, steps).value.requests[a].run.value.delivered; k < |d| && d[k].kind == Done
    ensures var s := Run(cs, steps).value.requests[a].run.value;
            |s.history| == 2 && s.history[1].status == Completed && s.delivered[k].generation == Some(s.history[1])
  {
    RunInv(cs, steps);
    assert RunOk(cs[a], Run(cs, steps).value.requests[a]);
    FT.DoneWasSaved(cs[a].cfg, Run(cs, steps).value.requests[a].run.value, k);
  }

  /** What the idempotency key promises: once a client has read `done`, whoever comes next with
      its key is answered with the very generation it was served, and nothing is executed. */
  lemma RetryGetsWhatWasServed(cs: Clients, steps: seq<Step>, a: nat, k: nat, r: nat)
    returns (longer: seq<Step>, g: Generation)
    requires ValidClients(cs) && Run(cs, steps).Some? && a < |cs| && r < |cs|
    requires Run(cs, steps).value.failOpens == 0 && Expiries(steps) == 0
    requires Mapped(steps, a) && Run(cs, steps).value.requests[r] == NEW_REQUEST
    requires Run(cs, steps).value.requests[a].run.Some?
    requires var d := Run(cs, steps).value.requests[a].run.value.delivered; k < |d| && d[k].kind == Done
    ensures longer == steps + [Act(r, Reserve(true, true)), Act(r, Lookup(true)), Act(r, Load(true))]
    ensures Run(cs, longer).Some?
    ensures Run(cs, steps).value.requests[a].run.value.delivered[k].generation == Some(g)
    ensures Run(cs, longer).value.requests[r].pc == Answered(Replayed(g, a))
    ensures !Run(cs, longer).value.requests[r].executed
  {
    longer := RetryFollowsRecord(cs, steps, a, r);
    DoneNamesRecord(cs, steps, a, k);
    g := Run(cs, steps).value.requests[a].run.value.history[1];
  }
}
