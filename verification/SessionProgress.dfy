/** Progress of the whole protocol: runs are bounded, every request can be answered by its
    own steps, and what it leaves behind drains. */
module SessionProgress {
  import opened Wrappers
  import opened Domain
  import opened Sessions
  import opened SessionProofs
  import F = Fanout
  import FT = FanoutTheorems

  // ---------- the work left ----------

  function RunWork(q: Request): nat {
    if q.run.Some? then FT.Work(q.run.value) else 0
  }

  /** What a request may still do, its fan-out included. */
  function RequestWork(c: Client, q: Request): nat
    requires |c.cfg.upstreams| == c.cfg.Count()
  {
    match q.pc
    case Arrived => FT.Work(F.Init(c.cfg)) + 9
    case Resolving => FT.Work(F.Init(c.cfg)) + 8
    case LoadingPrior(_, _) => FT.Work(F.Init(c.cfg)) + 7
    case Admitted => FT.Work(F.Init(c.cfg)) + 6
    case InStream => RunWork(q) + (if q.headerWritten then 3 else 4)
    case Releasing(_) => RunWork(q) + 2
    case Answered(_) => RunWork(q)
  }

  lemma GoneIsLess(s: F.State)
    ensures FT.Work(s.(consumer := F.Gone)) <= FT.Work(s)
  {
  }

  lemma BackIsLess(s: F.State)
    requires s.consumer == F.Busy
    ensures FT.Work(s.(consumer := F.Receptive)) < FT.Work(s)
  {
  }

  lemma AdmissionDropsWork(c: Client, w: World, q: Request, move: Move)
    requires c.cfg.Prepared() && FlowOk(q)
    requires q.run.Some? ==> F.Shaped(c.cfg, q.run.value)
    requires MoveEnabled(c, q, move)
    requires move.Reserve? || move.Lookup? || move.Load? || move.Execute? || move.Release?
    ensures RequestWork(c, NewRequest(c, w, q, move)) < RequestWork(c, q)
  {
    GoneIsLess(F.Init(c.cfg));
  }

  lemma StopDropsWork(c: Client, q: Request)
    requires |c.cfg.upstreams| == c.cfg.Count() && q.pc == InStream && q.run.Some?
    ensures RequestWork(c, StopStreaming(q)) < RequestWork(c, q)
  {
    GoneIsLess(q.run.value);
  }

  lemma StreamingDropsWork(c: Client, w: World, q: Request, move: Move)
    requires c.cfg.Prepared()
    requires q.run.Some? ==> F.Shaped(c.cfg, q.run.value)
    requires MoveEnabled(c, q, move)
    requires move.SaveMapping? || move.WriteFrame? || move.Return?
    ensures RequestWork(c, NewRequest(c, w, q, move)) < RequestWork(c, q)
  {
    if move.Return? || (move.WriteFrame? && !move.ok) {
      StopDropsWork(c, q);
    } else if move.WriteFrame? {
      BackIsLess(q.run.value);
    }
  }

  lemma RunStepDropsWork(c: Client, w: World, q: Request, fs: F.Step)
    requires c.cfg.Prepared() && RunOk(c, q) && FlowOk(q)
    requires q.run.Some? && F.Shaped(c.cfg, q.run.value)
    requires MoveEnabled(c, q, RunStep(fs))
    ensures RequestWork(c, NewRequest(c, w, q, RunStep(fs))) < RequestWork(c, q)
  {
    FT.WorkDrops(c.cfg, q.run.value, fs);
  }

  /** Every move of a request uses up some of its work. */
  lemma MoveDropsWork(c: Client, w: World, q: Request, move: Move)
    requires c.cfg.Prepared() && RunOk(c, q) && FlowOk(q)
    requires q.run.Some? ==> F.Shaped(c.cfg, q.run.value)
    requires MoveEnabled(c, q, move)
    ensures RequestWork(c, NewRequest(c, w, q, move)) < RequestWork(c, q)
  {
    match move
    case RunStep(fs) => RunStepDropsWork(c, w, q, fs);
    case SaveMapping(_, _) => StreamingDropsWork(c, w, q, move);
    case WriteFrame(_) => StreamingDropsWork(c, w, q, move);
    case Return => StreamingDropsWork(c, w, q, move);
    case _ => AdmissionDropsWork(c, w, q, move);
  }

  // ---------- runs are bounded ----------

  ghost predicate AllPrepared(cs: Clients) {
    forall r :: 0 <= r < |cs| ==> |cs[r].cfg.upstreams| == cs[r].cfg.Count()
  }

  ghost function TotalWork(cs: Clients, qs: seq<Request>): nat
    requires |cs| == |qs| && AllPrepared(cs)
  {
    if qs == [] then 0
    else
      var n := |qs| - 1;
      TotalWork(cs[..n], qs[..n]) + RequestWork(cs[n], qs[n])
  }

  lemma {:induction false} TotalWorkUpdate(cs: Clients, qs: seq<Request>, r: nat, q: Request)
    requires |cs| == |qs| && AllPrepared(cs) && r < |qs|
    ensures TotalWork(cs, qs[r := q]) == TotalWork(cs, qs) - RequestWork(cs[r], qs[r]) + RequestWork(cs[r], q)
    decreases |qs|
  {
    var n := |qs| - 1;
    if r == n {
      assert qs[r := q][..n] == qs[..n];
    } else {
      TotalWorkUpdate(cs[..n], qs[..n], r, q);
      assert qs[r := q][..n] == qs[..n][r := q];
    }
  }

  function Acts(steps: seq<Step>): nat {
    if steps == [] then 0
    else Acts(steps[..|steps| - 1]) + (if steps[|steps| - 1].Act? then 1 else 0)
  }

  lemma ActSpends(cs: Clients, w: World, r: nat, move: Move)
    requires ValidClients(cs) && Inv(cs, w) && Enabled(cs, w, Act(r, move))
    ensures TotalWork(cs, Do(cs, w, Act(r, move)).requests) < TotalWork(cs, w.requests)
    ensures var w' := Do(cs, w, Act(r, move)); w'.wins + w'.blindWrites <= w.wins + w.blindWrites + 1
  {
    MoveDropsWork(cs[r], w, w.requests[r], move);
    TotalWorkUpdate(cs, w.requests, r, NewRequest(cs[r], w, w.requests[r], move));
  }

  lemma {:induction false} RunSpends(cs: Clients, steps: seq<Step>)
    requires ValidClients(cs) && Run(cs, steps).Some?
    ensures var w := Run(cs, steps).value;
            && Acts(steps) + TotalWork(cs, w.requests) <= TotalWork(cs, Init(cs).requests)
            && w.wins + w.blindWrites <= Acts(steps)
            && |steps| - Acts(steps) <= w.removals
  {
    if steps == [] {
    } else {
      var before, last := steps[..|steps| - 1], steps[|steps| - 1];
      RunSpends(cs, before);
      RunInv(cs, before);
      if last.Act? {
        ActSpends(cs, Run(cs, before).value, last.r, last.move);
      }
    }
  }

  /** Every run of the protocol, faults, expiry and all, has at most twice as many steps as the
      requests had work at the start. */
  lemma ProtocolRunsAreBounded(cs: Clients, steps: seq<Step>)
    requires ValidClients(cs) && Run(cs, steps).Some?
    ensures |steps| <= 2 * TotalWork(cs, Init(cs).requests)
  {
    RunSpends(cs, steps);
    RunInv(cs, steps);
  }

  // ---------- every request can be answered ----------

  /** The request's next step when nothing fails: neither a store or repository call, nor a
      write, nor the client by leaving. */
  predicate Healthy(move: Move) {
    match move
    case Reserve(ok, _) => ok
    case Lookup(ok) => ok
    case Load(ok) => ok
    case Execute(ok, _) => ok
    case RunStep(fs) => !fs.Cancel? && (fs.SaveTerminal? ==> fs.ok)
    case SaveMapping(ok, _) => ok
    case WriteFrame(ok) => ok
    case Return => true
    case Release(ok, _) => ok
  }

  /** Execute refuses an input that is not acceptable, which is no fault. */
  predicate Expected(c: Client, move: Move) {
    Healthy(move) || (move == Execute(false, false) && !AcceptableInput(c.cfg.input))
  }

  lemma NextMove(cs: Clients, w: World, r: nat) returns (move: Move)
    requires ValidClients(cs) && Inv(cs, w) && r < |cs| && !w.requests[r].pc.Answered?
    ensures MoveEnabled(cs[r], w.requests[r], move) && Expected(cs[r], move)
  {
    var c, q := cs[r], w.requests[r];
    assert FlowOk(q);
    match q.pc
    case Arrived => move := Reserve(true, true);
    case Resolving => move := Lookup(true);
    case LoadingPrior(_, _) => move := Load(true);
    case Admitted =>
      move := if AcceptableInput(c.cfg.input) then Execute(true, true) else Execute(false, false);
    case InStream => move := NextStreamMove(c, q);
    case Releasing(_) => move := Release(true, true);
  }

  lemma NextStreamMove(c: Client, q: Request) returns (move: Move)
    requires RunOk(c, q) && FlowOk(q) && q.pc == InStream
    ensures F.Shaped(c.cfg, q.run.value) && MoveEnabled(c, q, move) && Healthy(move)
  {
    var s := q.run.value;
    if s.consumer == F.Busy {
      move := if q.headerWritten then WriteFrame(true) else SaveMapping(true, true);
    } else if s.canceled || s.closes > 0 {
      move := Return;
    } else {
      var fs := FT.Progress(c.cfg, s, true, true);
      move := RunStep(fs);
    }
  }

  /** In every reachable world every request can be answered, by its own steps alone, and with
      none of them failing. */
  lemma {:induction false} EveryRequestCanBeAnswered(cs: Clients, steps: seq<Step>, r: nat)
    returns (all: seq<Step>)
    requires ValidClients(cs) && Run(cs, steps).Some? && r < |cs|
    ensures steps <= all && Run(cs, all).Some? && Run(cs, all).value.requests[r].pc.Answered?
    ensures forall k :: |steps| <= k < |all| ==> all[k].Act? && all[k].r == r && Expected(cs[r], all[k].move)
    decreases RequestWork(cs[r], Run(cs, steps).value.requests[r])
  {
    RunInv(cs, steps);
    var w := Run(cs, steps).value;
    if w.requests[r].pc.Answered? {
      all := steps;
    } else {
      var move := NextMove(cs, w, r);
      MoveDropsWork(cs[r], w, w.requests[r], move);
      var longer := Advance(cs, steps, r, move);
      all := EveryRequestCanBeAnswered(cs, longer, r);
      assert all[|steps|] == longer[|steps|];
    }
  }

  // ---------- and leaves nothing running ----------

  lemma UnaidedMove(cs: Clients, w: World, r: nat) returns (move: Move)
    requires ValidClients(cs) && Inv(cs, w) && r < |cs|
    requires w.requests[r].pc.Answered? && w.requests[r].run.Some? && w.requests[r].run.value.canceled
    requires !FT.Quiescent(w.requests[r].run.value)
    ensures move.RunStep? && FT.Unaided(move.fs) && MoveEnabled(cs[r], w.requests[r], move)
    ensures var q' := NewRequest(cs[r], w, w.requests[r], move);
            q'.pc == w.requests[r].pc && q'.run.Some? && q'.run.value.canceled
  {
    assert RunOk(cs[r], w.requests[r]);
    var fs := FT.Progress(cs[r].cfg, w.requests[r].run.value, true, true);
    move := RunStep(fs);
  }

  /** Once a request has been answered and its context is done, its goroutines finish by
      themselves. */
  lemma {:induction false} AnsweredRequestsDrain(cs: Clients, steps: seq<Step>, r: nat)
    returns (all: seq<Step>)
    requires ValidClients(cs) && Run(cs, steps).Some? && r < |cs|
    requires var q := Run(cs, steps).value.requests[r]; q.pc.Answered? && q.run.Some? && q.run.value.canceled
    ensures steps <= all && Run(cs, all).Some?
    ensures var q := Run(cs, all).value.requests[r];
            q.pc == Run(cs, steps).value.requests[r].pc && q.run.Some? && FT.Quiescent(q.run.value)
    ensures forall k :: |steps| <= k < |all| ==>
              all[k].Act? && all[k].r == r && all[k].move.RunStep? && FT.Unaided(all[k].move.fs)
    decreases RequestWork(cs[r], Run(cs, steps).value.requests[r])
  {
    RunInv(cs, steps);
    var w := Run(cs, steps).value;
    if FT.Quiescent(w.requests[r].run.value) {
      all := steps;
    } else {
      var move := UnaidedMove(cs, w, r);
      MoveDropsWork(cs[r], w, w.requests[r], move);
      var longer := Advance(cs, steps, r, move);
      all := AnsweredRequestsDrain(cs, longer, r);
      assert all[|steps|] == longer[|steps|];
    }
  }
}
