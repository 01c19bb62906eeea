/** The promises of idempotency, over every interleaving of requests on one key. */
module SessionTheorems {
  import opened Wrappers
  import opened Domain
  import opened IdempotencyStore
  import opened Sessions
  import opened SessionProofs
  import F = Fanout
  import FP = FanoutProofs

  // ---- reservations are resolved ----

  /** However a request ends (Execute error, a writer that cannot flush, an empty stream, a
      disconnect, a write error, a failed mapping save), the key does not hold its pending
      sentinel afterwards, unless its own Release call failed. */
  lemma ReservationIsResolved(cs: Clients, steps: seq<Step>, r: nat)
    requires ValidClients(cs) && Run(cs, steps).Some? && r < |cs|
    requires Run(cs, steps).value.requests[r].pc.Answered?
    requires !Run(cs, steps).value.requests[r].releaseFailed
    ensures var w := Run(cs, steps).value; !(w.cell == Some(PENDING) && w.author == r)
  {
    RunInv(cs, steps);
  }

  /** A key that names a generation names one whose run delivered generation_started to a
      request bearing the key, and whose record is in the table. */
  lemma MappingProvenance(cs: Clients, steps: seq<Step>)
    requires ValidClients(cs) && Run(cs, steps).Some?
    requires var w := Run(cs, steps).value; w.cell.Some? && w.cell.value != PENDING
    ensures var w := Run(cs, steps).value;
            && w.author < |cs|
            && w.cell.value == Id(cs, w.author)
            && w.cell.value in w.rows
            && w.requests[w.author].run.Some?
            && w.requests[w.author].run.value.delivered != []
            && w.requests[w.author].run.value.delivered[0] == F.StartedEvent(cs[w.author].cfg.generation)
  {
    RunInv(cs, steps);
    var w := Run(cs, steps).value;
    FirstDelivered(cs[w.author], w.requests[w.author]);
    assert RowOk(cs[w.author], w.requests[w.author], w.rows);
  }

  lemma FirstDelivered(c: Client, q: Request)
    requires RunOk(c, q) && HasStarted(q)
    ensures q.run.value.delivered[0] == F.StartedEvent(c.cfg.generation)
  {
    var d := q.run.value.delivered;
    assert FP.Begun(c.cfg, d) || |d| >= 2;
  }

  // ---- conservation ----

  function Granted(qs: seq<Request>): nat {
    if qs == [] then 0 else Granted(qs[..|qs| - 1]) + (if qs[|qs| - 1].grant.Some? then 1 else 0)
  }

  function Executed(qs: seq<Request>): nat {
    if qs == [] then 0 else Executed(qs[..|qs| - 1]) + (if qs[|qs| - 1].executed then 1 else 0)
  }

  lemma {:induction false} GrantedUpdate(qs: seq<Request>, r: nat, q: Request)
    requires r < |qs|
    ensures Granted(qs[r := q]) + (if qs[r].grant.Some? then 1 else 0) == Granted(qs) + (if q.grant.Some? then 1 else 0)
  {
    var n := |qs| - 1;
    if r == n {
      assert qs[r := q][..n] == qs[..n];
    } else {
      GrantedUpdate(qs[..n], r, q);
      assert qs[r := q][..n] == qs[..n][r := q];
    }
  }

  lemma {:induction false} ExecutedAreGranted(qs: seq<Request>)
    requires forall r :: 0 <= r < |qs| ==> FlowOk(qs[r])
    ensures Executed(qs) <= Granted(qs)
  {
    if qs == [] {
    } else {
      ExecutedAreGranted(qs[..|qs| - 1]);
      assert FlowOk(qs[|qs| - 1]);
    }
  }

  lemma {:induction false} NobodyGranted(n: nat)
    ensures Granted(seq(n, i => NEW_REQUEST)) == 0
  {
    if n == 0 {
    } else {
      NobodyGranted(n - 1);
      assert seq(n, i => NEW_REQUEST)[..n - 1] == seq(n - 1, i => NEW_REQUEST);
    }
  }

  lemma MoveGrant(c: Client, w: World, q: Request, move: Move)
    requires c.cfg.Prepared() && FlowOk(q)
    requires q.run.Some? ==> F.Shaped(c.cfg, q.run.value)
    requires MoveEnabled(c, q, move)
    ensures var q' := NewRequest(c, w, q, move);
            && (q.grant.Some? ==> q'.grant == q.grant)
            && (q.grant.None? && q'.grant == Some(Won) <==> move.Reserve? && move.ok && w.cell.None?)
  {
  }

  lemma GrantsStep(cs: Clients, w: World, step: Step)
    requires ValidClients(cs) && Inv(cs, w) && Enabled(cs, w, step)
    requires Granted(w.requests) == w.reported + w.failOpens
    ensures var w' := Do(cs, w, step); Granted(w'.requests) == w'.reported + w'.failOpens
  {
    if step.Act? {
      var r := step.r;
      MoveGrant(cs[r], w, w.requests[r], step.move);
      GrantedUpdate(w.requests, r, NewRequest(cs[r], w, w.requests[r], step.move));
    }
  }

  lemma {:induction false} GrantsAreCharged(cs: Clients, steps: seq<Step>)
    requires ValidClients(cs) && Run(cs, steps).Some?
    ensures var w := Run(cs, steps).value; Granted(w.requests) == w.reported + w.failOpens
  {
    if steps == [] {
      NobodyGranted(|cs|);
    } else {
      var before := steps[..|steps| - 1];
      GrantsAreCharged(cs, before);
      RunInv(cs, before);
      GrantsStep(cs, Run(cs, before).value, steps[|steps| - 1]);
    }
  }

  /** With faults, expiry and fail-open writers all allowed: keys created equal keys removed
      plus the one present, so Reserve wins at most once more than the key was removed; and
      every Execute call is paid for by one reported win or one fail-open branch. */
  lemma Conservation(cs: Clients, steps: seq<Step>)
    requires ValidClients(cs) && Run(cs, steps).Some?
    ensures var w := Run(cs, steps).value;
            && w.wins + w.blindWrites == w.removals + (if w.cell.Some? then 1 else 0)
            && w.wins <= w.removals + 1
            && Executed(w.requests) <= w.reported + w.failOpens
            && Executed(w.requests) <= 1 + w.removals + w.failOpens
  {
    RunInv(cs, steps);
    GrantsAreCharged(cs, steps);
    ExecutedAreGranted(Run(cs, steps).value.requests);
  }

  // ---- at most one generation ----

  ghost predicate NoFailedRecord(w: World) {
    forall r :: 0 <= r < |w.requests| && w.requests[r].run.Some? ==> NoneFailed(w.requests[r].run.value.history)
  }

  predicate NoneFailed(h: seq<Generation>) {
    forall k :: 0 <= k < |h| ==> h[k].status != Failed
  }

  /** No store or repository call failed, the key was never removed, no generation failed. */
  ghost predicate Clean(w: World) {
    w.faults == 0 && w.removals == 0 && NoFailedRecord(w)
  }

  /** In a clean run the last writer of the key is the only request ever admitted. */
  ghost predicate OneLeader(w: World) {
    && (w.cell.None? ==> forall r :: 0 <= r < |w.requests| ==> w.requests[r].pc == Arrived)
    && (forall r :: 0 <= r < |w.requests| && w.requests[r].grant.Some? ==> r == w.author)
    && (forall r :: 0 <= r < |w.requests| && w.requests[r].pc.LoadingPrior? ==> w.requests[r].pc.from == w.author)
    && (forall r :: 0 <= r < |w.requests| && w.requests[r].pc.Answered? && w.requests[r].pc.answer.Replayed? ==>
          w.requests[r].pc.answer.from == w.author)
  }

  lemma CleanBefore(cs: Clients, w: World, step: Step)
    requires ValidClients(cs) && Inv(cs, w) && Enabled(cs, w, step)
    requires Clean(Do(cs, w, step))
    ensures Clean(w)
  {
    var w' := Do(cs, w, step);
    if step.Act? {
      MoveKeepsStart(cs[step.r], w, w.requests[step.r], step.move);
      forall i | 0 <= i < |w.requests| && w.requests[i].run.Some?
        ensures NoneFailed(w.requests[i].run.value.history)
      {
        assert NoneFailed(w'.requests[i].run.value.history);
        assert w.requests[i].run.value.history <= w'.requests[i].run.value.history;
      }
    }
  }

  /** In a clean world, what the move makes of the request: it is admitted only by winning
      Reserve on an absent key, and whatever it reads is the leader's. */
  ghost predicate CleanMove(w: World, r: nat, q: Request, q': Request) {
    && (q.grant.Some? ==> q'.grant.Some?)
    && (q.grant.None? && q'.grant.Some? ==> w.cell.None?)
    && (q'.pc.LoadingPrior? ==> q'.pc.from == w.author)
    && (q'.pc.Answered? && q'.pc.answer.Replayed? ==> q'.pc.answer.from == w.author)
  }

  lemma CleanLookup(w: World, q: Request)
    requires q.pc == Resolving && q == NEW_REQUEST.(pc := q.pc)
    requires w.cell.Some?
    ensures var q' := LookupMove(w, q, true);
            && q'.grant.None?
            && (q'.pc.LoadingPrior? ==> q'.pc.from == w.author)
            && !(q'.pc.Answered? && q'.pc.answer.Replayed?)
  {
  }

  /** The leader's record is in the table and did not fail. */
  lemma CleanLoad(cs: Clients, w: World, r: nat)
    requires ValidClients(cs) && Inv(cs, w) && r < |cs| && w.requests[r].pc.LoadingPrior?
    requires NoFailedRecord(w) && w.requests[r].pc.from == w.author
    ensures var q' := LoadMove(w, w.requests[r], true);
            && q'.grant.None? && q'.pc.Answered?
            && (q'.pc.answer.Replayed? ==> q'.pc.answer.from == w.author)
  {
    var from := w.requests[r].pc.from;
    assert FlowOk(w.requests[r]);
    assert RowOk(cs[from], w.requests[from], w.rows);
    assert NoneFailed(w.requests[from].run.value.history);
  }

  lemma CleanOther(c: Client, w: World, q: Request, move: Move)
    requires c.cfg.Prepared() && FlowOk(q)
    requires q.run.Some? ==> F.Shaped(c.cfg, q.run.value)
    requires MoveEnabled(c, q, move) && Failures(c, move) == 0
    requires !move.Lookup? && !move.Load?
    ensures var q' := NewRequest(c, w, q, move);
            && (q.grant.Some? ==> q'.grant == q.grant)
            && (q.grant.None? && q'.grant.Some? ==> move == Reserve(true, true) && w.cell.None?)
            && !q'.pc.LoadingPrior?
            && (q'.pc.Answered? && q'.pc.answer.Replayed? ==> q'.pc == q.pc)
  {
  }

  /** The leadership after a move that is clean. */
  lemma LeaderKept(w: World, w': World, r: nat)
    requires OneLeader(w) && r < |w.requests| == |w'.requests|
    requires forall i :: 0 <= i < |w.requests| && i != r ==> w'.requests[i] == w.requests[i]
    requires CleanMove(w, r, w.requests[r], w'.requests[r])
    requires w'.cell.Some?
    requires w'.author == w.author || (w'.author == r && (w.cell.None? || w.requests[r].grant.Some?))
    requires w.cell.None? ==> w'.author == r && !w'.requests[r].pc.LoadingPrior? &&
                              !(w'.requests[r].pc.Answered? && w'.requests[r].pc.answer.Replayed?)
    requires forall i :: 0 <= i < |w.requests| ==> w.requests[i].pc == Arrived ==> w.requests[i].grant.None?
    ensures OneLeader(w')
  {
  }

  lemma ActIsClean(cs: Clients, w: World, r: nat, move: Move)
    requires ValidClients(cs) && Inv(cs, w) && Enabled(cs, w, Act(r, move))
    requires Clean(w) && OneLeader(w) && Failures(cs[r], move) == 0
    ensures CleanMove(w, r, w.requests[r], NewRequest(cs[r], w, w.requests[r], move))
    ensures w.requests[r].grant.Some? || move == Reserve(true, true) || w.cell.Some?
  {
    var q := w.requests[r];
    assert FlowOk(q);
    if move == Lookup(true) {
      CleanLookup(w, q);
    } else if move == Load(true) {
      CleanLoad(cs, w, r);
    } else {
      CleanOther(cs[r], w, q, move);
    }
  }

  /** Of a clean move, the only ones that write the key are a win and the leader's mapping. */
  lemma CleanKey(cs: Clients, w: World, r: nat, move: Move)
    requires ValidClients(cs) && Inv(cs, w) && Enabled(cs, w, Act(r, move))
    requires Clean(w) && OneLeader(w) && Failures(cs[r], move) == 0
    requires !(w.cell.Some? && NewCell(w, w.requests[r], move).None?)
    ensures NewCell(w, w.requests[r], move).Some?
    ensures var author' := NewAuthor(w, r, w.requests[r], move);
            && (author' == w.author || (author' == r && (w.cell.None? || w.requests[r].grant.Some?)))
            && (w.cell.None? ==> move == Reserve(true, true) && author' == r)
  {
    assert FlowOk(w.requests[r]);
  }

  lemma OneLeaderStep(cs: Clients, w: World, step: Step)
    requires ValidClients(cs) && Inv(cs, w) && Enabled(cs, w, step)
    requires Clean(w) && OneLeader(w) && Clean(Do(cs, w, step))
    ensures OneLeader(Do(cs, w, step))
  {
    if step.Act? {
      var r, move := step.r, step.move;
      DoMoves(cs, w, r, move);
      ActIsClean(cs, w, r, move);
      CleanKey(cs, w, r, move);
      forall i | 0 <= i < |w.requests| && w.requests[i].pc == Arrived ensures w.requests[i].grant.None? {
        assert FlowOk(w.requests[i]);
      }
      LeaderKept(w, Do(cs, w, step), r);
    }
  }

  lemma {:induction false} RunOneLeader(cs: Clients, steps: seq<Step>)
    requires ValidClients(cs) && Run(cs, steps).Some? && Clean(Run(cs, steps).value)
    ensures OneLeader(Run(cs, steps).value)
  {
    if steps == [] {
    } else {
      var before, last := steps[..|steps| - 1], steps[|steps| - 1];
      RunInv(cs, before);
      CleanBefore(cs, Run(cs, before).value, last);
      RunOneLeader(cs, before);
      OneLeaderStep(cs, Run(cs, before).value, last);
    }
  }

  /** Any number of concurrent requests on an unused key: with no store or repository
      error, no removal of the key and no failed generation, at most one of them calls
      Execute, and every other one that is answered gets 409 or that one's completed
      record. */
  lemma AtMostOneExecute(cs: Clients, steps: seq<Step>)
    requires ValidClients(cs) && Run(cs, steps).Some? && Clean(Run(cs, steps).value)
    ensures var qs := Run(cs, steps).value.requests;
            && (forall a, b :: 0 <= a < |qs| && 0 <= b < |qs| && qs[a].executed && qs[b].executed ==> a == b)
            && (forall r :: 0 <= r < |qs| && qs[r].pc.Answered? && !qs[r].executed ==>
                  || qs[r].pc.answer == Conflict
                  || (&& qs[r].pc.answer.Replayed?
                      && var from := qs[r].pc.answer.from;
                      && from < |qs|
                      && qs[from].executed
                      && ReplaySource(cs[from], qs[from], qs[r].pc.answer.record)))
  {
    RunInv(cs, steps);
    RunOneLeader(cs, steps);
    var qs := Run(cs, steps).value.requests;
    forall r | 0 <= r < |qs|
      ensures FlowOk(qs[r]) && (qs[r].executed ==> qs[r].grant.Some?) && (qs[r].run.Some? ==> qs[r].executed)
    {
      assert FlowOk(qs[r]);
    }
  }
}
