/** `Release` deletes the key whoever wrote it. Its comment argues that nobody but the
    releaser can have written it; this is when that is so. */
module Reservations {
  import opened Wrappers
  import opened IdempotencyStore
  import opened Sessions
  import opened SessionProofs
  import F = Fanout

  /** The request was let through and has neither mapped the key nor released it. */
  predicate Holding(q: Request) {
    q.pc == Admitted || (q.pc == InStream && !q.saved) || q.pc.Releasing?
  }

  /** Whoever may still release the key is the one who wrote it. */
  ghost predicate HoldersWrote(w: World) {
    forall r :: 0 <= r < |w.requests| && Holding(w.requests[r]) ==> w.cell.Some? && w.author == r
  }

  function Expiries(steps: seq<Step>): nat {
    if steps == [] then 0
    else Expiries(steps[..|steps| - 1]) + (if steps[|steps| - 1].Expire? then 1 else 0)
  }

  // ---- with neither fail-open nor expiry ----

  /** A move that is not a fail-open either leaves the key and the holders alone, or is made by
      a holder or on an absent key, and leaves the key written by whoever holds it then. */
  lemma HolderMove(c: Client, w: World, r: nat, q: Request, move: Move)
    requires c.cfg.Prepared() && FlowOk(q)
    requires q.run.Some? ==> F.Shaped(c.cfg, q.run.value)
    requires MoveEnabled(c, q, move)
    requires var q' := NewRequest(c, w, q, move); q.grant.None? && q'.grant.Some? ==> q'.grant == Some(Won)
    requires Holding(q) ==> w.cell.Some? && w.author == r
    ensures var q', cell', author' := NewRequest(c, w, q, move), NewCell(w, q, move), NewAuthor(w, r, q, move);
            || (cell' == w.cell && author' == w.author && (Holding(q') ==> Holding(q)))
            || ((Holding(q) || w.cell.None?) && (Holding(q') ==> cell'.Some? && author' == r))
  {
  }

  lemma HoldersWroteStep(cs: Clients, w: World, step: Step)
    requires ValidClients(cs) && Inv(cs, w) && Enabled(cs, w, step) && HoldersWrote(w)
    requires !step.Expire? && Do(cs, w, step).failOpens == w.failOpens
    ensures HoldersWrote(Do(cs, w, step))
  {
    DoMoves(cs, w, step.r, step.move);
    HolderMove(cs[step.r], w, step.r, w.requests[step.r], step.move);
  }

  lemma {:induction false} ExpiriesPrefix(steps: seq<Step>, j: nat)
    requires j <= |steps|
    ensures Expiries(steps[..j]) <= Expiries(steps)
    decreases |steps|
  {
    if j == |steps| {
      assert steps[..j] == steps;
    } else {
      var before := steps[..|steps| - 1];
      ExpiriesPrefix(before, j);
      assert before[..j] == steps[..j];
    }
  }

  /** With no fail-open and no expiry, everyone who may yet call Release wrote what the key
      holds. */
  lemma {:induction false} ReservationsAreOwned(cs: Clients, steps: seq<Step>)
    requires ValidClients(cs) && Run(cs, steps).Some?
    requires Run(cs, steps).value.failOpens == 0 && Expiries(steps) == 0
    ensures HoldersWrote(Run(cs, steps).value)
  {
    if steps == [] {
    } else {
      var before := steps[..|steps| - 1];
      PrefixRuns(cs, steps, |steps| - 1);
      RunInv(cs, before);
      ReservationsAreOwned(cs, before);
      HoldersWroteStep(cs, Run(cs, before).value, steps[|steps| - 1]);
    }
  }

  /** Hence no two requests hold the key at once. */
  lemma OneHolder(cs: Clients, steps: seq<Step>, q: nat, r: nat)
    requires ValidClients(cs) && Run(cs, steps).Some?
    requires Run(cs, steps).value.failOpens == 0 && Expiries(steps) == 0
    requires q < |cs| && r < |cs|
    requires Holding(Run(cs, steps).value.requests[q]) && Holding(Run(cs, steps).value.requests[r])
    ensures q == r
  {
    ReservationsAreOwned(cs, steps);
  }

  // ---- what Release removes ----

  /** If step `j` deletes a key that is there, the releaser had written its value. */
  ghost predicate ReleaseIsOwn(cs: Clients, steps: seq<Step>, j: nat)
    requires ValidClients(cs) && j < |steps|
  {
    steps[j].Act? && steps[j].move.Release? && steps[j].move.applied ==>
      match Run(cs, steps[..j])
      case None => true
      case Some(w) => w.cell.Some? ==> w.author == steps[j].r
  }

  ghost predicate ReleasesOwn(cs: Clients, steps: seq<Step>)
    requires ValidClients(cs)
  {
    forall j :: 0 <= j < |steps| ==> ReleaseIsOwn(cs, steps, j)
  }

  /** The promise, for all runs with at most so many fail-opens and expiries. */
  ghost predicate PromiseHoldsWithin(cs: Clients, failOpens: nat, expiries: nat)
    requires ValidClients(cs)
  {
    forall steps ::
      Run(cs, steps).Some? && Run(cs, steps).value.failOpens <= failOpens && Expiries(steps) <= expiries ==>
        ReleasesOwn(cs, steps)
  }

  lemma ReleaserHolds(cs: Clients, w: World, step: Step)
    requires Sized(cs, w) && Enabled(cs, w, step) && step.Act? && step.move.Release?
    ensures step.r < |cs| && Holding(w.requests[step.r])
  {
  }

  lemma LoneAuthor(cs: Clients, w: World)
    requires Sized(cs, w) && KeyOk(cs, w) && |cs| < 2 && w.cell.Some?
    ensures w.author == 0
  {
  }

  lemma ReleaseIsOwnAt(cs: Clients, steps: seq<Step>, j: nat)
    requires ValidClients(cs) && Run(cs, steps).Some? && j < |steps|
    requires steps[j].Act? && steps[j].move.Release? && Run(cs, steps[..j]).Some?
    requires |cs| < 2 || (Run(cs, steps).value.failOpens == 0 && Expiries(steps) == 0)
    ensures var w := Run(cs, steps[..j]).value; w.cell.Some? ==> w.author == steps[j].r
  {
    PrefixRuns(cs, steps, j);
    ExpiriesPrefix(steps, j);
    var w := Run(cs, steps[..j]).value;
    ReleaserHolds(cs, w, steps[j]);
    if |cs| >= 2 {
      ReservationsAreOwned(cs, steps[..j]);
    } else if w.cell.Some? {
      RunInv(cs, steps[..j]);
      LoneAuthor(cs, w);
    }
  }

  lemma PromiseHolds(cs: Clients, steps: seq<Step>)
    requires ValidClients(cs) && Run(cs, steps).Some?
    requires |cs| < 2 || (Run(cs, steps).value.failOpens == 0 && Expiries(steps) == 0)
    ensures ReleasesOwn(cs, steps)
  {
    forall j | 0 <= j < |steps|
      ensures ReleaseIsOwn(cs, steps, j)
    {
      if steps[j].Act? && steps[j].move.Release? && Run(cs, steps[..j]).Some? {
        ReleaseIsOwnAt(cs, steps, j);
      }
    }
  }

  lemma ForeignRelease(cs: Clients, before: seq<Step>, steps: seq<Step>, r: nat)
    requires ValidClients(cs) && Run(cs, before).Some? && steps == before + [Act(r, Release(true, true))]
    requires Run(cs, before).value.cell.Some? && Run(cs, before).value.author != r
    ensures !ReleasesOwn(cs, steps)
  {
    assert steps[..|before|] == before;
    assert !ReleaseIsOwn(cs, steps, |before|);
  }

  lemma ExpiriesAppend(steps: seq<Step>, step: Step)
    ensures Expiries(steps + [step]) == Expiries(steps) + (if step.Expire? then 1 else 0)
  {
    assert (steps + [step])[..|steps|] == steps;
  }

  /** Request 0 wins the key. */
  lemma FirstWins(cs: Clients) returns (steps: seq<Step>)
    requires ValidClients(cs) && |cs| >= 2
    ensures Run(cs, steps).Some? && Expiries(steps) == 0
    ensures var w := Run(cs, steps).value;
            && w.cell == Some(PENDING) && w.author == 0 && w.failOpens == 0
            && w.requests[0] == Admit(NEW_REQUEST, Won)
            && forall i :: 0 < i < |cs| ==> w.requests[i] == NEW_REQUEST
  {
    steps := Advance(cs, [], 0, Reserve(true, true));
    ExpiriesAppend([], Act(0, Reserve(true, true)));
  }

  /** One Reserve call that errors is enough: its fail-open request, refused by Execute,
      deletes the reservation of the winner, which has not even started. */
  lemma FailOpenReleasesAnother(cs: Clients) returns (steps: seq<Step>)
    requires ValidClients(cs) && |cs| >= 2
    ensures Run(cs, steps).Some? && !ReleasesOwn(cs, steps)
    ensures Run(cs, steps).value.failOpens == 1 && Expiries(steps) == 0
    ensures var w := Run(cs, steps).value;
            && w.cell == None && w.requests[0] == Admit(NEW_REQUEST, Won)
            && forall i :: 2 <= i < |cs| ==> w.requests[i] == NEW_REQUEST
  {
    var s1 := FirstWins(cs);
    var s2 := Advance(cs, s1, 1, Reserve(false, false));
    var s3 := Advance(cs, s2, 1, Execute(false, false));
    steps := Advance(cs, s3, 1, Release(true, true));
    ForeignRelease(cs, s3, steps, 1);
    ExpiriesAppend(s1, Act(1, Reserve(false, false)));
    ExpiriesAppend(s2, Act(1, Execute(false, false)));
    ExpiriesAppend(s3, Act(1, Release(true, true)));
  }

  lemma ExpireStep(cs: Clients, steps: seq<Step>) returns (longer: seq<Step>)
    requires ValidClients(cs) && Run(cs, steps).Some? && Run(cs, steps).value.cell.Some?
    ensures longer == steps + [Expire] && Run(cs, longer).Some?
    ensures Run(cs, longer).value == Do(cs, Run(cs, steps).value, Expire)
  {
    longer := steps + [Expire];
    assert longer[..|steps|] == steps;
  }

  /** And so is one expiry: the first winner, refused by Execute, deletes the reservation of
      the second. */
  lemma ExpiryReleasesAnother(cs: Clients) returns (steps: seq<Step>)
    requires ValidClients(cs) && |cs| >= 2
    ensures Run(cs, steps).Some? && !ReleasesOwn(cs, steps)
    ensures Run(cs, steps).value.failOpens == 0 && Expiries(steps) == 1
  {
    var s1 := FirstWins(cs);
    var s2 := ExpireStep(cs, s1);
    var s3 := Advance(cs, s2, 1, Reserve(true, true));
    var s4 := Advance(cs, s3, 0, Execute(false, false));
    steps := Advance(cs, s4, 0, Release(true, true));
    ForeignRelease(cs, s4, steps, 0);
    ExpiriesAppend(s1, Expire);
    ExpiriesAppend(s2, Act(1, Reserve(true, true)));
    ExpiriesAppend(s3, Act(0, Execute(false, false)));
    ExpiriesAppend(s4, Act(0, Release(true, true)));
  }

  /** The promise of `Release`, exactly: over all runs with so many fail-opens and expiries, a
      deletion only ever removes what its own request wrote if and only if there is just one
      request, or there are no fail-opens and no expiries at all. */
  lemma ReleasePromiseIsExact(cs: Clients, failOpens: nat, expiries: nat)
    requires ValidClients(cs)
    ensures PromiseHoldsWithin(cs, failOpens, expiries) <==> |cs| < 2 || (failOpens == 0 && expiries == 0)
  {
    if |cs| < 2 || (failOpens == 0 && expiries == 0) {
      forall steps | Run(cs, steps).Some? && Run(cs, steps).value.failOpens <= failOpens && Expiries(steps) <= expiries
        ensures ReleasesOwn(cs, steps)
      {
        PromiseHolds(cs, steps);
      }
    } else if failOpens > 0 {
      var steps := FailOpenReleasesAnother(cs);
    } else {
      var steps := ExpiryReleasesAnother(cs);
    }
  }

  /** What comes of it: a third request wins the key while the first winner is still on its
      way to Execute. */
  lemma ReleaseStealsReservation(cs: Clients) returns (steps: seq<Step>)
    requires ValidClients(cs) && |cs| >= 3
    ensures Run(cs, steps).Some? && Run(cs, steps).value.failOpens == 1 && Expiries(steps) == 0
    ensures var w := Run(cs, steps).value;
            && w.requests[0].pc == Admitted && w.requests[0].grant == Some(Won)
            && w.requests[2].pc == Admitted && w.requests[2].grant == Some(Won)
  {
    var before := FailOpenReleasesAnother(cs);
    steps := Advance(cs, before, 2, Reserve(true, true));
    ExpiriesAppend(before, Act(2, Reserve(true, true)));
  }
}
