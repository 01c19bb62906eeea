/** A replay is the live run seen again: the fan-out and the idempotency protocol put
    together. */
module ReplayTheorems {
  import opened Wrappers
  import opened Domain
  import opened Providers
  import opened ApiMapping
  import opened ContentKey
  import opened SessionProofs
  import opened FP = FanoutProofs
  import F = Fanout
  import FT = FanoutTheorems
  import S = Sessions

  /** The variation_completed events of a sequence, in order. */
  function Completions(d: seq<Event>): seq<Event> {
    if d == [] then []
    else Completions(d[..|d| - 1]) + (if d[|d| - 1].kind == VariationCompleted then [d[|d| - 1]] else [])
  }

  lemma {:induction false} CompletionsAbout(d: seq<Event>, s: Strategy)
    ensures About(Completions(d), s) == Completions(About(d, s))
  {
    if d == [] {
    } else {
      var front, last := d[..|d| - 1], d[|d| - 1];
      CompletionsAbout(front, s);
      AboutAppend(Completions(front), last, s);
      CompletionsAppend(About(front, s), last);
      assert About(front, s) + [] == About(front, s);
      assert Completions(front) + [] == Completions(front);
    }
  }

  lemma CompletionsAppend(d: seq<Event>, e: Event)
    ensures Completions(d + [e]) == if e.kind == VariationCompleted then Completions(d) + [e] else Completions(d)
  {
    assert (d + [e])[..|d|] == d;
  }

  lemma {:induction false} CompletionsAreDelivered(d: seq<Event>, e: Event)
    requires e in Completions(d)
    ensures e in d && e.kind == VariationCompleted
  {
    var front := d[..|d| - 1];
    if e in Completions(front) {
      CompletionsAreDelivered(front, e);
    }
  }

  lemma {:induction false} NoCompletions(d: seq<Event>)
    requires forall k :: 0 <= k < |d| ==> d[k].kind != VariationCompleted
    ensures Completions(d) == []
  {
    if d == [] {
    } else {
      NoCompletions(d[..|d| - 1]);
    }
  }

  lemma CountAppend(d: seq<Event>, last: Event, e: Event)
    ensures multiset(d + [last])[e] == multiset(d)[e] + (if last == e then 1 else 0)
  {
  }

  /** An event occurs as often as among the events about its strategy. */
  lemma {:induction false} CountAbout(d: seq<Event>, e: Event)
    ensures multiset(d)[e] == multiset(About(d, e.strategy))[e]
  {
    if d == [] {
    } else {
      var front, last := d[..|d| - 1], d[|d| - 1];
      assert d == front + [last];
      CountAbout(front, e);
      CountAppend(front, last, e);
      AboutAppend(front, last, e.strategy);
      CountAppend(About(front, e.strategy), last, e);
    }
  }

  /** One completion per requested strategy, in requested order. */
  function InRequestedOrder(strategies: seq<Strategy>, vs: seq<Variation>): seq<Event>
    requires |strategies| == |vs|
  {
    seq(|vs|, i requires 0 <= i < |vs| => F.CompletedEvent(strategies[i], vs[i]))
  }

  lemma {:induction false} AboutInOrder(strategies: seq<Strategy>, vs: seq<Variation>, s: Strategy)
    requires |strategies| == |vs| && NoDuplicates(strategies)
    ensures s !in strategies ==> About(InRequestedOrder(strategies, vs), s) == []
    ensures forall i :: 0 <= i < |vs| && strategies[i] == s ==>
              About(InRequestedOrder(strategies, vs), s) == [F.CompletedEvent(s, vs[i])]
  {
    var n := |vs| - 1;
    if n >= 0 {
      AboutInOrder(strategies[..n], vs[..n], s);
      var all := InRequestedOrder(strategies, vs);
      assert all[..n] == InRequestedOrder(strategies[..n], vs[..n]);
      assert strategies == strategies[..n] + [strategies[n]];
    }
  }

  /** What the delivered completions of a strategy are, once its goroutine has succeeded. */
  lemma OneCompletion(s: Strategy, sent: seq<Chunk>, v: Variation, id: string, unmarshal: Unmarshal)
    requires Ended(sent, s, id, unmarshal) && sent[|sent| - 1] == VariationDone(v)
    ensures Completions(Announced(s, sent)) == [F.CompletedEvent(s, v)]
  {
    var log := Announced(s, sent);
    var front := log[..|log| - 1];
    NoCompletions(front);
    assert log[|log| - 1] == F.CompletedEvent(s, v);
  }

  lemma CompletionsPerStrategy(cfg: F.Config, s: F.State, i: nat)
    requires cfg.Valid() && FP.Inv(cfg, s) && i < cfg.Count()
    requires Succeeded(cfg.Strategy(i), s.workers[i], s.variations[i])
    ensures About(Completions(s.delivered), cfg.Strategy(i)) == [F.CompletedEvent(cfg.Strategy(i), s.variations[i])]
  {
    var st := cfg.Strategy(i);
    assert WorkerInv(cfg, i, s.workers[i], s.variations[i], s.firstErr.Some?, s.canceled);
    CompletionsAbout(s.delivered, st);
    OneCompletion(st, s.workers[i].producer.sent, s.variations[i], cfg.upstreams[i].variationId, cfg.unmarshal);
  }

  lemma DeliveredCompletionIsTagged(cfg: F.Config, s: F.State, e: Event)
    requires cfg.Valid() && FP.Inv(cfg, s) && e in Completions(s.delivered)
    ensures e.strategy in cfg.input.strategies
  {
    CompletionsAreDelivered(s.delivered, e);
    var k :| 0 <= k < |s.delivered| && s.delivered[k] == e;
    FT.StateEventOrder(cfg, s);
  }

  lemma CompletionCount(cfg: F.Config, s: F.State, e: Event)
    requires cfg.Valid() && FP.Inv(cfg, s)
    requires forall i :: 0 <= i < cfg.Count() ==> Succeeded(cfg.Strategy(i), s.workers[i], s.variations[i])
    ensures multiset(Completions(s.delivered))[e] == multiset(InRequestedOrder(cfg.input.strategies, s.variations))[e]
  {
    var live, stored := Completions(s.delivered), InRequestedOrder(cfg.input.strategies, s.variations);
    CountAbout(live, e);
    CountAbout(stored, e);
    AboutInOrder(cfg.input.strategies, s.variations, e.strategy);
    if e.strategy in cfg.input.strategies {
      var i :| 0 <= i < cfg.Count() && cfg.Strategy(i) == e.strategy;
      CompletionsPerStrategy(cfg, s, i);
    } else if e in live {
      DeliveredCompletionIsTagged(cfg, s, e);
    }
  }

  /** The completions a client received live are, as a multiset, those of the record. */
  lemma CompletionsMatchRecord(cfg: F.Config, s: F.State)
    requires cfg.Valid() && FP.Inv(cfg, s)
    requires forall i :: 0 <= i < cfg.Count() ==> Succeeded(cfg.Strategy(i), s.workers[i], s.variations[i])
    ensures multiset(Completions(s.delivered)) == multiset(InRequestedOrder(cfg.input.strategies, s.variations))
  {
    forall e: Event
      ensures multiset(Completions(s.delivered))[e] == multiset(InRequestedOrder(cfg.input.strategies, s.variations))[e]
    {
      CompletionCount(cfg, s, e);
    }
  }

  /** `record` replays `s`: the frames are exactly those of the live completions, put in
      requested order, and then the done frame the live run produced. */
  ghost predicate ReplaysRun(cfg: F.Config, s: F.State, record: Generation) {
    && |record.variations| == cfg.Count()
    && var ordered := InRequestedOrder(cfg.input.strategies, record.variations);
    && ReplayFrames(record) == Chunks(ordered) + [ToChunk(F.DoneEvent(record))]
    && multiset(ordered) == multiset(Completions(s.delivered))
    && (forall k :: 0 <= k < |s.delivered| && s.delivered[k].kind == Done ==> s.delivered[k] == F.DoneEvent(record))
  }

  lemma CompletedRecordReplays(cfg: F.Config, s: F.State, k: nat)
    requires cfg.Valid() && FP.Inv(cfg, s) && k < |s.history| && s.history[k].status == Completed
    ensures ReplaysRun(cfg, s, s.history[k])
  {
    FT.CompletedRecord(cfg, s, k);
    CompletionsMatchRecord(cfg, s);
    var vs := s.variations;
    forall i | 0 <= i < cfg.Count()
      ensures ReplayFrame(vs[i]) == ToChunk(F.CompletedEvent(cfg.Strategy(i), vs[i]))
    {
      FT.CompletedStrategy(cfg, s, i);
      assert cfg.Strategy(i) != "";
    }
    assert ReplayFrames(s.history[k])
        == Chunks(InRequestedOrder(cfg.input.strategies, vs)) + [ToChunk(F.DoneEvent(s.history[k]))];
    forall j | 0 <= j < |s.delivered| && s.delivered[j].kind == Done
      ensures s.delivered[j] == F.DoneEvent(s.history[k])
    {
      FT.DoneWasSaved(cfg, s, j);
    }
  }

  /** Replay is observationally the live run, for every run that stored `completed`. */
  lemma ReplayIsTheLiveRun(cfg: F.Config, steps: seq<F.Step>, k: nat)
    requires cfg.Valid() && F.Run(cfg, steps).Some?
    requires k < |F.Run(cfg, steps).value.history| && F.Run(cfg, steps).value.history[k].status == Completed
    ensures ReplaysRun(cfg, F.Run(cfg, steps).value, F.Run(cfg, steps).value.history[k])
  {
    FP.RunInv(cfg, steps);
    CompletedRecordReplays(cfg, F.Run(cfg, steps).value, k);
  }

  /** Whatever the interleaving and the faults, a request that is answered by a replay gets
      the replay of some other request's live run. */
  lemma EveryReplayIsALiveRun(cs: S.Clients, steps: seq<S.Step>, r: nat)
    requires S.ValidClients(cs) && S.Run(cs, steps).Some? && r < |cs|
    requires var pc := S.Run(cs, steps).value.requests[r].pc; pc.Answered? && pc.answer.Replayed?
    ensures var w := S.Run(cs, steps).value;
            var a := w.requests[r].pc.answer;
            && a.from < |cs|
            && w.requests[a.from].run.Some?
            && ReplaysRun(cs[a.from].cfg, w.requests[a.from].run.value, a.record)
  {
    SessionProofs.RunInv(cs, steps);
    var w := S.Run(cs, steps).value;
    var a := w.requests[r].pc.answer;
    assert ReplaySource(cs[a.from], w.requests[a.from], a.record);
    CompletedRecordReplays(cs[a.from].cfg, w.requests[a.from].run.value, 1);
  }

  /** The strategies of a record's variations, in stored order. */
  function StrategiesOf(vs: seq<Variation>): seq<Strategy> {
    seq(|vs|, i requires 0 <= i < |vs| => vs[i].strategy)
  }

  lemma RecordNamesItsRequest(cfg: F.Config, s: F.State, k: nat)
    requires cfg.Valid() && FP.Inv(cfg, s) && k < |s.history| && s.history[k].status == Completed
    ensures StrategiesOf(s.history[k].variations) == cfg.input.strategies
    ensures s.history[k].profile == cfg.input.profile
  {
    FT.CompletedRecord(cfg, s, k);
    forall i | 0 <= i < cfg.Count()
      ensures s.variations[i].strategy == cfg.input.strategies[i]
    {
      FT.CompletedStrategy(cfg, s, i);
    }
  }

  /** Requests without an explicit key share one exactly when they ask for the same thing,
      so a replayed generation is for the requester's own strategies (in some order), for
      its profile up to the analysis time, and was made with its currency. */
  lemma ImplicitReplayAnswersTheRequest(cs: S.Clients, steps: seq<S.Step>, r: nat, key: Key)
    requires S.ValidClients(cs) && S.Run(cs, steps).Some? && r < |cs|
    requires forall q :: 0 <= q < |cs| ==> KeyOf(cs[q].cfg.input) == key
    requires var pc := S.Run(cs, steps).value.requests[r].pc; pc.Answered? && pc.answer.Replayed?
    ensures var a := S.Run(cs, steps).value.requests[r].pc.answer;
            && multiset(StrategiesOf(a.record.variations)) == multiset(cs[r].cfg.input.strategies)
            && a.record.profile.(analyzedAt := cs[r].cfg.input.profile.analyzedAt) == cs[r].cfg.input.profile
            && a.from < |cs| && cs[a.from].cfg.input.currency == cs[r].cfg.input.currency
  {
    SessionProofs.RunInv(cs, steps);
    var w := S.Run(cs, steps).value;
    var a := w.requests[r].pc.answer;
    assert ReplaySource(cs[a.from], w.requests[a.from], a.record);
    RecordNamesItsRequest(cs[a.from].cfg, w.requests[a.from].run.value, 1);
    KeySeparates(cs[a.from].cfg.input, cs[r].cfg.input);
  }
}
