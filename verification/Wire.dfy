/** From events to bytes and back: the mapper, the JSON and the framing put together. */
module Wire {
  import opened Wrappers
  import opened Domain
  import opened ApiMapping
  import opened FrameJson
  import Json
  import Sse
  import F = Fanout
  import FT = FanoutTheorems

  function Payloads(chunks: seq<StreamChunk>, clock: Clock): (r: seq<string>)
    ensures |r| == |chunks|
  {
    seq(|chunks|, i requires 0 <= i < |chunks| => Encode(chunks[i], clock))
  }

  /** The body of an SSE response that wrote these frames. */
  function Body(chunks: seq<StreamChunk>, clock: Clock): string {
    Sse.Frames(Payloads(chunks, clock))
  }

  /** What a client makes of a body: the chunk of each message, if it can be read. */
  function Received(body: string, clock: Clock): seq<Option<StreamChunk>> {
    var messages := Sse.Read(body);
    seq(|messages|, i requires 0 <= i < |messages| => Decode(messages[i].data, clock))
  }

  lemma PayloadIsOneLine(c: StreamChunk, clock: Clock)
    ensures Sse.OneLine(Encode(c, clock))
  {
    Json.PrintIsInert(Object(ChunkFields(c, clock)));
  }

  /** No payload the service can produce breaks the framing. */
  lemma PayloadsSurviveFraming(chunks: seq<StreamChunk>, clock: Clock)
    ensures Sse.Read(Body(chunks, clock)) == Sse.MessagesOf(Payloads(chunks, clock))
  {
    forall i | 0 <= i < |chunks|
      ensures Sse.OneLine(Payloads(chunks, clock)[i])
    {
      PayloadIsOneLine(chunks[i], clock);
    }
    Sse.FramingRoundTrip(Payloads(chunks, clock));
  }

  /** A client recovers every chunk from the bytes, in order and with nothing in between. */
  lemma BodyRoundTrip(chunks: seq<StreamChunk>, clock: Clock)
    requires clock.Faithful()
    ensures Received(Body(chunks, clock), clock)
         == seq(|chunks|, i requires 0 <= i < |chunks| => Some(chunks[i]))
  {
    PayloadsSurviveFraming(chunks, clock);
    forall i | 0 <= i < |chunks|
      ensures Received(Body(chunks, clock), clock)[i] == Some(chunks[i])
    {
      PayloadRoundTrip(chunks[i], clock);
    }
  }

  /** And so every event of a run that it was sent, whatever text the model put into it. */
  lemma EventsReachTheClient(events: seq<Event>, clock: Clock)
    requires clock.Faithful()
    ensures var received := Received(Body(Chunks(events), clock), clock);
            && |received| == |events|
            && forall i :: 0 <= i < |events| ==>
                 received[i].Some? && ReadChunk(received[i].value) == NoticeOf(events[i])
  {
    BodyRoundTrip(Chunks(events), clock);
    forall i | 0 <= i < |events|
      ensures ReadChunk(ToChunk(events[i])) == NoticeOf(events[i])
    {
      ChunkRoundTrip(events[i]);
    }
  }

  /** What a client of the run makes of the bytes it was sent. */
  function SeenBy(cfg: F.Config, steps: seq<F.Step>, clock: Clock): seq<Option<StreamChunk>>
    requires |cfg.upstreams| == cfg.Count() && F.Run(cfg, steps).Some?
  {
    Received(Body(Chunks(F.Run(cfg, steps).value.delivered), clock), clock)
  }

  /** A client that reads `done` holds a record that was stored as completed, with the
      variations of all its strategies. */
  lemma DoneOnTheWireIsStored(cfg: F.Config, steps: seq<F.Step>, clock: Clock, k: nat)
    requires cfg.Valid() && F.Run(cfg, steps).Some? && clock.Faithful()
    requires k < |SeenBy(cfg, steps, clock)|
    requires var c := SeenBy(cfg, steps, clock)[k]; c.Some? && c.value.kind == Done
    ensures var s := F.Run(cfg, steps).value;
            && |s.history| == 2
            && ReadChunk(SeenBy(cfg, steps, clock)[k].value).generation == Some(NormalizedGeneration(s.history[1]))
            && s.history[1].status == Completed
            && |s.history[1].variations| == cfg.Count()
  {
    var s := F.Run(cfg, steps).value;
    EventsReachTheClient(s.delivered, clock);
    BodyRoundTrip(Chunks(s.delivered), clock);
    assert s.delivered[k].kind == Done;
    FT.DoneIsEarned(cfg, steps, k);
  }

  /** One token on the wire, to the character. */
  lemma TokenOnTheWire(strategy: string, delta: string, clock: Clock)
    ensures var payload := Encode(StreamChunk(TokenEvent, Some(strategy), Some(delta), None, None, None, None), clock);
            Sse.Frame(payload) == "data: " + payload + "\n" + "\n"
    ensures Body([StreamChunk(TokenEvent, Some(strategy), Some(delta), None, None, None, None)], clock)
         == Sse.Frame(Encode(StreamChunk(TokenEvent, Some(strategy), Some(delta), None, None, None, None), clock))
  {
    var c := StreamChunk(TokenEvent, Some(strategy), Some(delta), None, None, None, None);
    var payload := Encode(c, clock);
    assert payload + "\n\n" == payload + "\n" + "\n";
    assert "data: " + (payload + "\n" + "\n") == "data: " + payload + "\n" + "\n";
    assert Payloads([c], clock) == [payload] && [payload][1..] == [];
    assert Sse.Frames([payload]) == Sse.Frame(payload) + Sse.Frames([]);
    assert Sse.Frame(payload) + "" == Sse.Frame(payload);
  }
}
