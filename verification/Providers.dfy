/** The two `LLMProvider` adapters: a loop that relays every delta of the upstream
    stream, then one terminal chunk decoded from the concatenation of those deltas.
    The SDK stream is a finite list of items followed by an optional error, and
    `json.Unmarshal` is the parameter `unmarshal`. */
module Providers {
  import opened Wrappers
  import opened Domain

  datatype TierOutput = TierOutput(
    name: string, amount: int, currency: string, interval: string, customLabel: string,
    tagline: string, features: Option<seq<string>>, cta: string, highlighted: bool, badge: string)

  datatype ToolOutput = ToolOutput(
    headline: string, subheadline: string, tiers: seq<TierOutput>, rationale: string)

  type Unmarshal = string -> Option<ToolOutput>

  function DomainTier(t: TierOutput): PricingTier {
    PricingTier(t.name, Price(t.amount, t.currency, t.interval, t.customLabel),
                t.tagline, t.features, t.cta, t.highlighted, t.badge)
  }

  function DomainVariation(id: string, strategy: Strategy, out: ToolOutput): Variation {
    Variation(id, strategy, out.headline, out.subheadline,
              seq(|out.tiers|, i requires 0 <= i < |out.tiers| => DomainTier(out.tiers[i])),
              out.rationale)
  }

  /** `toDomainVariation`: fills the tier slice in a loop, then stamps id and strategy. */
  method ToDomainVariation(id: string, strategy: Strategy, out: ToolOutput) returns (v: Variation)
    ensures v == DomainVariation(id, strategy, out)
  {
    var tiers: seq<PricingTier> := [];
    for i := 0 to |out.tiers|
      invariant |tiers| == i
      invariant forall k :: 0 <= k < i ==> tiers[k] == DomainTier(out.tiers[k])
    {
      tiers := tiers + [DomainTier(out.tiers[i])];
    }
    assert tiers == DomainVariation(id, strategy, out).tiers;
    return Variation(id, strategy, out.headline, out.subheadline, tiers, out.rationale);
  }

  /** `decodeStreamedVariation`: whatever it accepts is valid and carries the id and the
      strategy it was asked for. */
  function Decode(strategy: Strategy, id: string, json: string, unmarshal: Unmarshal): (r: Result<Variation, Error>)
    ensures r.Ok? ==> ValidVariation(r.value) && r.value.strategy == strategy && r.value.id == id
  {
    match unmarshal(json)
    case None => Err(InvalidLLMResponse)
    case Some(out) =>
      var v := DomainVariation(id, strategy, out);
      match VariationError(v)
      case Some(e) => Err(e)
      case None => Ok(v)
  }

  /** The chunk a producer ends with, once its stream is exhausted. */
  function Terminal(strategy: Strategy, id: string, json: string, end: Option<Error>, unmarshal: Unmarshal): (c: Chunk)
    ensures !c.Token?
    ensures c.VariationDone? ==> end == None && Decode(strategy, id, json, unmarshal) == Ok(c.variation)
  {
    match end
    case Some(e) => ChunkError(e)
    case None =>
      match Decode(strategy, id, json, unmarshal)
      case Ok(v) => VariationDone(v)
      case Err(e) => ChunkError(e)
  }

  /** A tier a tool call may ask for, by the values it carries. */
  predicate AcceptableTier(t: TierOutput) {
    && t.name != ""
    && (t.customLabel != "" ||
        (t.currency != "" && t.interval in ["one_time", "monthly", "yearly"] && t.amount >= 0))
  }

  /** A tool call that `decodeStreamedVariation` accepts. */
  predicate AcceptableOutput(out: ToolOutput) {
    && out.headline != ""
    && 1 <= |out.tiers| <= 5
    && forall i :: 0 <= i < |out.tiers| ==> AcceptableTier(out.tiers[i])
  }

  /** The tool call a tier was decoded from. */
  function TierOutputOf(t: PricingTier): TierOutput {
    TierOutput(t.name, t.price.amount, t.price.currency, t.price.interval, t.price.customLabel,
               t.tagline, t.features, t.cta, t.highlighted, t.badge)
  }

  function ToolOutputOf(v: Variation): ToolOutput {
    ToolOutput(v.headline, v.subheadline,
               seq(|v.tiers|, i requires 0 <= i < |v.tiers| => TierOutputOf(v.tiers[i])), v.rationale)
  }

  lemma DecodedTier(t: TierOutput)
    ensures TierOutputOf(DomainTier(t)) == t
    ensures ValidTier(DomainTier(t)) <==> AcceptableTier(t)
  {
  }

  /** What is accepted, exactly, and that nothing of it is lost: text that unmarshals to an
      acceptable tool call for a known strategy, and only such text, decodes, and the tool call
      can be read back from the variation. */
  lemma DecodeIsExact(strategy: Strategy, id: string, json: string, unmarshal: Unmarshal)
    ensures var r, out := Decode(strategy, id, json, unmarshal), unmarshal(json);
            && (r.Ok? <==>
                  && strategy in ["anchor", "freemium", "value_based"]
                  && out.Some? && AcceptableOutput(out.value))
            && (r.Ok? ==>
                  && r.value.id == id && r.value.strategy == strategy
                  && Some(ToolOutputOf(r.value)) == out)
            && (r.Err? ==> r.error == InvalidLLMResponse)
  {
    match unmarshal(json)
    case None =>
    case Some(out) =>
      var v := DomainVariation(id, strategy, out);
      forall i | 0 <= i < |out.tiers|
        ensures TierOutputOf(v.tiers[i]) == out.tiers[i]
        ensures ValidTier(v.tiers[i]) <==> AcceptableTier(out.tiers[i])
      {
        DecodedTier(out.tiers[i]);
      }
      assert ToolOutputOf(v).tiers == out.tiers;
  }

  // ---- Sequences of chunks ----

  predicate AllTokens(chunks: seq<Chunk>) {
    forall i :: 0 <= i < |chunks| ==> chunks[i].Token?
  }

  function Delta(c: Chunk): string { if c.Token? then c.delta else "" }

  /** The concatenation of the token deltas of `chunks`. */
  function Text(chunks: seq<Chunk>): string {
    if chunks == [] then "" else Text(chunks[..|chunks| - 1]) + Delta(chunks[|chunks| - 1])
  }

  lemma TextAppend(chunks: seq<Chunk>, c: Chunk)
    ensures Text(chunks + [c]) == Text(chunks) + Delta(c)
  {
    assert (chunks + [c])[..|chunks|] == chunks;
  }

  /** `chunks` is zero or more tokens and one terminal chunk, and a completed variation
      is exactly what the concatenated tokens decode to. */
  predicate Ended(chunks: seq<Chunk>, strategy: Strategy, id: string, unmarshal: Unmarshal) {
    && chunks != []
    && var tokens := chunks[..|chunks| - 1];
    && AllTokens(tokens)
    && !chunks[|chunks| - 1].Token?
    && (chunks[|chunks| - 1].VariationDone? ==>
          Decode(strategy, id, Text(tokens), unmarshal) == Ok(chunks[|chunks| - 1].variation))
  }

  function Tokens(deltas: seq<string>): (r: seq<Chunk>) {
    seq(|deltas|, i requires 0 <= i < |deltas| => Token(deltas[i]))
  }

  function Join(parts: seq<string>): string {
    if parts == [] then "" else Join(parts[..|parts| - 1]) + parts[|parts| - 1]
  }

  predicate NonEmptyParts(deltas: seq<string>) {
    forall i :: 0 <= i < |deltas| ==> deltas[i] != ""
  }

  lemma TextOfTokens(deltas: seq<string>)
    ensures Text(Tokens(deltas)) == Join(deltas)
  {
    if deltas == [] {
    } else {
      var n := |deltas| - 1;
      assert Tokens(deltas)[..n] == Tokens(deltas[..n]);
      TextOfTokens(deltas[..n]);
    }
  }

  /** Everything an undisturbed producer sends. */
  function Script(strategy: Strategy, id: string, deltas: seq<string>, end: Option<Error>, unmarshal: Unmarshal)
    : seq<Chunk>
  {
    Tokens(deltas) + [Terminal(strategy, id, Join(deltas), end, unmarshal)]
  }

  lemma ScriptEnded(strategy: Strategy, id: string, deltas: seq<string>, end: Option<Error>, unmarshal: Unmarshal)
    ensures Ended(Script(strategy, id, deltas, end, unmarshal), strategy, id, unmarshal)
  {
    TextOfTokens(deltas);
    var s := Script(strategy, id, deltas, end, unmarshal);
    assert s[..|s| - 1] == Tokens(deltas);
  }

  // ---- Sending ----

  /** A request context: once done, it stays done. */
  class Context {
    var done: bool

    constructor ()
      ensures !done
    {
      done := false;
    }
  }

  class ChunkChannel {
    var sent: seq<Chunk>
    var closed: bool

    constructor ()
      ensures sent == [] && !closed
    {
      sent, closed := [], false;
    }

    method Close()
      requires !closed
      modifies this
      ensures closed && sent == old(sent)
    {
      closed := true;
    }
  }

  /** `sendChunk`: the select may still deliver after cancellation, but it gives up only
      when the context is done. Cancellation may arrive at any moment before it. */
  method SendChunk(ctx: Context, out: ChunkChannel, chunk: Chunk) returns (ok: bool)
    requires !out.closed
    modifies ctx, out
    ensures old(ctx.done) ==> ctx.done
    ensures ok ==> out.sent == old(out.sent) + [chunk]
    ensures !ok ==> ctx.done && out.sent == old(out.sent)
    ensures !out.closed
  {
    if * { ctx.done := true; }
    if ctx.done {
      if * { return false; }
    }
    out.sent := out.sent + [chunk];
    return true;
  }

  /** `stream.Next` when it may give up: only on a done context, and that at any call, the one
      after the last item included. */
  method NextGivesUp(ctx: Context) returns (cut: bool)
    modifies ctx
    ensures old(ctx.done) ==> ctx.done
    ensures cut ==> ctx.done
  {
    if * { ctx.done := true; }
    cut := false;
    if ctx.done {
      if * { cut := true; }
    }
  }

  /** The tail both adapters share after their reading loop. */
  method FinishStream(ctx: Context, out: ChunkChannel, strategy: Strategy, id: string,
                      ghost deltas: seq<string>, json: string, end: Option<Error>, unmarshal: Unmarshal)
    requires !out.closed && out.sent == Tokens(deltas) && json == Join(deltas)
    modifies ctx, out
    ensures !out.closed && (old(ctx.done) ==> ctx.done)
    ensures out.sent == Script(strategy, id, deltas, end, unmarshal) || (ctx.done && out.sent == Tokens(deltas))
  {
    if end.Some? {
      var _ := SendChunk(ctx, out, ChunkError(end.value));
      return;
    }
    var decoded := Decode(strategy, id, json, unmarshal);
    if decoded.Err? {
      var _ := SendChunk(ctx, out, ChunkError(decoded.error));
      return;
    }
    var _ := SendChunk(ctx, out, VariationDone(decoded.value));
  }

  /** The contract of `StreamStructured`, for an upstream whose non-empty deltas are
      `deltas`: the channel ends closed; without cancellation exactly the script is sent;
      with it, a prefix of the tokens is, possibly with a terminal chunk that is the last. */
  ghost predicate Streamed(sent: seq<Chunk>, canceled: bool, strategy: Strategy, id: string,
                           deltas: seq<string>, end: Option<Error>, unmarshal: Unmarshal)
  {
    && (AllTokens(sent) || Ended(sent, strategy, id, unmarshal))
    && (!canceled ==> sent == Script(strategy, id, deltas, end, unmarshal))
    && Relayed(sent, deltas)
  }

  /** What an undisturbed stream ends in, by what came from upstream: the upstream's error, or
      the variation its text asks for, or a refusal of that text. */
  predicate EndsRightly(sent: seq<Chunk>, strategy: Strategy, id: string, text: string, end: Option<Error>,
                        unmarshal: Unmarshal)
  {
    && sent != []
    && var last, out := sent[|sent| - 1], unmarshal(text);
    match end
    case Some(e) => last == ChunkError(e)
    case None =>
      if strategy in ["anchor", "freemium", "value_based"] && out.Some? && AcceptableOutput(out.value) then
        && last.VariationDone?
        && last.variation.id == id && last.variation.strategy == strategy
        && ToolOutputOf(last.variation) == out.value
      else last == ChunkError(InvalidLLMResponse)
  }

  lemma UndisturbedEndsRightly(sent: seq<Chunk>, strategy: Strategy, id: string, deltas: seq<string>,
                               end: Option<Error>, unmarshal: Unmarshal)
    requires Streamed(sent, false, strategy, id, deltas, end, unmarshal)
    ensures EndsRightly(sent, strategy, id, Join(deltas), end, unmarshal)
    ensures |sent| == |deltas| + 1 && forall i :: 0 <= i < |deltas| ==> sent[i] == Token(deltas[i])
  {
    DecodeIsExact(strategy, id, Join(deltas), unmarshal);
  }

  function TokenCount(sent: seq<Chunk>): nat {
    if sent != [] && !sent[|sent| - 1].Token? then |sent| - 1 else |sent|
  }

  /** The tokens of `sent` are the first ones of `deltas`. */
  ghost predicate Relayed(sent: seq<Chunk>, deltas: seq<string>) {
    var n := TokenCount(sent);
    n <= |deltas| && forall i :: 0 <= i < n ==> sent[i] == Token(deltas[i])
  }

  lemma StreamedBy(sent: seq<Chunk>, canceled: bool, strategy: Strategy, id: string, read: seq<string>,
                   deltas: seq<string>, end: Option<Error>, lastEnd: Option<Error>, unmarshal: Unmarshal)
    requires read <= deltas
    requires sent == Script(strategy, id, read, lastEnd, unmarshal) || (canceled && sent == Tokens(read))
    requires !canceled ==> read == deltas && lastEnd == end
    ensures Streamed(sent, canceled, strategy, id, deltas, end, unmarshal)
  {
    assert forall i :: 0 <= i < |read| ==> read[i] == deltas[i];
    if sent == Script(strategy, id, read, lastEnd, unmarshal) {
      ScriptEnded(strategy, id, read, lastEnd, unmarshal);
    }
  }

  // ---- Groq ----

  /** One streamed chunk: per choice, the argument fragments of its tool calls. */
  datatype GroqChunk = GroqChunk(choices: seq<seq<string>>)

  function NonEmpty(fragments: seq<string>): seq<string> {
    if fragments == [] then []
    else NonEmpty(fragments[..|fragments| - 1]) +
         (if fragments[|fragments| - 1] != "" then [fragments[|fragments| - 1]] else [])
  }

  function ChunkDeltas(c: GroqChunk): seq<string> {
    if c.choices == [] then [] else NonEmpty(c.choices[0])
  }

  /** `toolCallDeltas`. */
  method ToolCallDeltas(c: GroqChunk) returns (deltas: seq<string>)
    ensures deltas == ChunkDeltas(c)
  {
    if |c.choices| == 0 {
      return [];
    }
    deltas := [];
    var calls := c.choices[0];
    for i := 0 to |calls|
      invariant deltas == NonEmpty(calls[..i])
    {
      assert calls[..i + 1][..i] == calls[..i];
      if calls[i] != "" {
        deltas := deltas + [calls[i]];
      }
    }
    assert calls[..|calls|] == calls;
  }

  function GroqDeltas(items: seq<GroqChunk>): seq<string> {
    if items == [] then [] else GroqDeltas(items[..|items| - 1]) + ChunkDeltas(items[|items| - 1])
  }

  /** One more streamed chunk adds the fragments of its first choice that are not empty, and a
      chunk without a choice adds nothing. */
  lemma GroqChunkAdds(items: seq<GroqChunk>, fragments: seq<string>, others: seq<seq<string>>)
    ensures GroqDeltas(items + [GroqChunk([fragments] + others)]) == GroqDeltas(items) + NonEmpty(fragments)
    ensures GroqDeltas(items + [GroqChunk([])]) == GroqDeltas(items)
  {
    assert (items + [GroqChunk([fragments] + others)])[..|items|] == items;
    assert (items + [GroqChunk([])])[..|items|] == items;
  }

  lemma NonEmptyKeeps(fragments: seq<string>, f: string)
    ensures NonEmpty(fragments + [f]) == if f == "" then NonEmpty(fragments) else NonEmpty(fragments) + [f]
  {
    assert (fragments + [f])[..|fragments|] == fragments;
  }

  /** The relayed text is the text of the fragments. */
  lemma {:induction false} NonEmptyText(fragments: seq<string>)
    ensures Join(NonEmpty(fragments)) == Join(fragments)
  {
    if fragments == [] {
    } else {
      var front, last := fragments[..|fragments| - 1], fragments[|fragments| - 1];
      NonEmptyText(front);
      if last == "" {
        assert NonEmpty(fragments) == NonEmpty(front);
        assert Join(front) + "" == Join(front);
      } else {
        JoinAppend(NonEmpty(front), last);
      }
    }
  }

  lemma {:induction false} NonEmptyHasNoEmptyPart(fragments: seq<string>)
    ensures NonEmptyParts(NonEmpty(fragments))
  {
    if fragments == [] {
    } else {
      NonEmptyHasNoEmptyPart(fragments[..|fragments| - 1]);
    }
  }

  lemma {:induction false} GroqDeltasHaveNoEmptyPart(items: seq<GroqChunk>)
    ensures NonEmptyParts(GroqDeltas(items))
  {
    if items == [] {
    } else {
      GroqDeltasHaveNoEmptyPart(items[..|items| - 1]);
      if items[|items| - 1].choices != [] {
        NonEmptyHasNoEmptyPart(items[|items| - 1].choices[0]);
      }
    }
  }

  lemma {:induction false} GroqDeltasPrefix(items: seq<GroqChunk>, k: nat)
    requires k <= |items|
    ensures GroqDeltas(items[..k]) <= GroqDeltas(items)
    decreases |items| - k
  {
    if k == |items| {
      assert items[..k] == items;
    } else {
      GroqDeltasStep(items, k);
      GroqDeltasPrefix(items, k + 1);
    }
  }

  lemma GroqDeltasStep(items: seq<GroqChunk>, k: nat)
    requires k < |items|
    ensures GroqDeltas(items[..k + 1]) == GroqDeltas(items[..k]) + ChunkDeltas(items[k])
  {
    assert items[..k + 1][..k] == items[..k];
  }

  lemma JoinAppend(parts: seq<string>, p: string)
    ensures Join(parts + [p]) == Join(parts) + p
    ensures Tokens(parts + [p]) == Tokens(parts) + [Token(p)]
  {
    assert (parts + [p])[..|parts|] == parts;
  }

  lemma RelayStep(read: seq<string>, deltas: seq<string>, j: nat)
    requires j < |deltas|
    ensures Join(read + deltas[..j + 1]) == Join(read + deltas[..j]) + deltas[j]
    ensures Tokens(read + deltas[..j + 1]) == Tokens(read + deltas[..j]) + [Token(deltas[j])]
  {
    JoinAppend(read + deltas[..j], deltas[j]);
    assert read + deltas[..j] + [deltas[j]] == read + deltas[..j + 1];
  }

  /** The inner loop of `GroqProvider.StreamStructured`: relays one streamed chunk's
      deltas, and returns false as soon as a send gives up. */
  method RelayDeltas(ctx: Context, out: ChunkChannel, deltas: seq<string>, before: string, ghost read: seq<string>)
    returns (arguments: string, ok: bool, ghost relayed: seq<string>)
    requires !out.closed && before == Join(read) && out.sent == Tokens(read)
    modifies ctx, out
    ensures !out.closed && (old(ctx.done) ==> ctx.done)
    ensures relayed <= deltas && out.sent == Tokens(read + relayed)
    ensures if ok then relayed == deltas && arguments == Join(read + relayed) else ctx.done
  {
    arguments := before;
    var j := 0;
    assert read + deltas[..0] == read;
    while j < |deltas|
      invariant 0 <= j <= |deltas| && !out.closed && (old(ctx.done) ==> ctx.done)
      invariant arguments == Join(read + deltas[..j]) && out.sent == Tokens(read + deltas[..j])
    {
      arguments := arguments + deltas[j];
      RelayStep(read, deltas, j);
      ok := SendChunk(ctx, out, Token(deltas[j]));
      if !ok {
        return arguments, false, deltas[..j];
      }
      j := j + 1;
    }
    assert deltas[..j] == deltas;
    return arguments, true, deltas;
  }

  lemma PrefixOfAppended<T>(a: seq<T>, b: seq<T>, part: seq<T>, whole: seq<T>)
    requires a + b <= whole && part <= b
    ensures a + part <= whole
  {
  }

  lemma GroqStopped(items: seq<GroqChunk>, k: nat, relayed: seq<string>)
    requires k < |items| && relayed <= ChunkDeltas(items[k])
    ensures GroqDeltas(items[..k]) + relayed <= GroqDeltas(items)
  {
    GroqDeltasStep(items, k);
    GroqDeltasPrefix(items, k + 1);
    PrefixOfAppended(GroqDeltas(items[..k]), ChunkDeltas(items[k]), relayed, GroqDeltas(items));
  }

  /** `GroqProvider.StreamStructured`'s goroutine: a loop over streamed chunks, and inside
      it a loop over the chunk's deltas. A done context may end the upstream at any `Next`,
      with any error or none. */
  method StreamGroq(ctx: Context, out: ChunkChannel, strategy: Strategy, id: string,
                    items: seq<GroqChunk>, end: Option<Error>, unmarshal: Unmarshal)
    requires !out.closed && out.sent == []
    modifies ctx, out
    ensures out.closed
    ensures Streamed(out.sent, ctx.done, strategy, id, GroqDeltas(items), end, unmarshal)
    ensures !ctx.done ==> EndsRightly(out.sent, strategy, id, Join(GroqDeltas(items)), end, unmarshal)
  {
    var arguments := "";
    var failure := end;
    var k := 0;
    while k < |items|
      invariant 0 <= k <= |items| && !out.closed
      invariant arguments == Join(GroqDeltas(items[..k])) && out.sent == Tokens(GroqDeltas(items[..k]))
      invariant failure == end
    {
      var cut := NextGivesUp(ctx);
      if cut {
        failure := *;
        break;
      }
      var deltas := ToolCallDeltas(items[k]);
      var ok: bool;
      ghost var relayed: seq<string>;
      arguments, ok, relayed := RelayDeltas(ctx, out, deltas, arguments, GroqDeltas(items[..k]));
      if !ok {
        out.Close();
        GroqStopped(items, k, relayed);
        StreamedBy(out.sent, ctx.done, strategy, id, GroqDeltas(items[..k]) + relayed, GroqDeltas(items),
                   end, end, unmarshal);
        return;
      }
      GroqDeltasStep(items, k);
      k := k + 1;
    }
    if k == |items| {
      var cut := NextGivesUp(ctx);
      if cut {
        failure := *;
      }
    }
    FinishStream(ctx, out, strategy, id, GroqDeltas(items[..k]), arguments, failure, unmarshal);
    out.Close();
    GroqDeltasPrefix(items, k);
    assert k == |items| ==> items[..k] == items;
    StreamedBy(out.sent, ctx.done, strategy, id, GroqDeltas(items[..k]), GroqDeltas(items), end, failure, unmarshal);
    if !ctx.done {
      UndisturbedEndsRightly(out.sent, strategy, id, GroqDeltas(items), end, unmarshal);
    }
  }

  // ---- Anthropic ----

  datatype AnthropicEvent = AnthropicEvent(kind: string, partialJSON: string)

  /** `inputJSONDelta`. */
  function InputJSONDelta(e: AnthropicEvent): string {
    if e.kind != "content_block_delta" then "" else e.partialJSON
  }

  function AnthropicDeltas(items: seq<AnthropicEvent>): seq<string> {
    if items == [] then []
    else
      var d := InputJSONDelta(items[|items| - 1]);
      AnthropicDeltas(items[..|items| - 1]) + (if d == "" then [] else [d])
  }

  /** One more event adds its JSON fragment if it is a content block delta that has one. */
  lemma AnthropicEventAdds(items: seq<AnthropicEvent>, kind: string, partialJSON: string)
    ensures AnthropicDeltas(items + [AnthropicEvent(kind, partialJSON)])
         == if kind == "content_block_delta" && partialJSON != "" then AnthropicDeltas(items) + [partialJSON]
            else AnthropicDeltas(items)
  {
    assert (items + [AnthropicEvent(kind, partialJSON)])[..|items|] == items;
  }

  lemma {:induction false} AnthropicDeltasHaveNoEmptyPart(items: seq<AnthropicEvent>)
    ensures NonEmptyParts(AnthropicDeltas(items))
  {
    if items == [] {
    } else {
      AnthropicDeltasHaveNoEmptyPart(items[..|items| - 1]);
    }
  }

  lemma {:induction false} AnthropicDeltasPrefix(items: seq<AnthropicEvent>, k: nat)
    requires k <= |items|
    ensures AnthropicDeltas(items[..k]) <= AnthropicDeltas(items)
    decreases |items| - k
  {
    if k == |items| {
      assert items[..k] == items;
    } else {
      AnthropicDeltasStep(items, k);
      AnthropicDeltasPrefix(items, k + 1);
    }
  }

  lemma AnthropicDeltasStep(items: seq<AnthropicEvent>, k: nat)
    requires k < |items|
    ensures var d := InputJSONDelta(items[k]);
            AnthropicDeltas(items[..k + 1]) == AnthropicDeltas(items[..k]) + (if d == "" then [] else [d])
  {
    assert items[..k + 1][..k] == items[..k];
  }

  /** `AnthropicProvider.StreamStructured`'s goroutine. */
  method StreamAnthropic(ctx: Context, out: ChunkChannel, strategy: Strategy, id: string,
                         items: seq<AnthropicEvent>, end: Option<Error>, unmarshal: Unmarshal)
    requires !out.closed && out.sent == []
    modifies ctx, out
    ensures out.closed
    ensures Streamed(out.sent, ctx.done, strategy, id, AnthropicDeltas(items), end, unmarshal)
    ensures !ctx.done ==> EndsRightly(out.sent, strategy, id, Join(AnthropicDeltas(items)), end, unmarshal)
  {
    var partialJSON := "";
    var failure := end;
    ghost var read: seq<string> := [];
    var k := 0;
    while k < |items|
      invariant 0 <= k <= |items| && !out.closed
      invariant read == AnthropicDeltas(items[..k])
      invariant partialJSON == Join(read) && out.sent == Tokens(read)
      invariant failure == end
    {
      var cut := NextGivesUp(ctx);
      if cut {
        failure := *;
        break;
      }
      var delta := InputJSONDelta(items[k]);
      AnthropicDeltasStep(items, k);
      AnthropicDeltasPrefix(items, k);
      k := k + 1;
      if delta == "" {
        continue;
      }
      partialJSON := partialJSON + delta;
      JoinAppend(read, delta);
      var ok := SendChunk(ctx, out, Token(delta));
      if !ok {
        out.Close();
        StreamedBy(out.sent, ctx.done, strategy, id, read, AnthropicDeltas(items), end, end, unmarshal);
        return;
      }
      read := read + [delta];
    }
    if k == |items| {
      var cut := NextGivesUp(ctx);
      if cut {
        failure := *;
      }
    }
    FinishStream(ctx, out, strategy, id, read, partialJSON, failure, unmarshal);
    out.Close();
    AnthropicDeltasPrefix(items, k);
    assert k == |items| ==> items[..k] == items;
    StreamedBy(out.sent, ctx.done, strategy, id, read, AnthropicDeltas(items), end, failure, unmarshal);
    if !ctx.done {
      UndisturbedEndsRightly(out.sent, strategy, id, AnthropicDeltas(items), end, unmarshal);
    }
  }
}
