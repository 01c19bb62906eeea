/** The response mappers of the HTTP layer, and the replay of a stored generation. Ids are
    UUIDs the service stamped itself, so `parseUUID` is the identity on them. */
module ApiMapping {
  import opened Wrappers
  import opened Domain

  datatype ApiPrice = ApiPrice(amount: int, currency: string, interval: string, customLabel: Option<string>)

  datatype ApiTier = ApiTier(
    name: string, features: seq<string>, price: ApiPrice,
    tagline: Option<string>, cta: Option<string>, badge: Option<string>, highlighted: Option<bool>)

  datatype ApiVariation = ApiVariation(
    id: string, strategy: Strategy, headline: string, subheadline: Option<string>,
    rationale: Option<string>, tiers: seq<ApiTier>)

  datatype ApiAudience = ApiAudience(segment: string, sophistication: string, pricePosition: Option<string>)

  datatype ApiSiteProfile = ApiSiteProfile(
    url: string, title: string, valueProposition: string, industry: string,
    audience: ApiAudience, keywords: Option<seq<string>>, sourceType: string, analyzedAt: int)

  datatype ApiGeneration = ApiGeneration(
    id: string, sourceUrl: string, status: Status, createdAt: int,
    variations: seq<ApiVariation>, siteProfile: ApiSiteProfile)

  datatype Problem = Problem(status: int, title: string)

  /** The generated `api.StreamChunk`: one SSE frame. */
  datatype StreamChunk = StreamChunk(
    kind: EventKind, strategy: Option<Strategy>, delta: Option<string>, variation: Option<ApiVariation>,
    generationId: Option<string>, generation: Option<ApiGeneration>, problem: Option<Problem>)

  function ToApiPrice(p: Price): ApiPrice {
    ApiPrice(p.amount, p.currency, p.interval, UnlessEmpty(p.customLabel))
  }

  /** A nil feature list becomes an empty one. */
  function ToApiTier(t: PricingTier): ApiTier {
    ApiTier(t.name, t.features.GetOr([]), ToApiPrice(t.price),
            UnlessEmpty(t.tagline), UnlessEmpty(t.cta), UnlessEmpty(t.badge),
            if t.highlighted then Some(true) else None)
  }

  function ToApiVariation(v: Variation): ApiVariation {
    ApiVariation(v.id, v.strategy, v.headline, UnlessEmpty(v.subheadline), UnlessEmpty(v.rationale),
                 seq(|v.tiers|, i requires 0 <= i < |v.tiers| => ToApiTier(v.tiers[i])))
  }

  /** `toAPISiteProfile`: an empty keyword list is left out. */
  function ToApiSiteProfile(p: SiteProfile): ApiSiteProfile {
    ApiSiteProfile(
      p.url, p.title, p.valueProposition, p.industry,
      ApiAudience(p.audience.segment, p.audience.sophistication, UnlessEmpty(p.audience.pricePosition)),
      UnlessEmpty(p.keywords.GetOr([])), p.sourceType, p.analyzedAt)
  }

  /** `fromAPISiteProfile`. */
  function FromApiSiteProfile(p: ApiSiteProfile): SiteProfile {
    SiteProfile(
      p.url, p.title, p.valueProposition, p.industry,
      Audience(p.audience.segment, p.audience.sophistication, p.audience.pricePosition.GetOr("")),
      p.keywords, p.sourceType, p.analyzedAt)
  }

  function ToApiGeneration(g: Generation): ApiGeneration {
    ApiGeneration(g.id, g.sourceUrl, g.status, g.createdAt,
                  seq(|g.variations|, i requires 0 <= i < |g.variations| => ToApiVariation(g.variations[i])),
                  ToApiSiteProfile(g.profile))
  }

  /** `toAPIStreamChunk`. */
  function ToChunk(ev: Event): StreamChunk {
    StreamChunk(
      ev.kind,
      UnlessEmpty(ev.strategy),
      UnlessEmpty(ev.delta),
      match ev.variation case Some(v) => Some(ToApiVariation(v)) case None => None,
      match ev.generation case Some(g) => Some(g.id) case None => None,
      match ev.generation case Some(g) => Some(ToApiGeneration(g)) case None => None,
      if ev.err.Some? then Some(Problem(500, "generation failed")) else None)
  }

  /** The frames of a sequence of events. */
  function Chunks(events: seq<Event>): seq<StreamChunk> {
    seq(|events|, i requires 0 <= i < |events| => ToChunk(events[i]))
  }

  // ---- nothing but nil-versus-empty is lost ----

  function FromApiTier(t: ApiTier): PricingTier {
    PricingTier(t.name, Price(t.price.amount, t.price.currency, t.price.interval, t.price.customLabel.GetOr("")),
                t.tagline.GetOr(""), Some(t.features), t.cta.GetOr(""), t.highlighted == Some(true), t.badge.GetOr(""))
  }

  function FromApiVariation(v: ApiVariation): Variation {
    Variation(v.id, v.strategy, v.headline, v.subheadline.GetOr(""),
              seq(|v.tiers|, i requires 0 <= i < |v.tiers| => FromApiTier(v.tiers[i])), v.rationale.GetOr(""))
  }

  /** The variation with nil feature lists made empty. */
  function WithFeatures(t: PricingTier): PricingTier {
    t.(features := Some(t.features.GetOr([])))
  }

  function Normalized(v: Variation): Variation {
    v.(tiers := seq(|v.tiers|, i requires 0 <= i < |v.tiers| => WithFeatures(v.tiers[i])))
  }

  lemma TierRoundTrip(t: PricingTier)
    ensures FromApiTier(ToApiTier(t)) == WithFeatures(t)
  {
  }

  /** A client can read every variation back from its frame. */
  lemma VariationRoundTrip(v: Variation)
    ensures FromApiVariation(ToApiVariation(v)) == Normalized(v)
  {
    forall i | 0 <= i < |v.tiers|
      ensures FromApiVariation(ToApiVariation(v)).tiers[i] == Normalized(v).tiers[i]
    {
      TierRoundTrip(v.tiers[i]);
    }
    assert FromApiVariation(ToApiVariation(v)).tiers == Normalized(v).tiers;
  }

  /** A client that sends back the profile it was given asks about that profile. */
  lemma ProfileRoundTrip(p: SiteProfile)
    ensures FromApiSiteProfile(ToApiSiteProfile(p)) == NormalizedProfile(p)
  {
  }

  /** The profile with an empty keyword list made nil. */
  function NormalizedProfile(p: SiteProfile): SiteProfile {
    p.(keywords := UnlessEmpty(p.keywords.GetOr([])))
  }

  function FromApiGeneration(g: ApiGeneration): Generation {
    Generation(g.id, g.sourceUrl, FromApiSiteProfile(g.siteProfile), g.status,
               seq(|g.variations|, i requires 0 <= i < |g.variations| => FromApiVariation(g.variations[i])),
               g.createdAt)
  }

  function NormalizedGeneration(g: Generation): Generation {
    g.(profile := NormalizedProfile(g.profile),
       variations := seq(|g.variations|, i requires 0 <= i < |g.variations| => Normalized(g.variations[i])))
  }

  lemma GenerationRoundTrip(g: Generation)
    ensures FromApiGeneration(ToApiGeneration(g)) == NormalizedGeneration(g)
  {
    forall i | 0 <= i < |g.variations|
      ensures FromApiGeneration(ToApiGeneration(g)).variations[i] == NormalizedGeneration(g).variations[i]
    {
      VariationRoundTrip(g.variations[i]);
    }
    assert FromApiGeneration(ToApiGeneration(g)).variations == NormalizedGeneration(g).variations;
  }

  /** What a client learns from an event: all of it but the cause of an error. */
  datatype Notice = Notice(
    kind: EventKind, strategy: Strategy, delta: string,
    variation: Option<Variation>, generation: Option<Generation>, failed: bool)

  function NoticeOf(ev: Event): Notice {
    Notice(ev.kind, ev.strategy, ev.delta,
           match ev.variation case Some(v) => Some(Normalized(v)) case None => None,
           match ev.generation case Some(g) => Some(NormalizedGeneration(g)) case None => None,
           ev.err.Some?)
  }

  function ReadChunk(c: StreamChunk): Notice {
    Notice(c.kind, c.strategy.GetOr(""), c.delta.GetOr(""),
           match c.variation case Some(v) => Some(FromApiVariation(v)) case None => None,
           match c.generation case Some(g) => Some(FromApiGeneration(g)) case None => None,
           c.problem.Some?)
  }

  /** A frame gives its event back, and names the generation it carries. Two errors that
      differ only in their cause give the same frame. */
  lemma ChunkRoundTrip(ev: Event)
    ensures ReadChunk(ToChunk(ev)) == NoticeOf(ev)
    ensures ToChunk(ev).generationId == if ev.generation.Some? then Some(ev.generation.value.id) else None
    ensures ev.err.Some? ==> ToChunk(ev).problem == Some(Problem(500, "generation failed"))
    ensures forall e: Error :: ev.err.Some? ==> ToChunk(ev.(err := Some(e))) == ToChunk(ev)
  {
    if ev.variation.Some? {
      VariationRoundTrip(ev.variation.value);
    }
    if ev.generation.Some? {
      GenerationRoundTrip(ev.generation.value);
    }
  }

  /** What is left out of a tier, a variation, a profile and a frame: exactly what is empty. */
  lemma LeftOutIsEmpty(t: PricingTier, v: Variation, p: SiteProfile, ev: Event)
    ensures var a := ToApiTier(t);
            && (a.tagline == None <==> t.tagline == "") && (a.cta == None <==> t.cta == "")
            && (a.badge == None <==> t.badge == "") && (a.highlighted == None <==> !t.highlighted)
            && (a.price.customLabel == None <==> t.price.customLabel == "")
    ensures var a := ToApiVariation(v);
            (a.subheadline == None <==> v.subheadline == "") && (a.rationale == None <==> v.rationale == "")
    ensures var a := ToApiSiteProfile(p);
            && (a.keywords == None <==> p.keywords.GetOr([]) == [])
            && (a.audience.pricePosition == None <==> p.audience.pricePosition == "")
    ensures var c := ToChunk(ev);
            && (c.strategy == None <==> ev.strategy == "") && (c.delta == None <==> ev.delta == "")
            && (c.variation == None <==> ev.variation == None) && (c.generation == None <==> ev.generation == None)
            && (c.problem == None <==> ev.err == None)
  {
  }

  /** A profile a client sends is taken as sent. */
  lemma ProfileIsTakenAsSent(p: ApiSiteProfile)
    ensures var d := FromApiSiteProfile(p);
            && d.keywords == p.keywords && d.audience.pricePosition == p.audience.pricePosition.GetOr("")
            && d.analyzedAt == p.analyzedAt
            && (p.keywords != Some([]) && p.audience.pricePosition != Some("") ==> ToApiSiteProfile(d) == p)
  {
  }

  // ---- replay ----

  /** The frame a replay writes for one stored variation. */
  function ReplayFrame(v: Variation): StreamChunk {
    StreamChunk(VariationCompleted, Some(v.strategy), None, Some(ToApiVariation(v)), None, None, None)
  }

  function ReplayDone(g: Generation): StreamChunk {
    StreamChunk(Done, None, None, None, Some(g.id), Some(ToApiGeneration(g)), None)
  }

  function ReplayFrames(g: Generation): seq<StreamChunk> {
    seq(|g.variations|, i requires 0 <= i < |g.variations| => ReplayFrame(g.variations[i])) + [ReplayDone(g)]
  }

  /** An HTTP response: status line (sent once), the headers this model needs, the SSE frames
      written, and whether a write has failed. */
  class Response {
    const flushable: bool
    var status: Option<int>
    var generationHeader: Option<string>
    var retryAfter: Option<int>
    var frames: seq<StreamChunk>
    var broken: bool

    constructor (flushable: bool)
      ensures this.flushable == flushable && Untouched()
    {
      this.flushable := flushable;
      status, generationHeader, retryAfter, frames, broken := None, None, None, [], false;
    }

    predicate Untouched()
      reads this
    {
      status == None && generationHeader == None && retryAfter == None && frames == [] && !broken
    }

    /** `writeSSEHeader`. */
    method WriteSSEHeader(id: Option<string>)
      requires status == None
      modifies this`status, this`generationHeader
      ensures status == Some(200) && generationHeader == id
    {
      status := Some(200);
      generationHeader := id;
    }

    method WriteProblem(code: int)
      requires status == None
      modifies this`status
      ensures status == Some(code)
    {
      status := Some(code);
    }

    /** `writeSSEFrame`: any write may fail, leaving the frame out. */
    method WriteFrame(c: StreamChunk) returns (ok: bool)
      modifies this`frames, this`broken
      ensures frames == if ok then old(frames) + [c] else old(frames)
      ensures broken == (old(broken) || !ok)
    {
      if * {
        broken := true;
        return false;
      }
      frames := frames + [c];
      return true;
    }
  }

  /** `writeReplayedGeneration`. */
  method WriteReplayedGeneration(w: Response, g: Generation)
    requires w.Untouched()
    modifies w`status, w`generationHeader, w`frames, w`broken
    ensures w.status == Some(200) && w.generationHeader == Some(g.id)
    ensures w.frames <= ReplayFrames(g)
    ensures if w.flushable then w.broken || w.frames == ReplayFrames(g) else w.frames == []
  {
    w.WriteSSEHeader(Some(g.id));
    if !w.flushable {
      return;
    }
    for i := 0 to |g.variations|
      invariant w.status == Some(200) && w.generationHeader == Some(g.id) && !w.broken
      invariant w.frames == ReplayFrames(g)[..i]
    {
      var v := ToApiVariation(g.variations[i]);
      var ok := w.WriteFrame(StreamChunk(VariationCompleted, Some(v.strategy), None, Some(v), None, None, None));
      if !ok {
        return;
      }
    }
    var _ := w.WriteFrame(StreamChunk(Done, None, None, None, Some(g.id), Some(ToApiGeneration(g)), None));
  }
}
