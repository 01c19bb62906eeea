/** The JSON of an SSE frame: what `json.Marshal` writes for an `api.StreamChunk`, and a
    client that looks members up by name. How a time is written is a parameter. */
module FrameJson {
  import opened Wrappers
  import opened Domain
  import opened ApiMapping
  import opened Json
  import JsonString

  /** A struct field: None is one that `omitempty` leaves out. */
  datatype Field = Field(key: string, value: Option<Value>)

  function Members(fields: seq<Field>): seq<Member> {
    if fields == [] then []
    else if fields[0].value.None? then Members(fields[1..])
    else [Member(fields[0].key, fields[0].value.value)] + Members(fields[1..])
  }

  function Find(members: seq<Member>, key: string): Option<Value> {
    if members == [] then None
    else if members[0].key == key then Some(members[0].value)
    else Find(members[1..], key)
  }

  predicate DistinctKeys(fields: seq<Field>) {
    forall i, j :: 0 <= i < j < |fields| ==> fields[i].key != fields[j].key
  }

  lemma {:induction false} FindAbsent(fields: seq<Field>, key: string)
    requires forall i :: 0 <= i < |fields| ==> fields[i].key != key
    ensures Find(Members(fields), key) == None
  {
    if fields == [] {
    } else {
      FindAbsent(fields[1..], key);
      if fields[0].value.Some? {
        assert Members(fields)[1..] == Members(fields[1..]);
      }
    }
  }

  lemma {:induction false} FindField(fields: seq<Field>, i: nat)
    requires DistinctKeys(fields) && i < |fields|
    ensures Find(Members(fields), fields[i].key) == fields[i].value
  {
    if fields[0].value.Some? {
      assert Members(fields)[1..] == Members(fields[1..]);
    }
    if i == 0 {
      if fields[0].value.None? {
        FindAbsent(fields[1..], fields[0].key);
      }
    } else {
      FindField(fields[1..], i - 1);
    }
  }

  /** The object with these fields. */
  function Object(fields: seq<Field>): Value {
    Record(Members(fields))
  }

  function Get(v: Value, key: string): Option<Value> {
    if v.Record? then Find(v.members, key) else None
  }

  lemma GetField(fields: seq<Field>, i: nat, key: string)
    requires DistinctKeys(fields) && i < |fields| && fields[i].key == key
    ensures Get(Object(fields), key) == fields[i].value
  {
    FindField(fields, i);
  }

  // ---------- values of the basic types ----------

  function OptText(t: Option<string>): Option<Value> {
    match t
    case Some(s) => Some(Text(s))
    case None => None
  }

  function AsText(v: Option<Value>): Option<string> {
    if v.Some? && v.value.Text? then Some(v.value.text) else None
  }

  function AsOptText(v: Option<Value>): Option<Option<string>> {
    if v.None? then Some(None) else if v.value.Text? then Some(Some(v.value.text)) else None
  }

  function AsNumber(v: Option<Value>): Option<int> {
    if v.Some? && v.value.Number? then Some(v.value.number) else None
  }

  function AsOptFlag(v: Option<Value>): Option<Option<bool>> {
    if v.None? then Some(None) else if v.value.Flag? then Some(Some(v.value.flag)) else None
  }

  function Each<T>(write: T -> Value, xs: seq<T>): seq<Value> {
    if xs == [] then [] else [write(xs[0])] + Each(write, xs[1..])
  }

  function ReadEach<T>(read: Value -> Option<T>, vs: seq<Value>): Option<seq<T>> {
    if vs == [] then Some([])
    else
      var x :- read(vs[0]);
      var xs :- ReadEach(read, vs[1..]);
      Some([x] + xs)
  }

  function AsList<T>(read: Value -> Option<T>, v: Option<Value>): Option<seq<T>> {
    if v.Some? && v.value.List? then ReadEach(read, v.value.items) else None
  }

  lemma {:induction false} EachRoundTrip<T>(write: T -> Value, read: Value -> Option<T>, xs: seq<T>)
    requires forall i :: 0 <= i < |xs| ==> read(write(xs[i])) == Some(xs[i])
    ensures ReadEach(read, Each(write, xs)) == Some(xs)
  {
    if xs == [] {
    } else {
      EachRoundTrip(write, read, xs[1..]);
      assert [xs[0]] + xs[1..] == xs;
    }
  }

  function TextValue(s: string): Value { Text(s) }

  function ReadText(v: Value): Option<string> { AsText(Some(v)) }

  function Texts(ts: seq<string>): Value { List(Each(TextValue, ts)) }

  lemma TextsRoundTrip(ts: seq<string>)
    ensures AsList(ReadText, Some(Texts(ts))) == Some(ts)
  {
    EachRoundTrip(TextValue, ReadText, ts);
  }

  /** How times are written; reading undoes it. */
  datatype Clock = Clock(write: int -> string, read: string -> Option<int>) {
    ghost predicate Faithful() {
      forall t: int :: read(write(t)) == Some(t)
    }
  }

  function AsTime(clock: Clock, v: Option<Value>): Option<int> {
    var t :- AsText(v);
    clock.read(t)
  }

  // ---------- a variation ----------

  function PriceFields(p: ApiPrice): seq<Field> {
    [Field("amount", Some(Number(p.amount))),
     Field("currency", Some(Text(p.currency))),
     Field("customLabel", OptText(p.customLabel)),
     Field("interval", Some(Text(p.interval)))]
  }

  function ReadPrice(v: Value): Option<ApiPrice> {
    var amount :- AsNumber(Get(v, "amount"));
    var currency :- AsText(Get(v, "currency"));
    var customLabel :- AsOptText(Get(v, "customLabel"));
    var interval :- AsText(Get(v, "interval"));
    Some(ApiPrice(amount, currency, interval, customLabel))
  }

  lemma PriceRoundTrip(p: ApiPrice)
    ensures ReadPrice(Object(PriceFields(p))) == Some(p)
  {
    var f := PriceFields(p);
    GetField(f, 0, "amount");
    GetField(f, 1, "currency");
    GetField(f, 2, "customLabel");
    GetField(f, 3, "interval");
  }

  function TierFields(t: ApiTier): seq<Field> {
    [Field("badge", OptText(t.badge)),
     Field("cta", OptText(t.cta)),
     Field("features", Some(Texts(t.features))),
     Field("highlighted", match t.highlighted case Some(b) => Some(Flag(b)) case None => None),
     Field("name", Some(Text(t.name))),
     Field("price", Some(Object(PriceFields(t.price)))),
     Field("tagline", OptText(t.tagline))]
  }

  function TierValue(t: ApiTier): Value { Object(TierFields(t)) }

  function ReadTier(v: Value): Option<ApiTier> {
    var badge :- AsOptText(Get(v, "badge"));
    var cta :- AsOptText(Get(v, "cta"));
    var features :- AsList(ReadText, Get(v, "features"));
    var highlighted :- AsOptFlag(Get(v, "highlighted"));
    var name :- AsText(Get(v, "name"));
    var priceValue :- Get(v, "price");
    var price :- ReadPrice(priceValue);
    var tagline :- AsOptText(Get(v, "tagline"));
    Some(ApiTier(name, features, price, tagline, cta, badge, highlighted))
  }

  lemma TierKeys(t: ApiTier)
    ensures DistinctKeys(TierFields(t))
  {
  }

  lemma TierTexts(t: ApiTier)
    ensures var v := TierValue(t);
            && AsOptText(Get(v, "badge")) == Some(t.badge)
            && AsOptText(Get(v, "cta")) == Some(t.cta)
            && AsText(Get(v, "name")) == Some(t.name)
            && AsOptText(Get(v, "tagline")) == Some(t.tagline)
  {
    var f := TierFields(t);
    TierKeys(t);
    GetField(f, 0, "badge");
    GetField(f, 1, "cta");
    GetField(f, 4, "name");
    GetField(f, 6, "tagline");
  }

  lemma TierParts(t: ApiTier)
    ensures var v := TierValue(t);
            && AsList(ReadText, Get(v, "features")) == Some(t.features)
            && AsOptFlag(Get(v, "highlighted")) == Some(t.highlighted)
            && Get(v, "price").Some? && ReadPrice(Get(v, "price").value) == Some(t.price)
  {
    var f := TierFields(t);
    TierKeys(t);
    GetField(f, 2, "features");
    GetField(f, 3, "highlighted");
    GetField(f, 5, "price");
    TextsRoundTrip(t.features);
    PriceRoundTrip(t.price);
  }

  lemma TierRoundTrip(t: ApiTier)
    ensures ReadTier(TierValue(t)) == Some(t)
  {
    TierTexts(t);
    TierParts(t);
    TierAssembled(TierValue(t), t);
  }

  lemma TierAssembled(v: Value, t: ApiTier)
    requires AsOptText(Get(v, "badge")) == Some(t.badge) && AsOptText(Get(v, "cta")) == Some(t.cta)
    requires AsText(Get(v, "name")) == Some(t.name) && AsOptText(Get(v, "tagline")) == Some(t.tagline)
    requires AsList(ReadText, Get(v, "features")) == Some(t.features)
    requires AsOptFlag(Get(v, "highlighted")) == Some(t.highlighted)
    requires Get(v, "price").Some? && ReadPrice(Get(v, "price").value) == Some(t.price)
    ensures ReadTier(v) == Some(t)
  {
  }

  function VariationFields(v: ApiVariation): seq<Field> {
    [Field("headline", Some(Text(v.headline))),
     Field("id", Some(Text(v.id))),
     Field("rationale", OptText(v.rationale)),
     Field("strategy", Some(Text(v.strategy))),
     Field("subheadline", OptText(v.subheadline)),
     Field("tiers", Some(List(Each(TierValue, v.tiers))))]
  }

  function VariationValue(v: ApiVariation): Value { Object(VariationFields(v)) }

  function ReadVariation(v: Value): Option<ApiVariation> {
    var headline :- AsText(Get(v, "headline"));
    var id :- AsText(Get(v, "id"));
    var rationale :- AsOptText(Get(v, "rationale"));
    var strategy :- AsText(Get(v, "strategy"));
    var subheadline :- AsOptText(Get(v, "subheadline"));
    var tiers :- AsList(ReadTier, Get(v, "tiers"));
    Some(ApiVariation(id, strategy, headline, subheadline, rationale, tiers))
  }

  lemma VariationKeys(v: ApiVariation)
    ensures DistinctKeys(VariationFields(v))
  {
  }

  lemma TiersRoundTrip(tiers: seq<ApiTier>)
    ensures AsList(ReadTier, Some(List(Each(TierValue, tiers)))) == Some(tiers)
  {
    forall i | 0 <= i < |tiers|
      ensures ReadTier(TierValue(tiers[i])) == Some(tiers[i])
    {
      TierRoundTrip(tiers[i]);
    }
    EachRoundTrip(TierValue, ReadTier, tiers);
  }

  lemma VariationRoundTrip(v: ApiVariation)
    ensures ReadVariation(VariationValue(v)) == Some(v)
  {
    var f := VariationFields(v);
    VariationKeys(v);
    GetField(f, 0, "headline");
    GetField(f, 1, "id");
    GetField(f, 2, "rationale");
    GetField(f, 3, "strategy");
    GetField(f, 4, "subheadline");
    GetField(f, 5, "tiers");
    TiersRoundTrip(v.tiers);
  }

  // ---------- a generation ----------

  function AudienceFields(a: ApiAudience): seq<Field> {
    [Field("pricePosition", OptText(a.pricePosition)),
     Field("segment", Some(Text(a.segment))),
     Field("sophistication", Some(Text(a.sophistication)))]
  }

  function ReadAudience(v: Value): Option<ApiAudience> {
    var pricePosition :- AsOptText(Get(v, "pricePosition"));
    var segment :- AsText(Get(v, "segment"));
    var sophistication :- AsText(Get(v, "sophistication"));
    Some(ApiAudience(segment, sophistication, pricePosition))
  }

  lemma AudienceRoundTrip(a: ApiAudience)
    ensures ReadAudience(Object(AudienceFields(a))) == Some(a)
  {
    var f := AudienceFields(a);
    GetField(f, 0, "pricePosition");
    GetField(f, 1, "segment");
    GetField(f, 2, "sophistication");
  }

  function ProfileFields(p: ApiSiteProfile, clock: Clock): seq<Field> {
    [Field("analyzedAt", Some(Text(clock.write(p.analyzedAt)))),
     Field("audience", Some(Object(AudienceFields(p.audience)))),
     Field("industry", Some(Text(p.industry))),
     Field("keywords", match p.keywords case Some(ks) => Some(Texts(ks)) case None => None),
     Field("sourceType", Some(Text(p.sourceType))),
     Field("title", Some(Text(p.title))),
     Field("url", Some(Text(p.url))),
     Field("valueProposition", Some(Text(p.valueProposition)))]
  }

  function AsOptTexts(v: Option<Value>): Option<Option<seq<string>>> {
    if v.None? then Some(None)
    else
      var ts :- AsList(ReadText, v);
      Some(Some(ts))
  }

  function ReadProfile(v: Value, clock: Clock): Option<ApiSiteProfile> {
    var analyzedAt :- AsTime(clock, Get(v, "analyzedAt"));
    var audienceValue :- Get(v, "audience");
    var audience :- ReadAudience(audienceValue);
    var industry :- AsText(Get(v, "industry"));
    var keywords :- AsOptTexts(Get(v, "keywords"));
    var sourceType :- AsText(Get(v, "sourceType"));
    var title :- AsText(Get(v, "title"));
    var url :- AsText(Get(v, "url"));
    var valueProposition :- AsText(Get(v, "valueProposition"));
    Some(ApiSiteProfile(url, title, valueProposition, industry, audience, keywords, sourceType, analyzedAt))
  }

  lemma ProfileKeys(p: ApiSiteProfile, clock: Clock)
    ensures DistinctKeys(ProfileFields(p, clock))
  {
  }

  lemma ProfileRoundTrip(p: ApiSiteProfile, clock: Clock)
    requires clock.Faithful()
    ensures ReadProfile(Object(ProfileFields(p, clock)), clock) == Some(p)
  {
    var f := ProfileFields(p, clock);
    ProfileKeys(p, clock);
    GetField(f, 0, "analyzedAt");
    GetField(f, 1, "audience");
    GetField(f, 2, "industry");
    GetField(f, 3, "keywords");
    GetField(f, 4, "sourceType");
    GetField(f, 5, "title");
    GetField(f, 6, "url");
    GetField(f, 7, "valueProposition");
    AudienceRoundTrip(p.audience);
    if p.keywords.Some? {
      TextsRoundTrip(p.keywords.value);
    }
  }

  function StatusName(s: Status): string {
    match s
    case Pending => "pending"
    case Streaming => "streaming"
    case Completed => "completed"
    case Failed => "failed"
  }

  function ReadStatus(s: string): Option<Status> {
    if s == "pending" then Some(Pending)
    else if s == "streaming" then Some(Streaming)
    else if s == "completed" then Some(Completed)
    else if s == "failed" then Some(Failed)
    else None
  }

  function GenerationFields(g: ApiGeneration, clock: Clock): seq<Field> {
    [Field("createdAt", Some(Text(clock.write(g.createdAt)))),
     Field("id", Some(Text(g.id))),
     Field("siteProfile", Some(Object(ProfileFields(g.siteProfile, clock)))),
     Field("sourceUrl", Some(Text(g.sourceUrl))),
     Field("status", Some(Text(StatusName(g.status)))),
     Field("variations", Some(List(Each(VariationValue, g.variations))))]
  }

  function ReadGeneration(v: Value, clock: Clock): Option<ApiGeneration> {
    var createdAt :- AsTime(clock, Get(v, "createdAt"));
    var id :- AsText(Get(v, "id"));
    var profileValue :- Get(v, "siteProfile");
    var siteProfile :- ReadProfile(profileValue, clock);
    var sourceUrl :- AsText(Get(v, "sourceUrl"));
    var statusName :- AsText(Get(v, "status"));
    var status :- ReadStatus(statusName);
    var variations :- AsList(ReadVariation, Get(v, "variations"));
    Some(ApiGeneration(id, sourceUrl, status, createdAt, variations, siteProfile))
  }

  lemma StatusRoundTrip(s: Status)
    ensures ReadStatus(StatusName(s)) == Some(s)
  {
  }

  lemma GenerationKeys(g: ApiGeneration, clock: Clock)
    ensures DistinctKeys(GenerationFields(g, clock))
  {
  }

  lemma VariationsRoundTrip(vs: seq<ApiVariation>)
    ensures AsList(ReadVariation, Some(List(Each(VariationValue, vs)))) == Some(vs)
  {
    forall i | 0 <= i < |vs|
      ensures ReadVariation(VariationValue(vs[i])) == Some(vs[i])
    {
      VariationRoundTrip(vs[i]);
    }
    EachRoundTrip(VariationValue, ReadVariation, vs);
  }

  lemma GenerationRoundTrip(g: ApiGeneration, clock: Clock)
    requires clock.Faithful()
    ensures ReadGeneration(Object(GenerationFields(g, clock)), clock) == Some(g)
  {
    var f := GenerationFields(g, clock);
    GenerationKeys(g, clock);
    GetField(f, 0, "createdAt");
    GetField(f, 1, "id");
    GetField(f, 2, "siteProfile");
    GetField(f, 3, "sourceUrl");
    GetField(f, 4, "status");
    GetField(f, 5, "variations");
    ProfileRoundTrip(g.siteProfile, clock);
    StatusRoundTrip(g.status);
    VariationsRoundTrip(g.variations);
  }

  // ---------- a frame ----------

  function KindName(k: EventKind): string {
    match k
    case GenerationStarted => "generation_started"
    case VariationStarted => "variation_started"
    case TokenEvent => "token"
    case VariationCompleted => "variation_completed"
    case Done => "done"
    case ErrorEvent => "error"
  }

  function ReadKind(s: string): Option<EventKind> {
    if s == "generation_started" then Some(GenerationStarted)
    else if s == "variation_started" then Some(VariationStarted)
    else if s == "token" then Some(TokenEvent)
    else if s == "variation_completed" then Some(VariationCompleted)
    else if s == "done" then Some(Done)
    else if s == "error" then Some(ErrorEvent)
    else None
  }

  lemma KindRoundTrip(k: EventKind)
    ensures ReadKind(KindName(k)) == Some(k)
  {
  }

  function ProblemFields(p: Problem): seq<Field> {
    [Field("status", Some(Number(p.status))), Field("title", Some(Text(p.title)))]
  }

  function AsOptProblem(v: Option<Value>): Option<Option<Problem>> {
    if v.None? then Some(None)
    else
      var status :- AsNumber(Get(v.value, "status"));
      var title :- AsText(Get(v.value, "title"));
      Some(Some(Problem(status, title)))
  }

  lemma ProblemRoundTrip(p: Problem)
    ensures AsOptProblem(Some(Object(ProblemFields(p)))) == Some(Some(p))
  {
    var f := ProblemFields(p);
    GetField(f, 0, "status");
    GetField(f, 1, "title");
  }

  function ChunkFields(c: StreamChunk, clock: Clock): seq<Field> {
    [Field("delta", OptText(c.delta)),
     Field("generation", match c.generation case Some(g) => Some(Object(GenerationFields(g, clock))) case None => None),
     Field("generationId", OptText(c.generationId)),
     Field("problem", match c.problem case Some(p) => Some(Object(ProblemFields(p))) case None => None),
     Field("strategy", OptText(c.strategy)),
     Field("type", Some(Text(KindName(c.kind)))),
     Field("variation", match c.variation case Some(v) => Some(VariationValue(v)) case None => None)]
  }

  /** The payload of the chunk's frame. */
  function Encode(c: StreamChunk, clock: Clock): string {
    Print(Object(ChunkFields(c, clock)))
  }

  function AsOptGeneration(v: Option<Value>, clock: Clock): Option<Option<ApiGeneration>> {
    if v.None? then Some(None)
    else
      var g :- ReadGeneration(v.value, clock);
      Some(Some(g))
  }

  function AsOptVariation(v: Option<Value>): Option<Option<ApiVariation>> {
    if v.None? then Some(None)
    else
      var x :- ReadVariation(v.value);
      Some(Some(x))
  }

  function ReadChunkValue(v: Value, clock: Clock): Option<StreamChunk> {
    var delta :- AsOptText(Get(v, "delta"));
    var generation :- AsOptGeneration(Get(v, "generation"), clock);
    var generationId :- AsOptText(Get(v, "generationId"));
    var problem :- AsOptProblem(Get(v, "problem"));
    var strategy :- AsOptText(Get(v, "strategy"));
    var kindName :- AsText(Get(v, "type"));
    var kind :- ReadKind(kindName);
    var variation :- AsOptVariation(Get(v, "variation"));
    Some(StreamChunk(kind, strategy, delta, variation, generationId, generation, problem))
  }

  function Decode(payload: string, clock: Clock): Option<StreamChunk> {
    match Read(payload)
    case Some((v, "")) => ReadChunkValue(v, clock)
    case _ => None
  }

  lemma ChunkKeys(c: StreamChunk, clock: Clock)
    ensures DistinctKeys(ChunkFields(c, clock))
  {
  }

  lemma TextParts(c: StreamChunk, clock: Clock)
    ensures var v := Object(ChunkFields(c, clock));
            && AsOptText(Get(v, "delta")) == Some(c.delta)
            && AsOptText(Get(v, "generationId")) == Some(c.generationId)
            && AsOptText(Get(v, "strategy")) == Some(c.strategy)
            && AsText(Get(v, "type")) == Some(KindName(c.kind))
  {
    var f := ChunkFields(c, clock);
    ChunkKeys(c, clock);
    GetField(f, 0, "delta");
    GetField(f, 2, "generationId");
    GetField(f, 4, "strategy");
    GetField(f, 5, "type");
  }

  lemma ObjectParts(c: StreamChunk, clock: Clock)
    requires clock.Faithful()
    ensures var v := Object(ChunkFields(c, clock));
            && AsOptGeneration(Get(v, "generation"), clock) == Some(c.generation)
            && AsOptVariation(Get(v, "variation")) == Some(c.variation)
            && AsOptProblem(Get(v, "problem")) == Some(c.problem)
  {
    var f := ChunkFields(c, clock);
    ChunkKeys(c, clock);
    GetField(f, 1, "generation");
    GetField(f, 3, "problem");
    GetField(f, 6, "variation");
    if c.generation.Some? {
      GenerationRoundTrip(c.generation.value, clock);
    }
    if c.variation.Some? {
      VariationRoundTrip(c.variation.value);
    }
    if c.problem.Some? {
      ProblemRoundTrip(c.problem.value);
    }
  }

  lemma Assembled(v: Value, c: StreamChunk, clock: Clock)
    requires AsOptText(Get(v, "delta")) == Some(c.delta)
    requires AsOptText(Get(v, "generationId")) == Some(c.generationId)
    requires AsOptText(Get(v, "strategy")) == Some(c.strategy)
    requires AsText(Get(v, "type")) == Some(KindName(c.kind))
    requires AsOptGeneration(Get(v, "generation"), clock) == Some(c.generation)
    requires AsOptVariation(Get(v, "variation")) == Some(c.variation)
    requires AsOptProblem(Get(v, "problem")) == Some(c.problem)
    ensures ReadChunkValue(v, clock) == Some(c)
  {
    KindRoundTrip(c.kind);
  }

  lemma ChunkValueRoundTrip(c: StreamChunk, clock: Clock)
    requires clock.Faithful()
    ensures ReadChunkValue(Object(ChunkFields(c, clock)), clock) == Some(c)
  {
    TextParts(c, clock);
    ObjectParts(c, clock);
    Assembled(Object(ChunkFields(c, clock)), c, clock);
  }

  /** A client recovers the whole chunk from its payload. */
  lemma PayloadRoundTrip(c: StreamChunk, clock: Clock)
    requires clock.Faithful()
    ensures Decode(Encode(c, clock), clock) == Some(c)
  {
    var v := Object(ChunkFields(c, clock));
    ValueRoundTrip(v, "");
    assert Print(v) + "" == Print(v);
    ChunkValueRoundTrip(c, clock);
  }

  // ---------- the names of the contract ----------

  function KeysOf(fields: seq<Field>): seq<string> {
    seq(|fields|, i requires 0 <= i < |fields| => fields[i].key)
  }

  /** The members, in the order they are written, as the API contract names them. */
  lemma MemberNames(c: StreamChunk, g: ApiGeneration, v: ApiVariation, t: ApiTier, p: ApiSiteProfile,
                    a: ApiAudience, price: ApiPrice, problem: Problem, clock: Clock)
    ensures KeysOf(ChunkFields(c, clock))
         == ["delta", "generation", "generationId", "problem", "strategy", "type", "variation"]
    ensures KeysOf(GenerationFields(g, clock))
         == ["createdAt", "id", "siteProfile", "sourceUrl", "status", "variations"]
    ensures KeysOf(VariationFields(v)) == ["headline", "id", "rationale", "strategy", "subheadline", "tiers"]
    ensures KeysOf(TierFields(t)) == ["badge", "cta", "features", "highlighted", "name", "price", "tagline"]
    ensures KeysOf(ProfileFields(p, clock))
         == ["analyzedAt", "audience", "industry", "keywords", "sourceType", "title", "url", "valueProposition"]
    ensures KeysOf(AudienceFields(a)) == ["pricePosition", "segment", "sophistication"]
    ensures KeysOf(PriceFields(price)) == ["amount", "currency", "customLabel", "interval"]
    ensures KeysOf(ProblemFields(problem)) == ["status", "title"]
  {
  }

  /** And so are the kinds of events and the statuses. */
  lemma ContractNames()
    ensures KindName(GenerationStarted) == "generation_started" && KindName(VariationStarted) == "variation_started"
    ensures KindName(TokenEvent) == "token" && KindName(VariationCompleted) == "variation_completed"
    ensures KindName(Done) == "done" && KindName(ErrorEvent) == "error"
    ensures StatusName(Pending) == "pending" && StatusName(Streaming) == "streaming"
    ensures StatusName(Completed) == "completed" && StatusName(Failed) == "failed"
  {
  }

  lemma TokenMembers(strategy: string, delta: string, clock: Clock)
    ensures Members(ChunkFields(StreamChunk(TokenEvent, Some(strategy), Some(delta), None, None, None, None), clock))
         == [Member("delta", Text(delta)), Member("strategy", Text(strategy)), Member("type", Text("token"))]
  {
    var f := ChunkFields(StreamChunk(TokenEvent, Some(strategy), Some(delta), None, None, None, None), clock);
    assert f[1..][1..] == f[2..] && f[2..][1..] == f[3..] && f[3..][1..] == f[4..];
    assert f[4..][1..] == f[5..] && f[5..][1..] == f[6..] && f[6..][1..] == [];
    assert Members(f[6..]) == [];
    assert Members(f[5..]) == [Member("type", Text("token"))];
    assert Members(f[4..]) == [Member("strategy", Text(strategy)), Member("type", Text("token"))];
    assert Members(f[1..]) == Members(f[2..]) == Members(f[3..]) == Members(f[4..]);
  }

  /** A plain name stands between its quotes as it is. */
  lemma PlainName(name: string, quoted: string)
    requires (forall i :: 0 <= i < |name| ==> 'a' <= name[i] <= 'z') && quoted == "\"" + name + "\""
    ensures JsonString.Literal(name) == quoted
  {
    JsonString.PlainLiteral(name);
  }

  lemma PrintThree(m1: Member, m2: Member, m3: Member)
    ensures PrintMembers([m1, m2, m3])
         == PrintMember(m1) + ([','] + (PrintMember(m2) + ([','] + (PrintMember(m3) + ['}']))))
  {
    assert [m1, m2, m3][1..] == [m2, m3] && [m2, m3][1..] == [m3];
    assert PrintMembers([m3]) == PrintMember(m3) + ['}'];
    assert PrintMembers([m2, m3]) == PrintMember(m2) + ([','] + PrintMembers([m3]));
    assert PrintMembers([m1, m2, m3]) == PrintMember(m1) + ([','] + PrintMembers([m2, m3]));
  }

  function TextMember(key: string, text: string): string {
    JsonString.Literal(key) + ([':'] + JsonString.Literal(text))
  }

  lemma PrintTexts(k1: string, t1: string, k2: string, t2: string, k3: string, t3: string)
    ensures Print(Record([Member(k1, Text(t1)), Member(k2, Text(t2)), Member(k3, Text(t3))]))
         == ['{'] + (TextMember(k1, t1) + ([','] + (TextMember(k2, t2) + ([','] + (TextMember(k3, t3) + ['}'])))))
  {
    PrintThree(Member(k1, Text(t1)), Member(k2, Text(t2)), Member(k3, Text(t3)));
  }

  /** A token frame's payload, to the character: three members of text, */
  lemma TokenPayload(strategy: string, delta: string, clock: Clock)
    ensures Encode(StreamChunk(TokenEvent, Some(strategy), Some(delta), None, None, None, None), clock)
         == ['{'] + (TextMember("delta", delta) + ([','] + (TextMember("strategy", strategy)
            + ([','] + (TextMember("type", "token") + ['}'])))))
  {
    TokenMembers(strategy, delta, clock);
    PrintTexts("delta", delta, "strategy", strategy, "type", "token");
  }

  /** whose names stand between quotes as they are. */
  lemma DeltaName()
    ensures JsonString.Literal("delta") == "\"delta\""
  {
    PlainName("delta", "\"delta\"");
  }

  lemma StrategyName()
    ensures JsonString.Literal("strategy") == "\"strategy\""
  {
    PlainName("strategy", "\"strategy\"");
  }

  lemma TypeName()
    ensures JsonString.Literal("type") == "\"type\"" && JsonString.Literal("token") == "\"token\""
  {
    PlainName("type", "\"type\"");
    PlainName("token", "\"token\"");
  }
}
