/** What the whole project shares: outcomes, faults, prefixes. */
module Wrappers {
  datatype Option<+T> = None | Some(value: T) {
    function GetOr(default: T): T {
      match this
      case Some(v) => v
      case None => default
    }

    predicate IsFailure() {
      None?
    }

    function PropagateFailure<U>(): Option<U>
      requires None?
    {
      None
    }

    function Extract(): T
      requires Some?
    {
      value
    }
  }

  datatype Result<+T, +E> = Ok(value: T) | Err(error: E)

  /** A call to a store may succeed, fail without having reached it, or fail after it took
      effect (a reply that never came back). */
  datatype Fault = NoFault | Lost | LostReply

  predicate StartsWith(text: string, prefix: string) {
    |prefix| <= |text| && text[..|prefix|] == prefix
  }

  /** `omitempty`: an empty string or list is left out. */
  function UnlessEmpty<T(==)>(s: seq<T>): Option<seq<T>> {
    if s == [] then None else Some(s)
  }
}

/** The entities of the `domain` package. Strings that Go types as enumerations
    (strategies, intervals, statuses of a request not yet validated) stay strings,
    because the service does receive values outside the enumeration. */
module Domain {
  import opened Wrappers

  type Strategy = string

  const ANCHOR: Strategy := "anchor"
  const FREEMIUM: Strategy := "freemium"
  const VALUE_BASED: Strategy := "value_based"

  predicate ValidStrategy(s: Strategy) {
    s == ANCHOR || s == FREEMIUM || s == VALUE_BASED
  }

  const ONE_TIME := "one_time"
  const MONTHLY := "monthly"
  const YEARLY := "yearly"

  predicate ValidInterval(i: string) {
    i == ONE_TIME || i == MONTHLY || i == YEARLY
  }

  datatype Price = Price(amount: int, currency: string, interval: string, customLabel: string)

  datatype PricingTier = PricingTier(
    name: string, price: Price, tagline: string, features: Option<seq<string>>,
    cta: string, highlighted: bool, badge: string)

  datatype Variation = Variation(
    id: string, strategy: Strategy, headline: string, subheadline: string,
    tiers: seq<PricingTier>, rationale: string)

  /** The Go zero value: what an unfilled slot of `variations` holds. */
  const ZERO_VARIATION := Variation("", "", "", "", [], "")

  datatype Error =
    | InvalidInput
    | InvalidGenerationInput
    | InvalidLLMResponse
    | Canceled
    | Upstream(message: string)
    | SaveFailed
    | StreamFailed(strategy: Strategy, cause: Error)

  datatype Audience = Audience(segment: string, sophistication: string, pricePosition: string)

  /** `keywords` is None for a nil slice: it marshals as null, not as []. */
  datatype SiteProfile = SiteProfile(
    url: string, title: string, valueProposition: string, industry: string,
    audience: Audience, keywords: Option<seq<string>>, sourceType: string, analyzedAt: int)

  datatype Status = Pending | Streaming | Completed | Failed

  datatype Generation = Generation(
    id: string, sourceUrl: string, profile: SiteProfile, status: Status,
    variations: seq<Variation>, createdAt: int)

  /** One item of a provider's channel. */
  datatype Chunk =
    | Token(delta: string)
    | VariationDone(variation: Variation)
    | ChunkError(error: Error)

  datatype EventKind =
    | GenerationStarted | VariationStarted | TokenEvent | VariationCompleted | Done | ErrorEvent

  /** One item of the aggregate channel; an empty `strategy` means the event concerns
      the generation as a whole. */
  datatype Event = Event(
    kind: EventKind, strategy: Strategy, delta: string,
    variation: Option<Variation>, generation: Option<Generation>, err: Option<Error>)

  datatype GenerateInput = GenerateInput(profile: SiteProfile, strategies: seq<Strategy>, currency: string)

  predicate NoDuplicates<T(==)>(s: seq<T>) {
    forall i, j :: 0 <= i < j < |s| ==> s[i] != s[j]
  }

  /** What `GenerateVariationsInput.Validate` promises to let through. */
  predicate AcceptableInput(input: GenerateInput) {
    && input.profile.url != ""
    && 1 <= |input.strategies| <= 3
    && (forall i :: 0 <= i < |input.strategies| ==> ValidStrategy(input.strategies[i]))
    && NoDuplicates(input.strategies)
  }

  /** `Validate`: returns on the first violation, remembering the strategies seen. */
  method ValidateInput(input: GenerateInput) returns (err: Option<Error>)
    ensures err == None <==> AcceptableInput(input)
    ensures err.Some? ==> err.value == InvalidInput
  {
    if input.profile.url == "" {
      return Some(InvalidInput);
    }
    if |input.strategies| < 1 || |input.strategies| > 3 {
      return Some(InvalidInput);
    }
    var seen: set<Strategy> := {};
    for k := 0 to |input.strategies|
      invariant seen == set i | 0 <= i < k :: input.strategies[i]
      invariant forall i :: 0 <= i < k ==> ValidStrategy(input.strategies[i])
      invariant forall i, j :: 0 <= i < j < k ==> input.strategies[i] != input.strategies[j]
    {
      var s := input.strategies[k];
      if !ValidStrategy(s) {
        return Some(InvalidInput);
      }
      if s in seen {
        return Some(InvalidInput);
      }
      seen := seen + {s};
    }
    return None;
  }

  predicate UpperLetter(c: char) { 'A' <= c <= 'Z' }

  /** The pattern ^[A-Z]{3}$. */
  predicate ThreeLetterCode(s: string) {
    |s| == 3 && UpperLetter(s[0]) && UpperLetter(s[1]) && UpperLetter(s[2])
  }

  /** `GenerationInput.Validate`: what a provider checks before it opens a stream. */
  function GenerationInputError(profile: SiteProfile, strategy: Strategy, currency: string): (r: Option<Error>)
    ensures r == None <==>
              && strategy in ["anchor", "freemium", "value_based"]
              && profile.url != ""
              && |currency| == 3 && forall i :: 0 <= i < 3 ==> 'A' <= currency[i] <= 'Z'
    ensures r.Some? ==> r.value == InvalidGenerationInput
  {
    if !ValidStrategy(strategy) then Some(InvalidGenerationInput)
    else if profile.url == "" then Some(InvalidGenerationInput)
    else if !ThreeLetterCode(currency) then Some(InvalidGenerationInput)
    else None
  }

  predicate ValidTier(t: PricingTier) {
    && t.name != ""
    && (t.price.customLabel == "" ==>
          && t.price.currency != ""
          && ValidInterval(t.price.interval)
          && t.price.amount >= 0)
  }

  /** `PricingTier.validate`, in the order the checks are made. */
  function TierError(t: PricingTier): (r: Option<Error>)
    ensures r == None <==> ValidTier(t)
    ensures r.Some? ==> r.value == InvalidLLMResponse
  {
    if t.name == "" then Some(InvalidLLMResponse)
    else if t.price.customLabel == "" then
      if t.price.currency == "" then Some(InvalidLLMResponse)
      else if !ValidInterval(t.price.interval) then Some(InvalidLLMResponse)
      else if t.price.amount < 0 then Some(InvalidLLMResponse)
      else None
    else None
  }

  function FirstTierError(tiers: seq<PricingTier>): (r: Option<Error>)
    ensures r == None <==> forall i :: 0 <= i < |tiers| ==> ValidTier(tiers[i])
    ensures r.Some? ==> r.value == InvalidLLMResponse
  {
    if tiers == [] then None
    else if TierError(tiers[0]).Some? then TierError(tiers[0])
    else FirstTierError(tiers[1..])
  }

  predicate ValidVariation(v: Variation) {
    && ValidStrategy(v.strategy)
    && v.headline != ""
    && 1 <= |v.tiers| <= 5
    && forall i :: 0 <= i < |v.tiers| ==> ValidTier(v.tiers[i])
  }

  /** `Variation.Validate`. */
  function VariationError(v: Variation): (r: Option<Error>)
    ensures r == None <==> ValidVariation(v)
    ensures r.Some? ==> r.value == InvalidLLMResponse
  {
    if !ValidStrategy(v.strategy) then Some(InvalidLLMResponse)
    else if v.headline == "" then Some(InvalidLLMResponse)
    else if |v.tiers| < 1 || |v.tiers| > 5 then Some(InvalidLLMResponse)
    else FirstTierError(v.tiers)
  }
}
