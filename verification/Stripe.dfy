/** The Stripe export: one price entry per tier. A JSON object is the record of its members;
    None is a member that `omitempty` leaves out. */
module Stripe {
  import opened Wrappers
  import opened Domain
  import Jsx
  import PriceFormat

  datatype StripePrice = StripePrice(
    name: string, description: string, marketingFeatures: Option<seq<string>>,
    unitAmount: Option<int>, currency: string, recurring: Option<string>, customLabel: string)

  datatype Entry = Entry(
    name: string, description: Option<string>, marketingFeatures: Option<seq<string>>,
    unitAmount: Option<int>, currency: Option<string>, recurring: Option<string>,
    customLabel: Option<string>)

  /** How `MarshalIndent` renders the struct. An amount of 0 stays: it is behind a pointer. */
  function EntryOf(p: StripePrice): Entry {
    Entry(p.name, UnlessEmpty(p.description), UnlessEmpty(p.marketingFeatures.GetOr([])),
          p.unitAmount, UnlessEmpty(p.currency), p.recurring, UnlessEmpty(p.customLabel))
  }

  function LowerChar(c: char): char {
    if 'A' <= c <= 'Z' then c - 'A' + 'a' else c
  }

  function UpperChar(c: char): char {
    if 'a' <= c <= 'z' then c - 'a' + 'A' else c
  }

  function ToLower(s: string): (r: string)
    ensures |r| == |s| && forall i :: 0 <= i < |s| ==> r[i] == LowerChar(s[i])
  {
    seq(|s|, i requires 0 <= i < |s| => LowerChar(s[i]))
  }

  function ToUpper(s: string): (r: string)
    ensures |r| == |s| && forall i :: 0 <= i < |s| ==> r[i] == UpperChar(s[i])
  {
    seq(|s|, i requires 0 <= i < |s| => UpperChar(s[i]))
  }

  // ---------- what a tier offers, whichever export says it ----------

  datatype Offer =
    | OnRequest(text: string)
    | Fixed(amount: int, currency: string, interval: string)

  datatype Listing = Listing(name: string, tagline: string, features: seq<string>, offer: Offer)

  /** Currencies count without their case, as Stripe takes them. */
  function OfferOf(p: Price): Offer {
    if p.customLabel != "" then OnRequest(p.customLabel) else Fixed(p.amount, ToLower(p.currency), p.interval)
  }

  function ListingOf(t: PricingTier): Listing {
    Listing(t.name, t.tagline, t.features.GetOr([]), OfferOf(t.price))
  }

  /** What an entry says about its tier; None when it names no price, or two. */
  function ReadEntry(e: Entry): Option<Listing> {
    match (e.unitAmount, e.currency, e.customLabel)
    case (None, None, Some(text)) =>
      if e.recurring == None then Some(ListingFrom(e, OnRequest(text))) else None
    case (Some(amount), Some(currency), None) =>
      (match ReadInterval(e.recurring)
       case None => None
       case Some(interval) => Some(ListingFrom(e, Fixed(amount, currency, interval))))
    case _ => None
  }

  function ListingFrom(e: Entry, offer: Offer): Listing {
    Listing(e.name, e.description.GetOr(""), e.marketingFeatures.GetOr([]), offer)
  }

  function ReadInterval(recurring: Option<string>): Option<string> {
    match recurring
    case None => Some(ONE_TIME)
    case Some(every) =>
      if every == "month" then Some(MONTHLY) else if every == "year" then Some(YEARLY) else None
  }

  /** Lower-casing loses nothing of an ISO code. */
  lemma LowerThenUpper(currency: string)
    requires ThreeLetterCode(currency)
    ensures ToUpper(ToLower(currency)) == currency
  {
    assert forall i :: 0 <= i < 3 ==> UpperLetter(currency[i]);
  }

  function Recurring(interval: string): Option<string> {
    if interval == MONTHLY then Some("month") else if interval == YEARLY then Some("year") else None
  }

  function StripePriceOf(t: PricingTier): StripePrice {
    match OfferOf(t.price)
    case OnRequest(text) => StripePrice(t.name, t.tagline, t.features, None, "", None, text)
    case Fixed(amount, currency, interval) =>
      StripePrice(t.name, t.tagline, t.features, Some(amount), currency, Recurring(interval), "")
  }

  /** `stripePriceFor`. */
  method StripePriceFor(t: PricingTier) returns (price: StripePrice)
    ensures price == StripePriceOf(t)
  {
    price := StripePrice(t.name, t.tagline, t.features, None, "", None, "");
    if t.price.customLabel != "" {
      price := price.(customLabel := t.price.customLabel);
      return price;
    }
    price := price.(unitAmount := Some(t.price.amount));
    price := price.(currency := ToLower(t.price.currency));
    match t.price.interval {
      case "monthly" => price := price.(recurring := Some("month"));
      case "yearly" => price := price.(recurring := Some("year"));
      case _ =>
    }
  }

  function TierEntry(t: PricingTier): Entry {
    EntryOf(StripePriceOf(t))
  }

  /** `renderStripe`: fills a preallocated slice. */
  method RenderStripe(v: Variation) returns (entries: seq<Entry>)
    ensures |entries| == |v.tiers|
    ensures forall i :: 0 <= i < |v.tiers| ==> entries[i] == TierEntry(v.tiers[i])
  {
    var blank := StripePrice("", "", None, None, "", None, "");
    var prices := new StripePrice[|v.tiers|](_ => blank);
    for i := 0 to |v.tiers|
      invariant forall k :: 0 <= k < i ==> prices[k] == StripePriceOf(v.tiers[k])
    {
      prices[i] := StripePriceFor(v.tiers[i]);
    }
    entries := seq(|v.tiers|, i requires 0 <= i < |v.tiers| reads prices => EntryOf(prices[i]));
  }

  /** A custom label or a fixed price, never both and never neither; a recurrence only with a
      fixed price. This holds of every tier, accepted by the domain or not. */
  lemma EitherLabelOrAmount(t: PricingTier)
    ensures var e := TierEntry(t);
            && (e.unitAmount.Some? <==> e.customLabel == None)
            && (e.currency.Some? ==> e.unitAmount.Some?)
            && (e.recurring.Some? ==> e.unitAmount.Some?)
  {
  }

  /** The entry of any tier the domain accepts gives its offer back, and all the export
      carries of it. */
  lemma EntryRoundTrip(t: PricingTier)
    requires ValidTier(t)
    ensures ReadEntry(TierEntry(t)) == Some(ListingOf(t))
  {
    if t.price.customLabel == "" {
      assert ToLower(t.price.currency) != "";
    }
  }

  /** The same, in the tier's own terms: what the entry says is the tier's name, tagline and
      features and either its very label or its amount, interval and currency, the currency in
      lower case. */
  lemma EntrySaysTheTier(t: PricingTier)
    requires ValidTier(t)
    ensures var read := ReadEntry(TierEntry(t));
            && read.Some?
            && var l := read.value;
            && l.name == t.name && l.tagline == t.tagline && l.features == t.features.GetOr([])
            && (t.price.customLabel != "" ==> l.offer == OnRequest(t.price.customLabel))
            && (t.price.customLabel == "" ==>
                  && l.offer.Fixed?
                  && l.offer.amount == t.price.amount && l.offer.interval == t.price.interval
                  && |l.offer.currency| == |t.price.currency|
                  && forall i :: 0 <= i < |t.price.currency| ==>
                       var c := t.price.currency[i];
                       l.offer.currency[i] as int == c as int + (if 'A' <= c <= 'Z' then 32 else 0))
  {
    EntryRoundTrip(t);
  }

  /** Members are left out exactly when there is nothing to say; an amount of 0 is said. */
  lemma EntryLeavesOut(t: PricingTier)
    ensures var e := TierEntry(t);
            && (e.description == None <==> t.tagline == "")
            && (e.marketingFeatures == None <==> t.features.GetOr([]) == [])
            && (e.customLabel == None <==> t.price.customLabel == "")
            && (e.unitAmount == None <==> t.price.customLabel != "")
            && (e.currency == None <==> t.price.customLabel != "" || t.price.currency == "")
            && (t.price.customLabel == "" && t.price.interval == "monthly" ==> e.recurring == Some("month"))
            && (t.price.customLabel == "" && t.price.interval == "yearly" ==> e.recurring == Some("year"))
            && (t.price.customLabel != "" || t.price.interval !in ["monthly", "yearly"] ==> e.recurring == None)
  {
  }

  /** Entries coincide exactly when the tiers differ at most in highlight, badge and call to
      action, in the case of the currency, or in what a custom label hides. */
  lemma EntryIdentifiesListing(t: PricingTier, u: PricingTier)
    requires ValidTier(t) && ValidTier(u)
    ensures TierEntry(t) == TierEntry(u) <==> ListingOf(t) == ListingOf(u)
  {
    EntryRoundTrip(t);
    EntryRoundTrip(u);
  }

  /** The price a tier of an ISO currency was exported with. */
  function ReadPrice(e: Entry): Option<Price> {
    var listing :- ReadEntry(e);
    match listing.offer
    case OnRequest(text) => None
    case Fixed(amount, currency, interval) => Some(Price(amount, ToUpper(currency), interval, ""))
  }

  /** With an ISO code the entry gives back the very price, currency included. */
  lemma IsoPriceRoundTrip(t: PricingTier)
    requires ValidTier(t) && t.price.customLabel == "" && ThreeLetterCode(t.price.currency)
    ensures ReadPrice(TierEntry(t)) == Some(t.price)
  {
    EntryRoundTrip(t);
    LowerThenUpper(t.price.currency);
  }

  // ---------- the two exports agree ----------

  function PriceShown(text: string): Option<Offer> {
    match PriceFormat.ParsePrice(text)
    case None => None
    case Some(p) => Some(OfferOf(p))
  }

  /** The label a visitor reads on the page is the label in the Stripe entry. */
  lemma ExportsAgreeOnLabel(v: Variation, i: nat)
    requires i < |v.tiers| && v.tiers[i].price.customLabel != ""
    ensures var text := v.tiers[i].price.customLabel;
            var page := Jsx.ReadPage(Jsx.JSX, Jsx.Document(Jsx.JSX, Jsx.PageOf(v)));
            && page.Some? && i < |page.value.cards| && page.value.cards[i].price == text
            && TierEntry(v.tiers[i]).customLabel == Some(text)
  {
    Jsx.PageShowsEverything(v);
  }

  /** The price a visitor reads on the page is the price Stripe is told to charge. */
  lemma ExportsAgreeOnPrice(t: PricingTier)
    requires ValidTier(t) && t.price.customLabel == ""
    requires t.price.amount <= PriceFormat.FLOAT_LIMIT
    ensures ReadEntry(TierEntry(t)).Some?
    ensures PriceShown(PriceFormat.FormatPrice(t.price)) == Some(ReadEntry(TierEntry(t)).value.offer)
  {
    EntryRoundTrip(t);
    PriceFormat.PriceRoundTrip(t.price);
  }
}
