/** The JSX export: a printer that appends to a string builder, and a reader that recovers
    every dynamic string of the page from what was printed. */
module Jsx {
  import opened Wrappers
  import opened Domain
  import opened JsonString
  import PriceFormat

  // ---------- what a page shows ----------

  datatype Card = Card(
    highlighted: bool, badge: string, name: string, price: string, tagline: string,
    features: seq<string>, cta: string)

  datatype Page = Page(headline: string, subheadline: string, cards: seq<Card>)

  function CardOf(t: PricingTier): Card {
    Card(t.highlighted, t.badge, t.name, PriceFormat.FormatPrice(t.price), t.tagline,
         t.features.GetOr([]), t.cta)
  }

  function CardsOf(tiers: seq<PricingTier>): (cards: seq<Card>)
    ensures |cards| == |tiers| && forall i :: 0 <= i < |tiers| ==> cards[i] == CardOf(tiers[i])
  {
    if tiers == [] then [] else [CardOf(tiers[0])] + CardsOf(tiers[1..])
  }

  function PageOf(v: Variation): Page {
    Page(v.headline, v.subheadline, CardsOf(v.tiers))
  }

  // ---------- the document ----------

  /** The fixed text of the export, in the order it is printed. */
  datatype Layout = Layout(
    header: string, headlineOpen: string, headlineClose: string,
    subheadlineOpen: string, paragraphClose: string, tiersOpen: string, footer: string,
    tierOpen: string, tierClass: string, highlight: string, tierOpenEnd: string,
    badgeOpen: string, badgeClose: string, nameOpen: string, nameClose: string,
    priceOpen: string, taglineOpen: string,
    featuresOpen: string, featureOpen: string, featureClose: string, featuresClose: string,
    ctaOpen: string, ctaClose: string, tierClose: string)

  const HEADER :=
    "export default function PricingSection() {\n  return (\n    <section className=\"pricing-section\">\n"
  const HEADLINE_OPEN := "      <h2>{"
  const HEADLINE_CLOSE := "}</h2>\n"
  const SUBHEADLINE_OPEN := "      <p className=\"subheadline\">{"
  const PARAGRAPH_CLOSE := "}</p>\n"
  const TIERS_OPEN := "      <div className=\"tiers\">\n"
  const FOOTER := "      </div>\n    </section>\n  );\n}\n"
  const TIER_OPEN := "        <div className="
  const TIER_CLASS := "tier"
  const HIGHLIGHT := " tier--highlighted"
  const TIER_OPEN_END := ">\n"
  const BADGE_OPEN := "          <span className=\"badge\">{"
  const BADGE_CLOSE := "}</span>\n"
  const NAME_OPEN := "          <h3>{"
  const NAME_CLOSE := "}</h3>\n"
  const PRICE_OPEN := "          <p className=\"price\">{"
  const TAGLINE_OPEN := "          <p className=\"tagline\">{"
  const FEATURES_OPEN := "          <ul className=\"features\">\n"
  const FEATURE_OPEN := "            <li>{"
  const FEATURE_CLOSE := "}</li>\n"
  const FEATURES_CLOSE := "          </ul>\n"
  const CTA_OPEN := "          <button type=\"button\">{"
  const CTA_CLOSE := "}</button>\n"
  const TIER_CLOSE := "        </div>\n"

  const JSX := Layout(
    HEADER, HEADLINE_OPEN, HEADLINE_CLOSE, SUBHEADLINE_OPEN, PARAGRAPH_CLOSE, TIERS_OPEN, FOOTER,
    TIER_OPEN, TIER_CLASS, HIGHLIGHT, TIER_OPEN_END, BADGE_OPEN, BADGE_CLOSE,
    NAME_OPEN, NAME_CLOSE, PRICE_OPEN, TAGLINE_OPEN,
    FEATURES_OPEN, FEATURE_OPEN, FEATURE_CLOSE, FEATURES_CLOSE,
    CTA_OPEN, CTA_CLOSE, TIER_CLOSE)

  function Field(open: string, s: string, close: string): string {
    open + Literal(s) + close
  }

  function Optional(open: string, s: string, close: string): string {
    if s == "" then "" else Field(open, s, close)
  }

  function Class(l: Layout, highlighted: bool): string {
    if highlighted then l.tierClass + l.highlight else l.tierClass
  }

  /** A printer takes a value and the text that is to follow it. */
  type Printer<!T> = (T, string) -> string

  function PrintAll<T>(put: Printer<T>, xs: seq<T>, rest: string): string {
    if xs == [] then rest else put(xs[0], PrintAll(put, xs[1..], rest))
  }

  function FeaturePrinter(l: Layout): Printer<string> {
    (f, rest) => Field(l.featureOpen, f, l.featureClose) + rest
  }

  function CardBottom(l: Layout, c: Card, rest: string): string {
    l.featuresOpen + PrintAll(FeaturePrinter(l), c.features, l.featuresClose
      + (Optional(l.ctaOpen, c.cta, l.ctaClose) + (l.tierClose + rest)))
  }

  function CardText(l: Layout, c: Card, rest: string): string {
    Field(l.tierOpen, Class(l, c.highlighted), l.tierOpenEnd)
    + (Optional(l.badgeOpen, c.badge, l.badgeClose)
    + (Field(l.nameOpen, c.name, l.nameClose)
    + (Field(l.priceOpen, c.price, l.paragraphClose)
    + (Optional(l.taglineOpen, c.tagline, l.paragraphClose)
    + CardBottom(l, c, rest)))))
  }

  function CardPrinter(l: Layout): Printer<Card> {
    (c, rest) => CardText(l, c, rest)
  }

  function Document(l: Layout, p: Page): string {
    l.header
    + (Field(l.headlineOpen, p.headline, l.headlineClose)
    + (Optional(l.subheadlineOpen, p.subheadline, l.paragraphClose)
    + (l.tiersOpen + PrintAll(CardPrinter(l), p.cards, l.footer))))
  }

  // ---------- printing ----------

  /** A string builder. `rest` names what is still to come, so that a sequence of writes
      can be checked against the whole text it makes up. */
  class Builder {
    var text: string

    constructor ()
      ensures text == ""
    {
      text := "";
    }

    method Write(s: string, ghost rest: string)
      modifies this
      ensures text == old(text) + s
      ensures text + rest == old(text) + (s + rest)
    {
      text := text + s;
      assert text + rest == old(text) + (s + rest);
    }

    method WriteField(open: string, s: string, close: string, ghost rest: string)
      modifies this
      ensures text + rest == old(text) + (Field(open, s, close) + rest)
    {
      Write(open + Literal(s) + close, rest);
    }

    method WriteUnlessEmpty(open: string, s: string, close: string, ghost rest: string)
      modifies this
      ensures text + rest == old(text) + (Optional(open, s, close) + rest)
    {
      assert "" + rest == rest;
      if s != "" {
        WriteField(open, s, close, rest);
      }
    }
  }

  /** The `<ul>` and the button. */
  method WriteBottom(l: Layout, b: Builder, t: PricingTier, ghost rest: string)
    modifies b
    ensures b.text + rest == old(b.text) + CardBottom(l, CardOf(t), rest)
  {
    var features := t.features.GetOr([]);
    ghost var afterList := Optional(l.ctaOpen, t.cta, l.ctaClose) + (l.tierClose + rest);
    ghost var goal := b.text + CardBottom(l, CardOf(t), rest);
    b.Write(l.featuresOpen, PrintAll(FeaturePrinter(l), features, l.featuresClose + afterList));
    assert features[0..] == features;
    for i := 0 to |features|
      invariant b.text + PrintAll(FeaturePrinter(l), features[i..], l.featuresClose + afterList) == goal
    {
      assert features[i..][1..] == features[i + 1..];
      b.WriteField(l.featureOpen, features[i], l.featureClose,
                   PrintAll(FeaturePrinter(l), features[i + 1..], l.featuresClose + afterList));
    }
    b.Write(l.featuresClose, afterList);
    b.WriteUnlessEmpty(l.ctaOpen, t.cta, l.ctaClose, l.tierClose + rest);
    b.Write(l.tierClose, rest);
  }

  /** `writeJSXTier`: appends exactly the tier's lines. */
  method WriteTier(l: Layout, b: Builder, t: PricingTier, ghost rest: string)
    modifies b
    ensures b.text + rest == old(b.text) + CardText(l, CardOf(t), rest)
  {
    ghost var c := CardOf(t);
    ghost var bottom := CardBottom(l, c, rest);
    ghost var afterPrice := Optional(l.taglineOpen, c.tagline, l.paragraphClose) + bottom;
    ghost var afterName := Field(l.priceOpen, c.price, l.paragraphClose) + afterPrice;
    ghost var afterBadge := Field(l.nameOpen, c.name, l.nameClose) + afterName;
    ghost var afterDiv := Optional(l.badgeOpen, c.badge, l.badgeClose) + afterBadge;

    var className := l.tierClass;
    if t.highlighted {
      className := className + l.highlight;
    }
    b.WriteField(l.tierOpen, className, l.tierOpenEnd, afterDiv);
    b.WriteUnlessEmpty(l.badgeOpen, t.badge, l.badgeClose, afterBadge);
    b.WriteField(l.nameOpen, t.name, l.nameClose, afterName);
    b.WriteField(l.priceOpen, PriceFormat.FormatPrice(t.price), l.paragraphClose, afterPrice);
    b.WriteUnlessEmpty(l.taglineOpen, t.tagline, l.paragraphClose, bottom);
    WriteBottom(l, b, t, rest);
  }

  method Render(l: Layout, v: Variation) returns (content: string)
    ensures content == Document(l, PageOf(v))
  {
    ghost var p := PageOf(v);
    ghost var tiers := l.tiersOpen + PrintAll(CardPrinter(l), p.cards, l.footer);
    ghost var afterHeadline := Optional(l.subheadlineOpen, p.subheadline, l.paragraphClose) + tiers;
    var b := new Builder();
    b.Write(l.header, Field(l.headlineOpen, p.headline, l.headlineClose) + afterHeadline);
    b.WriteField(l.headlineOpen, v.headline, l.headlineClose, afterHeadline);
    b.WriteUnlessEmpty(l.subheadlineOpen, v.subheadline, l.paragraphClose, tiers);
    b.Write(l.tiersOpen, PrintAll(CardPrinter(l), p.cards, l.footer));
    assert p.cards[0..] == p.cards;
    for i := 0 to |v.tiers|
      invariant b.text + PrintAll(CardPrinter(l), p.cards[i..], l.footer) == Document(l, p)
    {
      assert p.cards[i..][0] == CardOf(v.tiers[i]) && p.cards[i..][1..] == p.cards[i + 1..];
      WriteTier(l, b, v.tiers[i], PrintAll(CardPrinter(l), p.cards[i + 1..], l.footer));
    }
    b.Write(l.footer, "");
    return b.text;
  }

  /** `renderJSX`. */
  method RenderJSX(v: Variation) returns (content: string)
    ensures content == Document(JSX, PageOf(v))
  {
    content := Render(JSX, v);
  }

  // ---------- reading the document back ----------

  function Skip(text: string, prefix: string): (r: Option<string>)
    ensures r.Some? ==> |r.value| == |text| - |prefix|
  {
    if StartsWith(text, prefix) then Some(text[|prefix|..]) else None
  }

  function ReadField(text: string, open: string, close: string): (r: Option<(string, string)>)
    ensures r.Some? ==> |r.value.1| < |text|
  {
    match Skip(text, open)
    case None => None
    case Some(body) =>
      match ReadLiteral(body)
      case None => None
      case Some((s, after)) =>
        match Skip(after, close)
        case None => None
        case Some(rest) => Some((s, rest))
  }

  function ReadOptional(text: string, open: string, close: string): (r: Option<(string, string)>)
    ensures r.Some? ==> |r.value.1| <= |text|
  {
    if StartsWith(text, open) then ReadField(text, open, close) else Some(("", text))
  }

  /** A reader takes a value off the front of a text. */
  type Reader<+T> = string -> Option<(T, string)>

  /** Values for as long as the text goes on with `open`. */
  function ReadAll<T>(open: string, read: Reader<T>, text: string): (r: Option<(seq<T>, string)>)
    ensures r.Some? ==> |r.value.1| <= |text|
    decreases |text|
  {
    if !StartsWith(text, open) then Some(([], text))
    else
      match read(text)
      case None => None
      case Some((x, after)) =>
        if |after| >= |text| then None
        else
          match ReadAll(open, read, after)
          case None => None
          case Some((xs, rest)) => Some(([x] + xs, rest))
  }

  function FeatureReader(l: Layout): Reader<string> {
    text => ReadField(text, l.featureOpen, l.featureClose)
  }

  datatype Top = Top(highlighted: bool, badge: string, name: string, price: string, tagline: string)
  datatype Bottom = Bottom(features: seq<string>, cta: string)

  function ReadClass(l: Layout, s: string): Option<bool> {
    if s == Class(l, false) then Some(false)
    else if s == Class(l, true) then Some(true)
    else None
  }

  function ReadTop(l: Layout, text: string): (r: Option<(Top, string)>)
    ensures r.Some? ==> |r.value.1| < |text|
  {
    match ReadField(text, l.tierOpen, l.tierOpenEnd)
    case None => None
    case Some((cls, t1)) =>
      match (ReadClass(l, cls), ReadOptional(t1, l.badgeOpen, l.badgeClose))
      case (Some(highlighted), Some((badge, t2))) =>
        (match ReadField(t2, l.nameOpen, l.nameClose)
         case None => None
         case Some((name, t3)) =>
           match ReadField(t3, l.priceOpen, l.paragraphClose)
           case None => None
           case Some((price, t4)) =>
             match ReadOptional(t4, l.taglineOpen, l.paragraphClose)
             case None => None
             case Some((tagline, t5)) => Some((Top(highlighted, badge, name, price, tagline), t5)))
      case _ => None
  }

  function ReadBottom(l: Layout, text: string): (r: Option<(Bottom, string)>)
    ensures r.Some? ==> |r.value.1| <= |text|
  {
    match Skip(text, l.featuresOpen)
    case None => None
    case Some(t1) =>
      match ReadAll(l.featureOpen, FeatureReader(l), t1)
      case None => None
      case Some((features, t2)) =>
        match Skip(t2, l.featuresClose)
        case None => None
        case Some(t3) =>
          match ReadOptional(t3, l.ctaOpen, l.ctaClose)
          case None => None
          case Some((cta, t4)) =>
            match Skip(t4, l.tierClose)
            case None => None
            case Some(t5) => Some((Bottom(features, cta), t5))
  }

  function ReadCard(l: Layout, text: string): (r: Option<(Card, string)>)
    ensures r.Some? ==> |r.value.1| < |text|
  {
    match ReadTop(l, text)
    case None => None
    case Some((a, t1)) =>
      match ReadBottom(l, t1)
      case None => None
      case Some((z, t2)) =>
        Some((Card(a.highlighted, a.badge, a.name, a.price, a.tagline, z.features, z.cta), t2))
  }

  function CardReader(l: Layout): Reader<Card> {
    text => ReadCard(l, text)
  }

  function ReadPage(l: Layout, text: string): Option<Page> {
    match Skip(text, l.header)
    case None => None
    case Some(t1) =>
      match ReadField(t1, l.headlineOpen, l.headlineClose)
      case None => None
      case Some((headline, t2)) =>
        match ReadOptional(t2, l.subheadlineOpen, l.paragraphClose)
        case None => None
        case Some((subheadline, t3)) =>
          match Skip(t3, l.tiersOpen)
          case None => None
          case Some(t4) =>
            match ReadAll(l.tierOpen, CardReader(l), t4)
            case Some((cards, t5)) =>
              if t5 == l.footer then Some(Page(headline, subheadline, cards)) else None
            case None => None
  }

  // ---------- the reader undoes the printer ----------

  lemma SkipOwn(prefix: string, rest: string)
    ensures Skip(prefix + rest, prefix) == Some(rest)
  {
    assert (prefix + rest)[..|prefix|] == prefix;
    assert (prefix + rest)[|prefix|..] == rest;
  }

  /** Two pieces of text that differ somewhere cannot be mistaken for each other. */
  predicate Diverge(a: string, b: string) {
    exists i :: 0 <= i < |a| && i < |b| && a[i] != b[i]
  }

  lemma DivergenceShows(a: string, rest: string, b: string)
    requires Diverge(a, b)
    ensures !StartsWith(a + rest, b)
  {
    var i :| 0 <= i < |a| && i < |b| && a[i] != b[i];
    var text := a + rest;
    assert text[i] == a[i];
    assert |b| <= |text| ==> text[..|b|][i] == text[i];
  }

  lemma FieldShows(open: string, s: string, close: string, rest: string, b: string)
    requires Diverge(open, b)
    ensures !StartsWith(Field(open, s, close) + rest, b)
  {
    DivergenceShows(open, Literal(s) + close + rest, b);
    assert Field(open, s, close) + rest == open + (Literal(s) + close + rest);
  }

  /** Wherever a line may be missing, the line that would then come next does not look like it. */
  predicate Readable(l: Layout) {
    && Diverge(l.tiersOpen, l.subheadlineOpen)
    && Diverge(l.footer, l.tierOpen)
    && Diverge(l.nameOpen, l.badgeOpen)
    && Diverge(l.featuresOpen, l.taglineOpen)
    && Diverge(l.featuresClose, l.featureOpen)
    && Diverge(l.tierClose, l.ctaOpen)
    && l.highlight != ""
  }

  lemma FieldRoundTrip(open: string, s: string, close: string, rest: string)
    ensures ReadField(Field(open, s, close) + rest, open, close) == Some((s, rest))
    ensures StartsWith(Field(open, s, close) + rest, open)
  {
    assert Field(open, s, close) + rest == open + (Literal(s) + (close + rest));
    SkipOwn(open, Literal(s) + (close + rest));
    LiteralRoundTrip(s, close + rest);
    SkipOwn(close, rest);
  }

  lemma OptionalRoundTrip(open: string, s: string, close: string, rest: string)
    requires !StartsWith(rest, open)
    ensures ReadOptional(Optional(open, s, close) + rest, open, close) == Some((s, rest))
  {
    if s == "" {
      assert "" + rest == rest;
    } else {
      FieldRoundTrip(open, s, close, rest);
    }
  }

  /** The reader takes back what the printer put in front of any text. */
  ghost predicate Undoes<T(!new)>(open: string, read: Reader<T>, put: Printer<T>) {
    forall x: T, rest: string ::
      var text := put(x, rest);
      StartsWith(text, open) && |rest| < |text| && read(text) == Some((x, rest))
  }

  lemma {:induction false} AllRoundTrip<T(!new)>(
      open: string, read: Reader<T>, put: Printer<T>, xs: seq<T>, rest: string)
    requires Undoes(open, read, put) && !StartsWith(rest, open)
    ensures ReadAll(open, read, PrintAll(put, xs, rest)) == Some((xs, rest))
    decreases |xs|
  {
    if xs == [] {
    } else {
      AllRoundTrip(open, read, put, xs[1..], rest);
      var text := put(xs[0], PrintAll(put, xs[1..], rest));
      assert [xs[0]] + xs[1..] == xs;
    }
  }

  lemma FeatureRoundTrip(l: Layout)
    ensures Undoes(l.featureOpen, FeatureReader(l), FeaturePrinter(l))
  {
    forall f: string, rest: string
      ensures var text := FeaturePrinter(l)(f, rest);
              && StartsWith(text, l.featureOpen) && |rest| < |text|
              && FeatureReader(l)(text) == Some((f, rest))
    {
      FieldRoundTrip(l.featureOpen, f, l.featureClose, rest);
    }
  }

  lemma BottomShows(l: Layout, c: Card, rest: string)
    requires Readable(l)
    ensures !StartsWith(CardBottom(l, c, rest), l.taglineOpen)
  {
    var afterList := Optional(l.ctaOpen, c.cta, l.ctaClose) + (l.tierClose + rest);
    var list := PrintAll(FeaturePrinter(l), c.features, l.featuresClose + afterList);
    DivergenceShows(l.featuresOpen, list, l.taglineOpen);
  }

  lemma BottomRoundTrip(l: Layout, c: Card, rest: string)
    requires Readable(l)
    ensures ReadBottom(l, CardBottom(l, c, rest)) == Some((Bottom(c.features, c.cta), rest))
  {
    var afterList := Optional(l.ctaOpen, c.cta, l.ctaClose) + (l.tierClose + rest);
    var list := PrintAll(FeaturePrinter(l), c.features, l.featuresClose + afterList);
    SkipOwn(l.featuresOpen, list);
    DivergenceShows(l.featuresClose, afterList, l.featureOpen);
    FeatureRoundTrip(l);
    AllRoundTrip(l.featureOpen, FeatureReader(l), FeaturePrinter(l), c.features, l.featuresClose + afterList);
    SkipOwn(l.featuresClose, afterList);
    DivergenceShows(l.tierClose, rest, l.ctaOpen);
    OptionalRoundTrip(l.ctaOpen, c.cta, l.ctaClose, l.tierClose + rest);
    SkipOwn(l.tierClose, rest);
  }

  /** The five readings one after the other. */
  lemma TopRead(l: Layout, c: Card, t0: string, t1: string, t2: string, t3: string, t4: string, t5: string)
    requires l.highlight != ""
    requires ReadField(t0, l.tierOpen, l.tierOpenEnd) == Some((Class(l, c.highlighted), t1))
    requires ReadOptional(t1, l.badgeOpen, l.badgeClose) == Some((c.badge, t2))
    requires ReadField(t2, l.nameOpen, l.nameClose) == Some((c.name, t3))
    requires ReadField(t3, l.priceOpen, l.paragraphClose) == Some((c.price, t4))
    requires ReadOptional(t4, l.taglineOpen, l.paragraphClose) == Some((c.tagline, t5))
    ensures ReadTop(l, t0) == Some((Top(c.highlighted, c.badge, c.name, c.price, c.tagline), t5))
  {
  }

  lemma TopRoundTrip(l: Layout, c: Card, rest: string)
    requires Readable(l)
    ensures ReadTop(l, CardText(l, c, rest))
         == Some((Top(c.highlighted, c.badge, c.name, c.price, c.tagline), CardBottom(l, c, rest)))
    ensures StartsWith(CardText(l, c, rest), l.tierOpen)
  {
    var bottom := CardBottom(l, c, rest);
    var t4 := Optional(l.taglineOpen, c.tagline, l.paragraphClose) + bottom;
    var t3 := Field(l.priceOpen, c.price, l.paragraphClose) + t4;
    var t2 := Field(l.nameOpen, c.name, l.nameClose) + t3;
    var t1 := Optional(l.badgeOpen, c.badge, l.badgeClose) + t2;
    FieldRoundTrip(l.tierOpen, Class(l, c.highlighted), l.tierOpenEnd, t1);
    FieldShows(l.nameOpen, c.name, l.nameClose, t3, l.badgeOpen);
    OptionalRoundTrip(l.badgeOpen, c.badge, l.badgeClose, t2);
    FieldRoundTrip(l.nameOpen, c.name, l.nameClose, t3);
    FieldRoundTrip(l.priceOpen, c.price, l.paragraphClose, t4);
    BottomShows(l, c, rest);
    OptionalRoundTrip(l.taglineOpen, c.tagline, l.paragraphClose, bottom);
    TopRead(l, c, CardText(l, c, rest), t1, t2, t3, t4, bottom);
  }

  lemma CardRead(l: Layout, text: string, c: Card, bottom: string, rest: string)
    requires ReadTop(l, text) == Some((Top(c.highlighted, c.badge, c.name, c.price, c.tagline), bottom))
    requires ReadBottom(l, bottom) == Some((Bottom(c.features, c.cta), rest))
    ensures ReadCard(l, text) == Some((c, rest))
  {
  }

  lemma CardRoundTrip(l: Layout)
    requires Readable(l)
    ensures Undoes(l.tierOpen, CardReader(l), CardPrinter(l))
  {
    forall c: Card, rest: string
      ensures var text := CardPrinter(l)(c, rest);
              && StartsWith(text, l.tierOpen) && |rest| < |text|
              && CardReader(l)(text) == Some((c, rest))
    {
      TopRoundTrip(l, c, rest);
      BottomRoundTrip(l, c, rest);
      CardRead(l, CardText(l, c, rest), c, CardBottom(l, c, rest), rest);
    }
  }

  lemma DocumentRoundTrip(l: Layout, p: Page)
    requires Readable(l)
    ensures ReadPage(l, Document(l, p)) == Some(p)
  {
    var cards := PrintAll(CardPrinter(l), p.cards, l.footer);
    DivergenceShows(l.footer, "", l.tierOpen);
    assert l.footer + "" == l.footer;
    CardRoundTrip(l);
    AllRoundTrip(l.tierOpen, CardReader(l), CardPrinter(l), p.cards, l.footer);
    FrameRoundTrip(l, p, cards);
  }

  /** Around the tiers, whose text is `cards`. */
  lemma FrameRoundTrip(l: Layout, p: Page, cards: string)
    requires Readable(l)
    requires ReadAll(l.tierOpen, CardReader(l), cards) == Some((p.cards, l.footer))
    ensures ReadPage(l, l.header
              + (Field(l.headlineOpen, p.headline, l.headlineClose)
              + (Optional(l.subheadlineOpen, p.subheadline, l.paragraphClose)
              + (l.tiersOpen + cards)))) == Some(p)
  {
    var tiers := l.tiersOpen + cards;
    var t2 := Optional(l.subheadlineOpen, p.subheadline, l.paragraphClose) + tiers;
    SkipOwn(l.header, Field(l.headlineOpen, p.headline, l.headlineClose) + t2);
    FieldRoundTrip(l.headlineOpen, p.headline, l.headlineClose, t2);
    DivergenceShows(l.tiersOpen, cards, l.subheadlineOpen);
    OptionalRoundTrip(l.subheadlineOpen, p.subheadline, l.paragraphClose, tiers);
    SkipOwn(l.tiersOpen, cards);
  }

  lemma DivergeAt(a: string, b: string, i: nat)
    requires i < |a| && i < |b| && a[i] != b[i]
    ensures Diverge(a, b)
  {
  }

  lemma PageLinesDiverge()
    ensures Diverge(TIERS_OPEN, SUBHEADLINE_OPEN) && Diverge(FOOTER, TIER_OPEN)
  {
    DivergeAt(TIERS_OPEN, SUBHEADLINE_OPEN, 7);
    DivergeAt(FOOTER, TIER_OPEN, 6);
  }

  lemma TierLinesDiverge()
    ensures Diverge(NAME_OPEN, BADGE_OPEN) && Diverge(FEATURES_OPEN, TAGLINE_OPEN)
  {
    DivergeAt(NAME_OPEN, BADGE_OPEN, 11);
    DivergeAt(FEATURES_OPEN, TAGLINE_OPEN, 11);
  }

  lemma ListLinesDiverge()
    ensures Diverge(FEATURES_CLOSE, FEATURE_OPEN) && Diverge(TIER_CLOSE, CTA_OPEN)
  {
    DivergeAt(FEATURES_CLOSE, FEATURE_OPEN, 10);
    DivergeAt(TIER_CLOSE, CTA_OPEN, 8);
  }

  lemma JSXIsReadable()
    ensures Readable(JSX)
  {
    PageLinesDiverge();
    TierLinesDiverge();
    ListLinesDiverge();
  }

  /** The page is recovered from the document, whatever its strings contain: quotes, braces,
      markup, line breaks, or text imitating the document's own lines. */
  lemma ExportRoundTrip(v: Variation)
    ensures ReadPage(JSX, Document(JSX, PageOf(v))) == Some(PageOf(v))
  {
    JSXIsReadable();
    DocumentRoundTrip(JSX, PageOf(v));
  }

  /** Two variations export alike exactly when a visitor would see the same page. */
  lemma ExportIdentifiesPage(v: Variation, w: Variation)
    ensures Document(JSX, PageOf(v)) == Document(JSX, PageOf(w)) <==> PageOf(v) == PageOf(w)
  {
    ExportRoundTrip(v);
    ExportRoundTrip(w);
  }

  predicate Priced(p: Price) {
    p.customLabel == "" && ValidInterval(p.interval) && 0 <= p.amount <= PriceFormat.FLOAT_LIMIT
  }

  /** Down to the amounts: equal exports charge equal prices. */
  lemma ExportIdentifiesPrices(v: Variation, w: Variation, i: nat)
    requires Document(JSX, PageOf(v)) == Document(JSX, PageOf(w))
    requires i < |v.tiers| && i < |w.tiers| && Priced(v.tiers[i].price) && Priced(w.tiers[i].price)
    ensures v.tiers[i].price == w.tiers[i].price
  {
    ExportIdentifiesPage(v, w);
    assert CardOf(v.tiers[i]) == CardsOf(v.tiers)[i] == CardsOf(w.tiers)[i] == CardOf(w.tiers[i]);
    PriceFormat.PriceTextIdentifiesPrice(v.tiers[i].price, w.tiers[i].price);
  }

  /** What the card shows is the tier's: for a labelled tier its very label, for any other a
      text that reads as its price. */
  predicate Shows(card: Card, tier: PricingTier) {
    && card.name == tier.name && card.tagline == tier.tagline && card.cta == tier.cta
    && card.badge == tier.badge && card.highlighted == tier.highlighted
    && card.features == tier.features.GetOr([])
    && (tier.price.customLabel != "" ==> card.price == tier.price.customLabel)
    && (Priced(tier.price) ==> PriceFormat.ParsePrice(card.price) == Some(tier.price))
  }

  lemma CardShows(t: PricingTier)
    ensures Shows(CardOf(t), t)
  {
    if t.price.customLabel != "" {
      PriceFormat.LabelIsShown(t.price);
    } else if Priced(t.price) {
      PriceFormat.PriceRoundTrip(t.price);
    }
  }

  lemma CardsShow(tiers: seq<PricingTier>)
    ensures forall i :: 0 <= i < |tiers| ==> Shows(CardsOf(tiers)[i], tiers[i])
  {
    forall i | 0 <= i < |tiers|
      ensures Shows(CardsOf(tiers)[i], tiers[i])
    {
      CardShows(tiers[i]);
    }
  }

  /** Everything a visitor is meant to see is on the page that is read back from the export, in
      order. */
  lemma PageShowsEverything(v: Variation)
    ensures var read := ReadPage(JSX, Document(JSX, PageOf(v)));
            && read.Some?
            && read.value.headline == v.headline && read.value.subheadline == v.subheadline
            && |read.value.cards| == |v.tiers|
            && forall i :: 0 <= i < |v.tiers| ==> Shows(read.value.cards[i], v.tiers[i])
  {
    ExportRoundTrip(v);
    CardsShow(v.tiers);
  }

  /** Labelled tiers at the same place of equal exports have equal labels. */
  lemma ExportIdentifiesLabels(v: Variation, w: Variation, i: nat)
    requires Document(JSX, PageOf(v)) == Document(JSX, PageOf(w))
    requires i < |v.tiers| && i < |w.tiers|
    requires v.tiers[i].price.customLabel != "" && w.tiers[i].price.customLabel != ""
    ensures v.tiers[i].price.customLabel == w.tiers[i].price.customLabel
  {
    PageShowsEverything(v);
    PageShowsEverything(w);
  }

  // ---------- the markup ----------

  /** The fixed texts open a tag and close the same one around an expression. */
  ghost predicate Encloses(open: string, close: string, tag: string, attributes: string) {
    && (exists indent :: open == indent + "<" + tag + attributes + ">{")
    && close == "}</" + tag + ">\n"
  }

  lemma EnclosesBy(open: string, close: string, tag: string, attributes: string, indent: string)
    requires open == indent + "<" + tag + attributes + ">{"
    requires close == "}</" + tag + ">\n"
    ensures Encloses(open, close, tag, attributes)
  {
  }

  lemma HeadlineMarkup()
    ensures Encloses(HEADLINE_OPEN, HEADLINE_CLOSE, "h2", "")
  {
    EnclosesBy(HEADLINE_OPEN, HEADLINE_CLOSE, "h2", "", "      ");
  }

  lemma SubheadlineMarkup()
    ensures Encloses(SUBHEADLINE_OPEN, PARAGRAPH_CLOSE, "p", " className=\"subheadline\"")
  {
    EnclosesBy(SUBHEADLINE_OPEN, PARAGRAPH_CLOSE, "p", " className=\"subheadline\"", "      ");
  }

  lemma BadgeMarkup()
    ensures Encloses(BADGE_OPEN, BADGE_CLOSE, "span", " className=\"badge\"")
  {
    EnclosesBy(BADGE_OPEN, BADGE_CLOSE, "span", " className=\"badge\"", "          ");
  }

  lemma NameMarkup()
    ensures Encloses(NAME_OPEN, NAME_CLOSE, "h3", "")
  {
    EnclosesBy(NAME_OPEN, NAME_CLOSE, "h3", "", "          ");
  }

  lemma PriceMarkup()
    ensures Encloses(PRICE_OPEN, PARAGRAPH_CLOSE, "p", " className=\"price\"")
  {
    EnclosesBy(PRICE_OPEN, PARAGRAPH_CLOSE, "p", " className=\"price\"", "          ");
  }

  lemma TaglineMarkup()
    ensures Encloses(TAGLINE_OPEN, PARAGRAPH_CLOSE, "p", " className=\"tagline\"")
  {
    EnclosesBy(TAGLINE_OPEN, PARAGRAPH_CLOSE, "p", " className=\"tagline\"", "          ");
  }

  lemma FeatureMarkup()
    ensures Encloses(FEATURE_OPEN, FEATURE_CLOSE, "li", "")
  {
    EnclosesBy(FEATURE_OPEN, FEATURE_CLOSE, "li", "", "            ");
  }

  lemma CtaMarkup()
    ensures Encloses(CTA_OPEN, CTA_CLOSE, "button", " type=\"button\"")
  {
    EnclosesBy(CTA_OPEN, CTA_CLOSE, "button", " type=\"button\"", "          ");
  }

  /** Every expression stands between a tag and its own closing tag. */
  lemma MarkupMatches()
    ensures Encloses(JSX.headlineOpen, JSX.headlineClose, "h2", "")
    ensures Encloses(JSX.subheadlineOpen, JSX.paragraphClose, "p", " className=\"subheadline\"")
    ensures Encloses(JSX.badgeOpen, JSX.badgeClose, "span", " className=\"badge\"")
    ensures Encloses(JSX.nameOpen, JSX.nameClose, "h3", "")
    ensures Encloses(JSX.priceOpen, JSX.paragraphClose, "p", " className=\"price\"")
    ensures Encloses(JSX.taglineOpen, JSX.paragraphClose, "p", " className=\"tagline\"")
    ensures Encloses(JSX.featureOpen, JSX.featureClose, "li", "")
    ensures Encloses(JSX.ctaOpen, JSX.ctaClose, "button", " type=\"button\"")
  {
    HeadlineMarkup();
    SubheadlineMarkup();
    BadgeMarkup();
    NameMarkup();
    PriceMarkup();
    TaglineMarkup();
    FeatureMarkup();
    CtaMarkup();
  }

  /** The lines that hold no expression. */
  lemma FixedLines()
    ensures JSX.header
         == "export default function PricingSection() {\n  return (\n    <section className=\"pricing-section\">\n"
    ensures JSX.tiersOpen == "      <div className=\"tiers\">\n"
    ensures JSX.footer == "      </div>\n    </section>\n  );\n}\n"
    ensures JSX.tierOpen == "        <div className=" && JSX.tierOpenEnd == ">\n" && JSX.tierClose == "        </div>\n"
    ensures JSX.featuresOpen == "          <ul className=\"features\">\n"
    ensures JSX.featuresClose == "          </ul>\n"
    ensures JSX.tierClass == "tier" && JSX.highlight == " tier--highlighted"
  {
  }
}
