/** The implicit idempotency key. SHA-256 and the JSON encoding are taken as injective, so
    the key is the content that is hashed. */
module ContentKey {
  import opened Wrappers
  import opened Domain
  import opened ApiMapping

  // ---- the order of strings (by code point, as Go's byte order on UTF-8) ----

  predicate StringLe(a: string, b: string) {
    a == [] || (b != [] && (a[0] < b[0] || (a[0] == b[0] && StringLe(a[1..], b[1..]))))
  }

  lemma {:induction false} StringLeTotal(a: string, b: string)
    ensures StringLe(a, b) || StringLe(b, a)
  {
    if a != [] && b != [] && a[0] == b[0] {
      StringLeTotal(a[1..], b[1..]);
    }
  }

  lemma {:induction false} StringLeAntisymmetric(a: string, b: string)
    requires StringLe(a, b) && StringLe(b, a)
    ensures a == b
  {
    if a != [] && b != [] {
      StringLeAntisymmetric(a[1..], b[1..]);
      assert a == [a[0]] + a[1..] && b == [b[0]] + b[1..];
    }
  }

  lemma {:induction false} StringLeTransitive(a: string, b: string, c: string)
    requires StringLe(a, b) && StringLe(b, c)
    ensures StringLe(a, c)
  {
    if a != [] && a[0] == b[0] && b[0] == c[0] {
      StringLeTransitive(a[1..], b[1..], c[1..]);
    }
  }

  predicate SortedStrings(s: seq<string>) {
    forall i, j :: 0 <= i < j < |s| ==> StringLe(s[i], s[j])
  }

  lemma LeastComesFirst(a: seq<string>, x: string)
    requires SortedStrings(a) && x in a
    ensures StringLe(a[0], x)
  {
    StringLeTotal(a[0], a[0]);
  }

  lemma MultisetOfTail<T>(a: seq<T>)
    requires a != []
    ensures a == [a[0]] + a[1..] && multiset(a[1..]) == multiset(a) - multiset{a[0]}
  {
    assert a == [a[0]] + a[1..];
  }

  /** A multiset of strings has one sorted arrangement. */
  lemma {:induction false} SortedIsUnique(a: seq<string>, b: seq<string>)
    requires SortedStrings(a) && SortedStrings(b) && multiset(a) == multiset(b)
    ensures a == b
  {
    assert |a| == |multiset(a)| && |b| == |multiset(b)|;
    if a == [] {
    } else {
      assert a[0] in multiset(b) && b[0] in multiset(a);
      LeastComesFirst(a, b[0]);
      LeastComesFirst(b, a[0]);
      StringLeAntisymmetric(a[0], b[0]);
      MultisetOfTail(a);
      MultisetOfTail(b);
      SortedIsUnique(a[1..], b[1..]);
    }
  }

  /** The sorted arrangement, by insertion. */
  function Inserted(x: string, s: seq<string>): seq<string> {
    if s == [] then [x]
    else if StringLe(x, s[0]) then [x] + s
    else [s[0]] + Inserted(x, s[1..])
  }

  function SortedArrangement(s: seq<string>): seq<string> {
    if s == [] then [] else Inserted(s[0], SortedArrangement(s[1..]))
  }

  lemma ConsSorted(x: string, s: seq<string>)
    requires SortedStrings(s) && forall y :: y in multiset(s) ==> StringLe(x, y)
    ensures SortedStrings([x] + s)
  {
    forall j | 0 <= j < |s| ensures StringLe(x, s[j]) {
      assert s[j] in multiset(s);
    }
  }

  lemma {:induction false} InsertedIsSorted(x: string, s: seq<string>)
    requires SortedStrings(s)
    ensures multiset(Inserted(x, s)) == multiset{x} + multiset(s)
    ensures SortedStrings(Inserted(x, s))
  {
    if s == [] {
    } else {
      MultisetOfTail(s);
      forall y | y in multiset(s) ensures StringLe(s[0], y) { LeastComesFirst(s, y); }
      if StringLe(x, s[0]) {
        forall y | y in multiset(s) ensures StringLe(x, y) { StringLeTransitive(x, s[0], y); }
        ConsSorted(x, s);
      } else {
        InsertedIsSorted(x, s[1..]);
        StringLeTotal(x, s[0]);
        ConsSorted(s[0], Inserted(x, s[1..]));
      }
    }
  }

  lemma {:induction false} ArrangementIsSorted(s: seq<string>)
    ensures SortedStrings(SortedArrangement(s)) && multiset(SortedArrangement(s)) == multiset(s)
  {
    if s == [] {
    } else {
      ArrangementIsSorted(s[1..]);
      InsertedIsSorted(s[0], SortedArrangement(s[1..]));
      assert s == [s[0]] + s[1..];
    }
  }

  // ---- the key ----

  datatype Key = Content(profile: SiteProfile, strategies: seq<Strategy>, currency: string)

  function Timeless(p: SiteProfile): SiteProfile { p.(analyzedAt := 0) }

  function KeyOf(input: GenerateInput): Key {
    Content(Timeless(input.profile), SortedArrangement(input.strategies), input.currency)
  }

  /** The key ignores the order of the strategies and the time of the analysis, and nothing
      else. */
  lemma KeySeparates(a: GenerateInput, b: GenerateInput)
    ensures KeyOf(a) == KeyOf(b) <==>
              && a.profile.(analyzedAt := b.profile.analyzedAt) == b.profile
              && multiset(a.strategies) == multiset(b.strategies)
              && a.currency == b.currency
  {
    ArrangementIsSorted(a.strategies);
    ArrangementIsSorted(b.strategies);
    if multiset(a.strategies) == multiset(b.strategies) {
      SortedIsUnique(SortedArrangement(a.strategies), SortedArrangement(b.strategies));
    }
  }

  /** `sort.Slice` on a short slice: insertion by adjacent swaps. */
  method SortStrings(a: array<string>)
    modifies a
    ensures a[..] == SortedArrangement(old(a[..]))
  {
    var i := 1;
    while i < a.Length
      invariant 1 <= i && (a.Length >= 1 ==> i <= a.Length)
      invariant multiset(a[..]) == multiset(old(a[..]))
      invariant i <= a.Length ==> SortedStrings(a[..i])
    {
      SinkInto(a, i);
      i := i + 1;
    }
    assert a.Length >= 1 ==> a[..a.Length] == a[..];
    ArrangementIsSorted(old(a[..]));
    SortedIsUnique(a[..], SortedArrangement(old(a[..])));
  }

  /** Sorted except that the element at `j` may belong further left. */
  ghost predicate Sinking(s: seq<string>, j: nat) {
    forall p, q :: 0 <= p < q < |s| && q != j ==> StringLe(s[p], s[q])
  }

  lemma SwapKeepsSinking(s: seq<string>, j: nat)
    requires 0 < j < |s| && Sinking(s, j) && !StringLe(s[j - 1], s[j])
    ensures Sinking(s[j := s[j - 1]][j - 1 := s[j]], j - 1)
  {
    var t := s[j := s[j - 1]][j - 1 := s[j]];
    StringLeTotal(s[j - 1], s[j]);
    forall p, q | 0 <= p < q < |t| && q != j - 1
      ensures StringLe(t[p], t[q])
    {
    }
  }

  lemma SunkIsSorted(s: seq<string>, j: nat)
    requires j < |s| && Sinking(s, j) && (j == 0 || StringLe(s[j - 1], s[j]))
    ensures SortedStrings(s)
  {
    forall p, q | 0 <= p < q < |s|
      ensures StringLe(s[p], s[q])
    {
      if q == j && p < j - 1 {
        StringLeTransitive(s[p], s[j - 1], s[j]);
      }
    }
  }

  method SinkInto(a: array<string>, i: nat)
    requires 1 <= i < a.Length && SortedStrings(a[..i])
    modifies a
    ensures multiset(a[..]) == multiset(old(a[..]))
    ensures SortedStrings(a[..i + 1])
  {
    var j := i;
    while j > 0 && !StringLe(a[j - 1], a[j])
      invariant 0 <= j <= i
      invariant multiset(a[..]) == multiset(old(a[..]))
      invariant Sinking(a[..i + 1], j)
    {
      SwapKeepsSinking(a[..i + 1], j);
      ghost var before := a[..i + 1];
      a[j - 1], a[j] := a[j], a[j - 1];
      assert a[..i + 1] == before[j := before[j - 1]][j - 1 := before[j]];
      j := j - 1;
    }
    SunkIsSorted(a[..i + 1], j);
  }

  /** `contentIdempotencyKey`: sorts a copy, so the caller's slice (which may be the shared
      `allStrategies`) is not touched. */
  method ContentIdempotencyKey(profile: SiteProfile, strategies: array<Strategy>, currency: string) returns (key: Key)
    ensures key == KeyOf(GenerateInput(profile, strategies[..], currency))
    ensures strategies[..] == old(strategies[..])
  {
    var copy := new Strategy[strategies.Length];
    for k := 0 to strategies.Length
      invariant copy[..k] == strategies[..k]
      invariant strategies[..] == old(strategies[..])
    {
      copy[k] := strategies[k];
    }
    assert copy[..] == strategies[..];
    SortStrings(copy);
    return Content(profile.(analyzedAt := 0), copy[..], currency);
  }

  // ---- the request's defaults ----

  const ALL_STRATEGIES: seq<Strategy> := [ANCHOR, FREEMIUM, VALUE_BASED]

  datatype ApiRequest = ApiRequest(profile: ApiSiteProfile, strategies: Option<seq<Strategy>>, currency: Option<string>)

  /** `toGenerateVariationsInput`. */
  function ToInput(req: ApiRequest): GenerateInput {
    GenerateInput(
      FromApiSiteProfile(req.profile),
      if req.strategies.Some? && req.strategies.value != [] then req.strategies.value else ALL_STRATEGIES,
      if req.currency.Some? && req.currency.value != "" then req.currency.value else "USD")
  }

  /** The defaults: an omitted or empty list is the three strategies, an omitted or empty
      currency US dollars, and whatever is given is taken as given. */
  lemma DefaultsAreResolved(req: ApiRequest)
    ensures var input := ToInput(req);
            && (req.strategies.GetOr([]) == [] ==> input.strategies == ["anchor", "freemium", "value_based"])
            && (req.strategies.GetOr([]) != [] ==> Some(input.strategies) == req.strategies)
            && (req.currency.GetOr("") == "" ==> input.currency == "USD")
            && (req.currency.GetOr("") != "" ==> Some(input.currency) == req.currency)
            && input.profile == FromApiSiteProfile(req.profile)
    ensures req.strategies.GetOr([]) == [] && req.profile.url != "" ==> AcceptableInput(ToInput(req))
  {
    assert |ANCHOR| == 6 && |FREEMIUM| == 8 && |VALUE_BASED| == 11;
  }

  lemma ThreeOfThree<T>(l: seq<T>, a: T, b: T, c: T)
    requires |l| == 3 && NoDuplicates(l) && a != b && a != c && b != c
    requires forall i :: 0 <= i < 3 ==> l[i] == a || l[i] == b || l[i] == c
    ensures multiset(l) == multiset([a, b, c])
  {
    assert l == [l[0], l[1], l[2]];
    assert l[0] != l[1] && l[0] != l[2] && l[1] != l[2];
  }

  /** Leaving the strategies out is the same request as listing all three in any order. */
  lemma OmittedStrategiesShareTheKey(profile: ApiSiteProfile, listed: seq<Strategy>, currency: Option<string>)
    requires |listed| == 3 && NoDuplicates(listed)
    requires forall i :: 0 <= i < 3 ==> ValidStrategy(listed[i])
    ensures var omitted, named := ApiRequest(profile, None, currency), ApiRequest(profile, Some(listed), currency);
            KeyOf(ToInput(omitted)) == KeyOf(ToInput(named))
  {
    assert |ANCHOR| == 6 && |FREEMIUM| == 8 && |VALUE_BASED| == 11;
    ThreeOfThree(listed, ANCHOR, FREEMIUM, VALUE_BASED);
    var omitted := ToInput(ApiRequest(profile, None, currency));
    SameButStrategies(omitted.profile, ALL_STRATEGIES, listed, omitted.currency);
  }

  lemma SameButStrategies(profile: SiteProfile, a: seq<Strategy>, b: seq<Strategy>, currency: string)
    requires multiset(a) == multiset(b)
    ensures KeyOf(GenerateInput(profile, a, currency)) == KeyOf(GenerateInput(profile, b, currency))
  {
    KeySeparates(GenerateInput(profile, a, currency), GenerateInput(profile, b, currency));
  }
}
