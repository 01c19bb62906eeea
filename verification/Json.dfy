/** Compact JSON values, as `encoding/json` writes them and as RFC 8259 reads them. */
module Json {
  import opened Wrappers
  import opened Decimals
  import opened JsonString

  datatype Value =
    | Flag(flag: bool)
    | Number(number: int)
    | Text(text: string)
    | List(items: seq<Value>)
    | Record(members: seq<Member>)

  datatype Member = Member(key: string, value: Value)

  function Numeral(n: int): string {
    if n < 0 then "-" + Decimal(-n) else Decimal(n)
  }

  function Print(v: Value): (s: string)
    decreases v
  {
    match v
    case Flag(b) => if b then "true" else "false"
    case Number(n) => Numeral(n)
    case Text(t) => Literal(t)
    case List(items) => ['['] + PrintItems(items)
    case Record(members) => ['{'] + PrintMembers(members)
  }

  function PrintMember(m: Member): string
    decreases m
  {
    Literal(m.key) + ([':'] + Print(m.value))
  }

  /** The items and the closing bracket. */
  function PrintItems(items: seq<Value>): string
    decreases items
  {
    if items == [] then [']']
    else Print(items[0]) + (if |items| == 1 then [']'] else [','] + PrintItems(items[1..]))
  }

  function PrintMembers(members: seq<Member>): string
    decreases members
  {
    if members == [] then ['}']
    else PrintMember(members[0]) + (if |members| == 1 then ['}'] else [','] + PrintMembers(members[1..]))
  }

  // ---------- reading ----------

  function NumberLength(s: string): (n: nat)
    ensures n <= |s| && forall i :: 0 <= i < n ==> IsDigit(s[i])
  {
    if s == "" || !IsDigit(s[0]) then 0
    else
      var n := NumberLength(s[1..]);
      assert forall i :: 0 < i <= n ==> s[i] == s[1..][i - 1];
      1 + n
  }

  function ReadDigits(s: string): (r: Option<(nat, string)>)
    ensures r.Some? ==> |r.value.1| < |s|
  {
    var n := NumberLength(s);
    if n == 0 then None else Some((Decimals.Value(s[..n]), s[n..]))
  }

  function ReadNumber(s: string): (r: Option<(Value, string)>)
    ensures r.Some? ==> |r.value.1| < |s|
  {
    if s != "" && s[0] == '-' then
      match ReadDigits(s[1..])
      case None => None
      case Some((n, rest)) => Some((Number(0 - n), rest))
    else
      match ReadDigits(s)
      case None => None
      case Some((n, rest)) => Some((Number(n), rest))
  }

  function Read(s: string): (r: Option<(Value, string)>)
    ensures r.Some? ==> |r.value.1| < |s|
    decreases |s|, 0
  {
    if s == "" then None
    else if s[0] == '\"' then
      match ReadLiteral(s)
      case None => None
      case Some((t, rest)) => Some((Text(t), rest))
    else if s[0] == '[' then
      if |s| > 1 && s[1] == ']' then Some((List([]), s[2..]))
      else
        match ReadItems(s[1..])
        case None => None
        case Some((items, rest)) => Some((List(items), rest))
    else if s[0] == '{' then
      if |s| > 1 && s[1] == '}' then Some((Record([]), s[2..]))
      else
        match ReadMembers(s[1..])
        case None => None
        case Some((members, rest)) => Some((Record(members), rest))
    else if s[0] == '-' || IsDigit(s[0]) then ReadNumber(s)
    else if StartsWith(s, "true") then Some((Flag(true), s[4..]))
    else if StartsWith(s, "false") then Some((Flag(false), s[5..]))
    else None
  }

  /** One item or more, and the closing bracket. */
  function ReadItems(s: string): (r: Option<(seq<Value>, string)>)
    ensures r.Some? ==> |r.value.1| < |s|
    decreases |s|, 1
  {
    match Read(s)
    case None => None
    case Some((v, after)) =>
      if after == "" then None
      else if after[0] == ']' then Some(([v], after[1..]))
      else if after[0] == ',' then
        match ReadItems(after[1..])
        case None => None
        case Some((vs, rest)) => Some(([v] + vs, rest))
      else None
  }

  function ReadMember(s: string): (r: Option<(Member, string)>)
    ensures r.Some? ==> |r.value.1| < |s|
    decreases |s|, 1
  {
    match ReadLiteral(s)
    case None => None
    case Some((key, after)) =>
      if after == "" || after[0] != ':' then None
      else
        match Read(after[1..])
        case None => None
        case Some((v, rest)) => Some((Member(key, v), rest))
  }

  function ReadMembers(s: string): (r: Option<(seq<Member>, string)>)
    ensures r.Some? ==> |r.value.1| < |s|
    decreases |s|, 2
  {
    match ReadMember(s)
    case None => None
    case Some((m, after)) =>
      if after == "" then None
      else if after[0] == '}' then Some(([m], after[1..]))
      else if after[0] == ',' then
        match ReadMembers(after[1..])
        case None => None
        case Some((ms, rest)) => Some(([m] + ms, rest))
      else None
  }

  // ---------- the reader undoes the printer ----------

  /** What may follow a value: anything that does not run on into a number. */
  predicate Ends(rest: string) {
    rest == "" || !IsDigit(rest[0])
  }

  lemma {:induction false} NumberLengthOf(digits: string, rest: string)
    requires (forall i :: 0 <= i < |digits| ==> IsDigit(digits[i])) && Ends(rest)
    ensures NumberLength(digits + rest) == |digits|
    decreases |digits|
  {
    if digits == "" {
      assert digits + rest == rest;
    } else {
      assert (digits + rest)[1..] == digits[1..] + rest;
      NumberLengthOf(digits[1..], rest);
    }
  }

  lemma ReadDecimal(n: nat, rest: string)
    requires Ends(rest)
    ensures ReadDigits(Decimal(n) + rest) == Some((n, rest))
  {
    NumberLengthOf(Decimal(n), rest);
    ValueOfDecimal(n);
    assert (Decimal(n) + rest)[..|Decimal(n)|] == Decimal(n);
    assert (Decimal(n) + rest)[|Decimal(n)|..] == rest;
  }

  lemma ReadNegative(digits: string, n: nat, rest: string)
    requires ReadDigits(digits + rest) == Some((n, rest))
    ensures ReadNumber("-" + digits + rest) == Some((Number(0 - n), rest))
  {
    assert ("-" + digits + rest)[1..] == digits + rest;
  }

  lemma ReadNonNegative(digits: string, n: nat, rest: string)
    requires ReadDigits(digits + rest) == Some((n, rest)) && IsNumeral(digits)
    ensures ReadNumber(digits + rest) == Some((Number(n), rest))
  {
    assert (digits + rest)[0] == digits[0];
  }

  lemma ReadDispatchesNumber(s: string)
    requires s != "" && (s[0] == '-' || IsDigit(s[0]))
    ensures Read(s) == ReadNumber(s)
  {
  }

  lemma ReadNumeral(n: int, rest: string)
    requires Ends(rest)
    ensures Read(Numeral(n) + rest) == Some((Number(n), rest))
  {
    var s := Numeral(n) + rest;
    assert s[0] == Numeral(n)[0];
    ReadDispatchesNumber(s);
    if n < 0 {
      ReadDecimal(-n, rest);
      ReadNegative(Decimal(-n), -n, rest);
    } else {
      ReadDecimal(n, rest);
      ReadNonNegative(Decimal(n), n, rest);
    }
  }

  lemma ReadFlag(b: bool, rest: string)
    ensures Read((if b then "true" else "false") + rest) == Some((Flag(b), rest))
  {
    if b {
      assert ("true" + rest)[..4] == "true" && ("true" + rest)[4..] == rest;
    } else {
      var s := "false" + rest;
      assert s[..5] == "false" && s[5..] == rest;
      assert |s| >= 4 && s[..4][0] == 'f';
    }
  }

  /** A value never starts like the end of a list. */
  lemma PrintStarts(v: Value)
    ensures Print(v) != "" && Print(v)[0] != ']' && Print(v)[0] != '}'
  {
  }

  lemma {:induction false} ValueRoundTrip(v: Value, rest: string)
    requires Ends(rest)
    ensures Read(Print(v) + rest) == Some((v, rest))
    decreases v
  {
    match v
    case Flag(b) => ReadFlag(b, rest);
    case Number(n) => ReadNumeral(n, rest);
    case Text(t) =>
      LiteralRoundTrip(t, rest);
      assert (Literal(t) + rest)[0] == '\"';
    case List(items) => ListRoundTrip(items, rest);
    case Record(members) => RecordRoundTrip(members, rest);
  }

  lemma {:induction false} ListRoundTrip(items: seq<Value>, rest: string)
    ensures Read(['['] + PrintItems(items) + rest) == Some((List(items), rest))
    decreases items, 2
  {
    var s := ['['] + PrintItems(items) + rest;
    if items == [] {
      assert s[1] == ']' && s[2..] == rest;
    } else {
      ItemsRoundTrip(items, rest);
      PrintStarts(items[0]);
      assert s[1..] == PrintItems(items) + rest && s[1] == Print(items[0])[0];
    }
  }

  lemma {:induction false} RecordRoundTrip(members: seq<Member>, rest: string)
    ensures Read(['{'] + PrintMembers(members) + rest) == Some((Record(members), rest))
    decreases members, 2
  {
    var s := ['{'] + PrintMembers(members) + rest;
    if members == [] {
      assert s[1] == '}' && s[2..] == rest;
    } else {
      MembersRoundTrip(members, rest);
      assert s[1..] == PrintMembers(members) + rest && s[1] == PrintMember(members[0])[0] == '\"';
    }
  }

  lemma Regroup(a: string, b: string, c: string, d: string)
    ensures a + (b + c) + d == a + (b + (c + d))
  {
  }

  lemma ReadItemsLast(s: string, v: Value, rest: string)
    requires Read(s) == Some((v, [']'] + rest))
    ensures ReadItems(s) == Some(([v], rest))
  {
    assert ([']'] + rest)[1..] == rest;
  }

  lemma ReadItemsMore(s: string, v: Value, more: string, vs: seq<Value>, rest: string)
    requires Read(s) == Some((v, [','] + more)) && ReadItems(more) == Some((vs, rest))
    ensures ReadItems(s) == Some(([v] + vs, rest))
  {
    assert ([','] + more)[1..] == more;
  }

  lemma {:induction false} ItemsRoundTrip(items: seq<Value>, rest: string)
    requires items != []
    ensures ReadItems(PrintItems(items) + rest) == Some((items, rest))
    decreases items, 1
  {
    var s := PrintItems(items) + rest;
    if |items| == 1 {
      Regroup(Print(items[0]), "", [']'], rest);
      assert "" + [']'] == [']'] && "" + ([']'] + rest) == [']'] + rest && items == [items[0]];
      ValueRoundTrip(items[0], [']'] + rest);
      ReadItemsLast(s, items[0], rest);
    } else {
      var more := PrintItems(items[1..]) + rest;
      Regroup(Print(items[0]), [','], PrintItems(items[1..]), rest);
      ValueRoundTrip(items[0], [','] + more);
      ItemsRoundTrip(items[1..], rest);
      ReadItemsMore(s, items[0], more, items[1..], rest);
      assert items == [items[0]] + items[1..];
    }
  }

  lemma {:induction false} MemberRoundTrip(m: Member, rest: string)
    requires Ends(rest)
    ensures ReadMember(PrintMember(m) + rest) == Some((m, rest))
    decreases m, 0
  {
    var after := [':'] + (Print(m.value) + rest);
    assert PrintMember(m) + rest == Literal(m.key) + after;
    LiteralRoundTrip(m.key, after);
    assert after[1..] == Print(m.value) + rest;
    ValueRoundTrip(m.value, rest);
  }

  lemma ReadMembersLast(s: string, m: Member, rest: string)
    requires ReadMember(s) == Some((m, ['}'] + rest))
    ensures ReadMembers(s) == Some(([m], rest))
  {
    assert (['}'] + rest)[1..] == rest;
  }

  lemma ReadMembersMore(s: string, m: Member, more: string, ms: seq<Member>, rest: string)
    requires ReadMember(s) == Some((m, [','] + more)) && ReadMembers(more) == Some((ms, rest))
    ensures ReadMembers(s) == Some(([m] + ms, rest))
  {
    assert ([','] + more)[1..] == more;
  }

  lemma {:induction false} MembersRoundTrip(members: seq<Member>, rest: string)
    requires members != []
    ensures ReadMembers(PrintMembers(members) + rest) == Some((members, rest))
    decreases members, 1
  {
    var s := PrintMembers(members) + rest;
    if |members| == 1 {
      Regroup(PrintMember(members[0]), "", ['}'], rest);
      assert "" + ['}'] == ['}'] && "" + (['}'] + rest) == ['}'] + rest && members == [members[0]];
      MemberRoundTrip(members[0], ['}'] + rest);
      ReadMembersLast(s, members[0], rest);
    } else {
      var more := PrintMembers(members[1..]) + rest;
      Regroup(PrintMember(members[0]), [','], PrintMembers(members[1..]), rest);
      MemberRoundTrip(members[0], [','] + more);
      MembersRoundTrip(members[1..], rest);
      ReadMembersMore(s, members[0], more, members[1..], rest);
      assert members == [members[0]] + members[1..];
    }
  }

  // ---------- nothing that markup or framing could trip over ----------

  predicate AllInert(s: string) {
    forall i :: 0 <= i < |s| ==> Inert(s[i])
  }

  lemma LiteralIsInert(s: string)
    ensures AllInert(Literal(s))
  {
    forall i | 0 <= i < |Escape(s)|
      ensures Inert(Escape(s)[i])
    {
      EscapeIsInert(s, i);
    }
  }

  /** No control character, so no line break, and nothing special in HTML, in any value. */
  lemma {:induction false} PrintIsInert(v: Value)
    ensures AllInert(Print(v))
    decreases v
  {
    match v
    case Flag(b) => assert AllInert("true") && AllInert("false");
    case Number(n) =>
    case Text(t) => LiteralIsInert(t);
    case List(items) => ItemsAreInert(items);
    case Record(members) => MembersAreInert(members);
  }

  lemma {:induction false} ItemsAreInert(items: seq<Value>)
    ensures AllInert(PrintItems(items))
    decreases items
  {
    if items == [] {
    } else {
      PrintIsInert(items[0]);
      ItemsAreInert(items[1..]);
    }
  }

  lemma {:induction false} MembersAreInert(members: seq<Member>)
    ensures AllInert(PrintMembers(members))
    decreases members
  {
    if members == [] {
    } else {
      LiteralIsInert(members[0].key);
      PrintIsInert(members[0].value);
      MembersAreInert(members[1..]);
    }
  }
}
