/** String literals as `encoding/json` writes them with HTML escaping on, and as section 7
    of RFC 8259 reads them. A Dafny character is a Unicode scalar value, so the strings are
    always valid UTF-8. */
module JsonString {
  import opened Wrappers

  const BACKSPACE: char := '\U{8}'
  const FORM_FEED: char := '\U{C}'

  function HexDigit(d: nat): (c: char)
    requires d < 16
    ensures IsHex(c) && HexDigitValue(c) == d && !('A' <= c <= 'F')
  {
    if d < 10 then '0' + d as char else 'a' + (d - 10) as char
  }

  predicate IsHex(c: char) { '0' <= c <= '9' || 'a' <= c <= 'f' || 'A' <= c <= 'F' }

  function HexDigitValue(c: char): (d: nat)
    requires IsHex(c)
    ensures d < 16
  {
    if c <= '9' then (c - '0') as nat
    else if c <= 'F' then (c - 'A') as nat + 10
    else (c - 'a') as nat + 10
  }

  function Hex2(n: nat): (s: string)
    requires n < 256
    ensures |s| == 2 && IsHex(s[0]) && IsHex(s[1]) && Hex2Value(s[0], s[1]) == n
    ensures !('A' <= s[0] <= 'F') && !('A' <= s[1] <= 'F')
  {
    [HexDigit(n / 16), HexDigit(n % 16)]
  }

  function Hex2Value(high: char, low: char): (n: nat)
    requires IsHex(high) && IsHex(low)
    ensures n < 256
  {
    16 * HexDigitValue(high) + HexDigitValue(low)
  }

  function Hex4(n: nat): (s: string)
    requires n < 65536
    ensures |s| == 4 && (forall i :: 0 <= i < 4 ==> IsHex(s[i]) && !('A' <= s[i] <= 'F')) && Hex4Value(s) == n
  {
    Hex2(n / 256) + Hex2(n % 256)
  }

  function Hex4Value(s: string): (n: nat)
    requires |s| == 4 && forall i :: 0 <= i < 4 ==> IsHex(s[i])
    ensures n < 65536
  {
    256 * Hex2Value(s[0], s[1]) + Hex2Value(s[2], s[3])
  }

  /** Not a control character, not a line terminator of JavaScript, not special in HTML. */
  predicate Inert(c: char) {
    c >= ' ' && c != '<' && c != '>' && c != '&' && c != '\U{2028}' && c != '\U{2029}'
  }

  /** What Go writes as \u00xx or \u20xx. */
  predicate NeedsCodePoint(c: char) {
    !Inert(c) && !HasShortForm(c)
  }

  predicate HasShortForm(c: char) {
    c == '\"' || c == '\\' || c == BACKSPACE || c == FORM_FEED || c == '\n' || c == '\r' || c == '\t'
  }

  function ShortForm(c: char): (f: char)
    requires HasShortForm(c)
    ensures Inert(f)
  {
    if c == '\"' then '\"'
    else if c == '\\' then '\\'
    else if c == BACKSPACE then 'b'
    else if c == FORM_FEED then 'f'
    else if c == '\n' then 'n'
    else if c == '\r' then 'r'
    else 't'
  }

  function EscapeChar(c: char): string {
    if HasShortForm(c) then ['\\'] + [ShortForm(c)]
    else if NeedsCodePoint(c) then ['\\'] + ("u" + Hex4(c as nat))
    else [c]
  }

  function Escape(s: string): string {
    if s == "" then "" else EscapeChar(s[0]) + Escape(s[1..])
  }

  function Literal(s: string): string {
    "\"" + Escape(s) + "\""
  }

  /** One escape, after its backslash. A surrogate pair, which the encoder never writes,
      is not read. */
  function ReadEscape(t: string): (r: Option<(char, string)>)
    ensures r.Some? ==> |r.value.1| < |t|
  {
    if t == "" then None
    else
      var rest := t[1..];
      match t[0]
      case '\"' => Some(('\"', rest))
      case '\\' => Some(('\\', rest))
      case '/' => Some(('/', rest))
      case 'b' => Some((BACKSPACE, rest))
      case 'f' => Some((FORM_FEED, rest))
      case 'n' => Some(('\n', rest))
      case 'r' => Some(('\r', rest))
      case 't' => Some(('\t', rest))
      case 'u' => ReadCodePoint(rest)
      case _ => None
  }

  function ReadCodePoint(t: string): (r: Option<(char, string)>)
    ensures r.Some? ==> |r.value.1| < |t|
  {
    if |t| < 4 || exists i :: 0 <= i < 4 && !IsHex(t[i]) then None
    else
      var code := Hex4Value(t[..4]);
      if 0xD800 <= code <= 0xDFFF then None else Some((code as char, t[4..]))
  }

  /** The characters up to the closing quote, and the text after it. */
  function ReadChars(t: string): (r: Option<(string, string)>)
    ensures r.Some? ==> |r.value.1| < |t|
  {
    if t == "" || t[0] < ' ' then None
    else if t[0] == '\"' then Some(("", t[1..]))
    else if t[0] == '\\' then
      match ReadEscape(t[1..])
      case None => None
      case Some((c, rest)) => Cons(c, ReadChars(rest))
    else Cons(t[0], ReadChars(t[1..]))
  }

  function Cons(c: char, r: Option<(string, string)>): (q: Option<(string, string)>)
    ensures q.Some? <==> r.Some?
    ensures q.Some? ==> q.value == ([c] + r.value.0, r.value.1)
  {
    match r
    case None => None
    case Some((s, rest)) => Some(([c] + s, rest))
  }

  function ReadLiteral(t: string): (r: Option<(string, string)>)
    ensures r.Some? ==> |r.value.1| < |t|
  {
    if t == "" || t[0] != '\"' then None else ReadChars(t[1..])
  }

  lemma ReadCodePointOf(c: char, rest: string)
    requires NeedsCodePoint(c)
    ensures ReadEscape("u" + Hex4(c as nat) + rest) == Some((c, rest))
  {
    var t := Hex4(c as nat) + rest;
    assert t[..4] == Hex4(c as nat) && t[4..] == rest;
    assert ("u" + Hex4(c as nat) + rest)[1..] == t;
  }

  lemma ReadShortForm(c: char, rest: string)
    requires HasShortForm(c)
    ensures ReadEscape([ShortForm(c)] + rest) == Some((c, rest))
  {
    assert ([ShortForm(c)] + rest)[1..] == rest;
  }

  lemma ReadAfterBackslash(escape: string, c: char, rest: string)
    requires ReadEscape(escape + rest) == Some((c, rest))
    ensures ReadChars(['\\'] + escape + rest) == Cons(c, ReadChars(rest))
  {
    var t := ['\\'] + escape + rest;
    assert t[0] == '\\' && t[1..] == escape + rest;
  }

  lemma ReadPlainChar(c: char, rest: string)
    requires Inert(c) && !HasShortForm(c)
    ensures ReadChars([c] + rest) == Cons(c, ReadChars(rest))
  {
    assert ([c] + rest)[1..] == rest;
  }

  lemma ReadEscapedChar(c: char, rest: string)
    ensures ReadChars(EscapeChar(c) + rest) == Cons(c, ReadChars(rest))
  {
    if HasShortForm(c) {
      ReadShortForm(c, rest);
      ReadAfterBackslash([ShortForm(c)], c, rest);
    } else if NeedsCodePoint(c) {
      ReadCodePointOf(c, rest);
      ReadAfterBackslash("u" + Hex4(c as nat), c, rest);
    } else {
      ReadPlainChar(c, rest);
    }
  }

  lemma {:induction false} ReadEscaped(s: string, rest: string)
    ensures ReadChars(Escape(s) + ("\"" + rest)) == Some((s, rest))
  {
    if s == "" {
      assert Escape(s) + ("\"" + rest) == "\"" + rest;
    } else {
      var more := Escape(s[1..]) + ("\"" + rest);
      assert Escape(s) + ("\"" + rest) == EscapeChar(s[0]) + more;
      ReadEscapedChar(s[0], more);
      ReadEscaped(s[1..], rest);
      assert [s[0]] + s[1..] == s;
    }
  }

  /** A literal reads back as the string it was written for, and ends where it was ended:
      no content can close it early or swallow what follows. */
  lemma LiteralRoundTrip(s: string, rest: string)
    ensures ReadLiteral(Literal(s) + rest) == Some((s, rest))
  {
    assert (Literal(s) + rest)[1..] == Escape(s) + ("\"" + rest);
    ReadEscaped(s, rest);
  }

  /** A literal holds no line break of JSON or JavaScript, no other control character, and
      nothing that HTML markup starts with. */
  lemma {:induction false} EscapeIsInert(s: string, i: nat)
    requires i < |Escape(s)|
    ensures Inert(Escape(s)[i])
  {
    var n := |EscapeChar(s[0])|;
    if i >= n {
      EscapeIsInert(s[1..], i - n);
    } else {
      EscapedCharIsInert(s[0]);
    }
  }

  lemma EscapedCharIsInert(c: char)
    ensures forall i :: 0 <= i < |EscapeChar(c)| ==> Inert(EscapeChar(c)[i])
  {
    if NeedsCodePoint(c) {
      HexIsInert(Hex4(c as nat));
    }
  }

  lemma HexIsInert(h: string)
    requires forall i :: 0 <= i < |h| ==> IsHex(h[i])
    ensures forall i :: 0 <= i < |h| ==> Inert(h[i])
  {
  }

  /** The form of every escape: seven short ones, */
  lemma ShortForms()
    ensures EscapeChar('\"') == ['\\', '\"'] && EscapeChar('\\') == ['\\', '\\'] && EscapeChar('\n') == ['\\', 'n']
    ensures EscapeChar('\r') == ['\\', 'r'] && EscapeChar('\t') == ['\\', 't']
    ensures EscapeChar('\U{8}') == ['\\', 'b'] && EscapeChar('\U{C}') == ['\\', 'f']
  {
  }

  /** a code point in four lower-case digits for what else cannot stand in a literal, */
  lemma CodePointForms(c: char)
    requires c < ' ' || c in ['<', '>', '&', '\U{2028}', '\U{2029}']
    requires c !in ['\n', '\r', '\t', '\U{8}', '\U{C}']
    ensures var e := EscapeChar(c);
            && |e| == 6 && e[0] == '\\' && e[1] == 'u'
            && (forall i :: 2 <= i < 6 ==> '0' <= e[i] <= '9' || 'a' <= e[i] <= 'f')
            && Hex4Value(e[2..]) == c as int
  {
    var e := EscapeChar(c);
    assert e[2..] == Hex4(c as nat);
    assert forall i :: 2 <= i < 6 ==> e[i] == Hex4(c as nat)[i - 2];
  }

  /** and nothing at all for anything that can. */
  lemma PlainForms(c: char)
    requires c >= ' ' && c !in ['\"', '\\', '<', '>', '&', '\U{2028}', '\U{2029}']
    ensures EscapeChar(c) == [c]
  {
  }

  /** Text without anything to escape is its own literal. */
  lemma {:induction false} PlainLiteral(s: string)
    requires forall i :: 0 <= i < |s| ==> Inert(s[i]) && s[i] != '\"' && s[i] != '\\'
    ensures Escape(s) == s
  {
    if s == "" {
    } else {
      PlainLiteral(s[1..]);
      assert [s[0]] + s[1..] == s;
    }
  }
}
