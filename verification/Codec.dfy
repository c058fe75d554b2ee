/** The client messages: their grammar, the validity check of a whole buffer, and the
    leftmost-match scanners that take a buffer apart. */
module Codec {
  import opened MoveText

  // ----- The grammar

  datatype CharClass = WordChar | DigitChar | ChatChar

  predicate IsLetterOrDigit(c: char) {
    'a' <= c <= 'z' || 'A' <= c <= 'Z' || IsDigit(c)
  }

  predicate IsSpace(c: char) {
    c == ' ' || c == '\t' || c == '\n' || c == '\r' || c as int == 11 || c as int == 12
  }

  predicate InClass(c: char, k: CharClass) {
    match k
    case WordChar => IsLetterOrDigit(c) || c == '_'
    case DigitChar => IsDigit(c)
    case ChatChar => IsLetterOrDigit(c) || IsSpace(c) || c == '.' || c == '!' || c == '?'
  }

  predicate AllIn(s: string, k: CharClass) {
    forall i :: 0 <= i < |s| ==> InClass(s[i], k)
  }

  /** One alternative of the message grammar: a fixed word, or a keyword followed by
      `lo` to `hi` characters of one class. */
  datatype Alternative = Literal(word: string) | Tagged(tag: string, chars: CharClass, lo: nat, hi: nat)

  /** The alternatives, in the order in which the scanner tries them. */
  const ALTERNATIVES: seq<Alternative> :=
    [Literal("<"), Literal(">"), Tagged("c:", WordChar, 3, 20), Literal("rd"),
     Tagged("m:", DigitChar, 8, 8), Literal("l"), Literal("ok"), Tagged("ch:", ChatChar, 1, 100)]

  predicate Fits(w: string, a: Alternative) {
    match a
    case Literal(word) => w == word
    case Tagged(tag, chars, lo, hi) => tag <= w && lo <= |w| - |tag| <= hi && AllIn(w[|tag|..], chars)
  }

  /** One message, without its brackets. */
  predicate IsItem(w: string) {
    exists a :: a in ALTERNATIVES && Fits(w, a)
  }

  predicate AllItems(ws: seq<string>) {
    forall i :: 0 <= i < |ws| ==> IsItem(ws[i])
  }

  /** Messages as they travel: each in brackets, one after the other. */
  function Print(ws: seq<string>): string {
    if ws == [] then "" else "{" + ws[0] + "}" + Print(ws[1..])
  }

  // ----- The validity check

  function IndexOf(s: string, c: char): (i: nat)
    ensures i <= |s| && (i < |s| ==> s[i] == c) && c !in s[..i]
  {
    if s == "" || s[0] == c then 0 else 1 + IndexOf(s[1..], c)
  }

  lemma {:induction false} IndexIs(s: string, c: char, n: nat)
    requires n < |s| && s[n] == c && forall i :: 0 <= i < n ==> s[i] != c
    ensures IndexOf(s, c) == n
  {
    if n > 0 {
      IndexIs(s[1..], c, n - 1);
    }
  }

  /** The whole buffer is one or more bracketed messages. */
  predicate IsValidFormat(s: string)
    decreases |s|
  {
    var end := IndexOf(s, '}');
    && end < |s| && s[0] == '{' && IsItem(s[1..end])
    && (end + 1 == |s| || IsValidFormat(s[end + 1..]))
  }

  // ----- The scanners

  datatype Option<T> = None | Some(value: T)

  /** How far a greedy repetition of at most `max` characters of a class reaches. */
  function Reach(s: string, k: CharClass, max: nat): (n: nat)
    ensures n <= |s| && n <= max && AllIn(s[..n], k)
    ensures n < max && n < |s| ==> !InClass(s[n], k)
  {
    if s == "" || max == 0 || !InClass(s[0], k) then 0
    else
      var n := 1 + Reach(s[1..], k, max - 1);
      assert s[..n] == [s[0]] + s[1..][..n - 1];
      n
  }

  /** The length of the match of one alternative at the start of `s`. */
  function MatchOne(s: string, a: Alternative): (r: Option<nat>)
    ensures r.Some? ==> 0 <= r.value <= |s|
  {
    match a
    case Literal(word) => if word <= s then Some(|word|) else None
    case Tagged(tag, chars, lo, hi) =>
      if tag <= s && Reach(s[|tag|..], chars, hi) >= lo then Some(|tag| + Reach(s[|tag|..], chars, hi)) else None
  }

  /** The first alternative that matches decides. */
  function MatchFirst(s: string, alts: seq<Alternative>): (r: Option<nat>)
    ensures r.Some? ==> 0 <= r.value <= |s|
  {
    if alts == [] then None
    else if MatchOne(s, alts[0]).Some? then MatchOne(s, alts[0])
    else MatchFirst(s, alts[1..])
  }

  lemma {:induction false} MatchFirstExactly(s: string, alts: seq<Alternative>, n: nat)
    requires forall a :: a in alts ==> MatchOne(s, a) == None || MatchOne(s, a) == Some(n)
    ensures MatchFirst(s, alts) == if exists a :: a in alts && MatchOne(s, a) == Some(n) then Some(n) else None
  {
    if alts != [] {
      MatchFirstExactly(s, alts[1..], n);
      assert forall a :: a in alts <==> a == alts[0] || a in alts[1..];
    }
  }

  lemma {:induction false} MatchFirstIsOne(s: string, alts: seq<Alternative>)
    ensures MatchFirst(s, alts).Some? ==> exists a :: a in alts && MatchFirst(s, alts) == MatchOne(s, a)
  {
    if alts != [] {
      MatchFirstIsOne(s, alts[1..]);
    }
  }

  lemma MatchNotEmpty(s: string)
    ensures MatchFirst(s, ALTERNATIVES) != Some(0)
  {
    MatchFirstIsOne(s, ALTERNATIVES);
  }

  datatype Match = NoMatch | Match(start: nat, length: nat)

  /** The match at the first position at which a message matches. */
  function Search(s: string): (r: Match)
    ensures r.Match? ==> 0 < r.length && r.start + r.length <= |s|
  {
    if s == "" then NoMatch
    else
      match MatchFirst(s, ALTERNATIVES)
      case Some(n) => MatchNotEmpty(s); Match(0, n)
      case None => Later(Search(s[1..]))
  }

  function Later(m: Match): Match {
    if m.Match? then Match(m.start + 1, m.length) else NoMatch
  }

  function Found(s: string, m: Match): string
    requires m.Match? && m.start + m.length <= |s|
  {
    s[m.start..m.start + m.length]
  }

  function Suffix(s: string, m: Match): string
    requires m.Match? && m.start + m.length <= |s|
  {
    s[m.start + m.length..]
  }

  /** All matches from left to right, each search starting where the last match ended. */
  function Items(s: string): seq<string>
    decreases |s|
  {
    var m := Search(s);
    if m.NoMatch? then [] else [Found(s, m)] + Items(Suffix(s, m))
  }

  method ParseMsg(buffer: string) returns (data: seq<string>)
    ensures data == Items(buffer)
  {
    var msg := buffer;
    data := [];
    var m := Search(msg);
    while m.Match?
      invariant m == Search(msg)
      invariant Items(buffer) == data + Items(msg)
      decreases |msg|
    {
      assert Items(msg) == [Found(msg, m)] + Items(Suffix(msg, m));
      data := data + [Found(msg, m)];
      msg := Suffix(msg, m);
      m := Search(msg);
    }
  }

  /** The maximal runs without a colon. */
  function Tokens(s: string): seq<string>
    decreases |s|
  {
    if s == "" then []
    else if s[0] == ':' then Tokens(s[1..])
    else [s[..IndexOf(s, ':')]] + Tokens(s[IndexOf(s, ':')..])
  }

  /** Splitting in the way the server does it: each search finds the next run. */
  method KeyValues(item: string) returns (q: seq<string>)
    ensures q == Tokens(item)
  {
    var rest := item;
    q := [];
    while rest != ""
      invariant Tokens(item) == q + Tokens(rest)
      decreases |rest|
    {
      if rest[0] == ':' {
        rest := rest[1..];
      } else {
        var end := IndexOf(rest, ':');
        assert Tokens(rest) == [rest[..end]] + Tokens(rest[end..]);
        q := q + [rest[..end]];
        rest := rest[end..];
      }
    }
  }

  // ----- Printing and parsing are inverse

  lemma {:induction false} ReachStops(s: string, rest: string, k: CharClass, max: nat)
    requires AllIn(s, k) && |s| <= max
    ensures Reach(s + "}" + rest, k, max) == |s|
  {
    var t := s + "}" + rest;
    if s != "" {
      assert t[1..] == s[1..] + "}" + rest;
      ReachStops(s[1..], rest, k, max - 1);
    }
  }

  lemma FittingMatches(w: string, rest: string, a: Alternative)
    requires Fits(w, a) && a in ALTERNATIVES
    ensures MatchOne(w + "}" + rest, a) == Some(|w|)
  {
    var s := w + "}" + rest;
    assert w <= s;
    if a.Tagged? {
      assert s[|a.tag|..] == w[|a.tag|..] + "}" + rest;
      ReachStops(w[|a.tag|..], rest, a.chars, a.hi);
    }
  }

  function Head(a: Alternative): string {
    if a.Literal? then a.word else a.tag
  }

  lemma AlternativeCases(a: Alternative)
    requires a in ALTERNATIVES
    ensures a == Literal("<") || a == Literal(">") || a == Tagged("c:", WordChar, 3, 20) || a == Literal("rd")
      || a == Tagged("m:", DigitChar, 8, 8) || a == Literal("l") || a == Literal("ok") || a == Tagged("ch:", ChatChar, 1, 100)
    ensures |Head(a)| >= 1 && '}' !in Head(a) && '{' !in Head(a)
    ensures a.Tagged? ==> 2 <= |a.tag| <= 3 && a.tag[|a.tag| - 1] == ':' && ':' !in a.tag[..|a.tag| - 1]
    ensures a.Tagged? ==> a.lo >= 1
  {
  }

  /** The alternatives exclude one another: no two can start at the same place. */
  lemma AlternativesDisjoint(s: string, a: Alternative, b: Alternative)
    requires a in ALTERNATIVES && b in ALTERNATIVES && MatchOne(s, a).Some? && MatchOne(s, b).Some?
    ensures a == b
  {
    AlternativeCases(a);
    AlternativeCases(b);
    assert Head(a) <= s && Head(b) <= s;
    assert Head(a)[0] == s[0] == Head(b)[0];
    assert |Head(a)| > 1 ==> Head(a)[1] == s[1];
    assert |Head(b)| > 1 ==> Head(b)[1] == s[1];
  }

  /** A message followed by its closing bracket is matched exactly up to the bracket. */
  lemma ItemMatches(w: string, rest: string)
    requires IsItem(w)
    ensures Search(w + "}" + rest) == Match(0, |w|)
  {
    var s := w + "}" + rest;
    var a :| a in ALTERNATIVES && Fits(w, a);
    FittingMatches(w, rest, a);
    forall b | b in ALTERNATIVES ensures MatchOne(s, b) == None || MatchOne(s, b) == Some(|w|) {
      if MatchOne(s, b).Some? { AlternativesDisjoint(s, a, b); }
    }
    MatchFirstExactly(s, ALTERNATIVES, |w|);
  }

  lemma NoMatchAtBracket(s: string)
    requires s != "" && (s[0] == '{' || s[0] == '}')
    ensures MatchFirst(s, ALTERNATIVES) == None
  {
    MatchFirstIsOne(s, ALTERNATIVES);
  }

  lemma SearchSkips(s: string)
    requires s != "" && (s[0] == '{' || s[0] == '}')
    ensures Search(s) == Later(Search(s[1..]))
  {
    NoMatchAtBracket(s);
    hide MatchFirst;
  }

  lemma SkipBracket(s: string)
    requires s != "" && (s[0] == '{' || s[0] == '}')
    ensures Items(s) == Items(s[1..])
  {
    var t := s[1..];
    var m := Search(t);
    SearchSkips(s);
    ItemsOf(s);
    ItemsOf(t);
    if m.Match? { FoundLater(s, m); }
    hide Items, Search, Found, Suffix;
  }

  lemma ItemsOf(s: string)
    ensures var m := Search(s); Items(s) == if m.NoMatch? then [] else [Found(s, m)] + Items(Suffix(s, m))
  {
    hide Search, Found, Suffix;
  }

  lemma FoundLater(s: string, m: Match)
    requires s != "" && m.Match? && m.start + m.length <= |s| - 1
    ensures Found(s, Later(m)) == Found(s[1..], m) && Suffix(s, Later(m)) == Suffix(s[1..], m)
  {
    var i, j := m.start, m.start + m.length;
    assert s[i + 1..j + 1] == s[1..][i..j] && s[j + 1..] == s[1..][j..];
  }

  lemma ItemsAfter(t: string, w: string, rest: string)
    requires t == w + rest && Search(t) == Match(0, |w|)
    ensures Items(t) == [w] + Items(rest)
  {
    assert Found(t, Search(t)) == w && Suffix(t, Search(t)) == rest;
  }

  lemma SkipBefore(c: char, t: string)
    requires c == '{' || c == '}'
    ensures Items([c] + t) == Items(t)
  {
    assert ([c] + t)[1..] == t;
    SkipBracket([c] + t);
  }

  lemma FirstItem(w: string, rest: string)
    requires IsItem(w)
    ensures Items("{" + w + "}" + rest) == [w] + Items(rest)
  {
    var close := ['}'] + rest;
    var t := w + close;
    ItemMatches(w, rest);
    assert t == w + "}" + rest;
    assert ['{'] + t == "{" + w + "}" + rest;
    hide Items, Search, IsItem;
    ItemsAfter(t, w, close);
    SkipBefore('}', rest);
    SkipBefore('{', t);
  }

  /** Parsing the print of any list of messages gives the list back. */
  lemma {:induction false} ParsePrint(ws: seq<string>)
    requires AllItems(ws)
    ensures Items(Print(ws)) == ws
  {
    if ws != [] {
      FirstItem(ws[0], Print(ws[1..]));
      ParsePrint(ws[1..]);
    }
  }

  lemma ItemsHaveNoBrackets(w: string)
    requires IsItem(w)
    ensures '}' !in w && '{' !in w && w != ""
  {
    var a :| a in ALTERNATIVES && Fits(w, a);
    AlternativeCases(a);
    if a.Tagged? {
      NoBracketsIn(w[|a.tag|..], a.chars);
      assert w == a.tag + w[|a.tag|..];
    }
  }

  lemma NoBracketsIn(s: string, k: CharClass)
    requires AllIn(s, k)
    ensures '}' !in s && '{' !in s
  {
  }

  /** A valid buffer is given back by printing what is parsed from it. */
  lemma {:induction false} PrintParse(s: string)
    requires IsValidFormat(s)
    ensures Items(s) != [] && AllItems(Items(s)) && Print(Items(s)) == s
    decreases |s|
  {
    var end := IndexOf(s, '}');
    var w, rest := s[1..end], s[end + 1..];
    assert s == "{" + w + "}" + rest;
    FirstItem(w, rest);
    assert Items(s)[1..] == Items(rest);
    if rest != "" {
      PrintParse(rest);
    } else {
      assert Items(rest) == [];
    }
  }

  lemma {:induction false} PrintIsValid(ws: seq<string>)
    requires AllItems(ws) && ws != []
    ensures IsValidFormat(Print(ws))
  {
    var w, rest := ws[0], Print(ws[1..]);
    var s := Print(ws);
    ItemsHaveNoBrackets(w);
    var end := IndexOf(s, '}');
    forall i | 0 <= i < |w| + 1 ensures s[i] != '}' {
      assert s[i] == ("{" + w)[i];
    }
    IndexIs(s, '}', |w| + 1);
    assert s[1..end] == w && s[end + 1..] == rest;
    if ws[1..] != [] {
      PrintIsValid(ws[1..]);
    }
  }

  /** The check accepts exactly the prints of non-empty lists of messages. */
  lemma ValidExactly(s: string)
    ensures IsValidFormat(s) <==> exists ws :: ws != [] && AllItems(ws) && s == Print(ws)
  {
    if IsValidFormat(s) {
      PrintParse(s);
    }
    if ws :| ws != [] && AllItems(ws) && s == Print(ws) {
      PrintIsValid(ws);
    }
  }

  // ----- Keys and values

  predicate TakesValue(key: string) {
    key == "c" || key == "m" || key == "ch"
  }

  lemma TokensOfWord(s: string)
    requires s != "" && ':' !in s
    ensures Tokens(s) == [s]
  {
    assert IndexOf(s, ':') == |s|;
    assert s[..|s|] == s && s[|s|..] == "";
  }

  lemma TokensAfterColon(value: string)
    requires value != "" && ':' !in value
    ensures Tokens([':'] + value) == [value]
  {
    assert ([':'] + value)[1..] == value;
    TokensOfWord(value);
  }

  lemma TokensOfPair(key: string, value: string)
    requires key != "" && value != "" && ':' !in key && ':' !in value
    ensures Tokens(key + ":" + value) == [key, value]
  {
    var s := key + ":" + value;
    assert s[..|key|] == key && s[|key|..] == [':'] + value;
    assert forall i :: 0 <= i < |key| ==> s[i] == key[i];
    IndexIs(s, ':', |key|);
    TokensAfterColon(value);
    hide IndexOf;
  }

  lemma NoColon(s: string, k: CharClass)
    requires AllIn(s, k)
    ensures ':' !in s
  {
  }

  lemma TaggedTokens(w: string, a: Alternative)
    requires a.Tagged? && Fits(w, a) && a.lo >= 1
    requires |a.tag| >= 2 && a.tag[|a.tag| - 1] == ':' && ':' !in a.tag[..|a.tag| - 1]
    ensures Tokens(w) == [a.tag[..|a.tag| - 1], w[|a.tag|..]]
    ensures w == a.tag[..|a.tag| - 1] + ":" + w[|a.tag|..]
  {
    var key, value := a.tag[..|a.tag| - 1], w[|a.tag|..];
    NoColon(value, a.chars);
    assert a.tag == key + ":" && w == a.tag + value;
    TokensOfPair(key, value);
  }

  lemma TaggedFits(w: string, a: Alternative)
    requires a in ALTERNATIVES && a.Tagged? && Fits(w, a)
    ensures TakesValue(a.tag[..|a.tag| - 1]) && ValueFits(a.tag[..|a.tag| - 1], w[|a.tag|..])
  {
    AlternativeCases(a);
    var key := a.tag[..|a.tag| - 1];
    assert key[0] == a.tag[0] && a.tag == key + ":";
    if key[0] == 'm' {
      assert a == Tagged("m:", DigitChar, 8, 8);
      DigitsOnly(w[|a.tag|..]);
    }
  }

  lemma LiteralTokens(w: string)
    requires Literal(w) in ALTERNATIVES
    ensures Tokens(w) == [w] && !TakesValue(w)
  {
    AlternativeCases(Literal(w));
    TokensOfWord(w);
  }

  /** A message splits into its key alone, or into a key that takes a value and that value. */
  lemma KeysAndValues(w: string)
    requires IsItem(w)
    ensures SplitsWell(w, Tokens(w))
  {
    var a :| a in ALTERNATIVES && Fits(w, a);
    if a.Tagged? {
      AlternativeCases(a);
      TaggedTokens(w, a);
      TaggedFits(w, a);
    } else {
      LiteralTokens(w);
    }
  }

  predicate SplitsWell(w: string, q: seq<string>) {
    || (q == [w] && !TakesValue(w))
    || (|q| == 2 && TakesValue(q[0]) && w == q[0] + ":" + q[1] && ValueFits(q[0], q[1]))
  }

  /** The shape the grammar promises for the value of each key. */
  predicate ValueFits(key: string, value: string) {
    && (key == "c" ==> 3 <= |value| <= 20 && AllIn(value, WordChar))
    && (key == "m" ==> IsMoveText(value))
    && (key == "ch" ==> 1 <= |value| <= 100 && AllIn(value, ChatChar))
  }

  lemma DigitsOnly(s: string)
    ensures AllIn(s, DigitChar) <==> AllDigits(s)
  {
    assert forall i :: 0 <= i < |s| ==> (InClass(s[i], DigitChar) <==> IsDigit(s[i]));
  }
}
