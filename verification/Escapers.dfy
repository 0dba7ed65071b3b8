/** The two escapers of the edge worker's pages. */
module Escapers {

  // ---- Global replacement -----------------------------------------------------------------

  /** `s.replace(/c/g, by)`. */
  function Replace<T(==)>(s: seq<T>, c: T, text: seq<T>): seq<T> {
    if s == [] then [] else (if s[0] == c then text else [s[0]]) + Replace(s[1..], c, text)
  }

  /** A single pass that spells each element on its own. */
  function Spell<T>(s: seq<T>, f: T -> seq<T>): seq<T> {
    if s == [] then [] else f(s[0]) + Spell(s[1..], f)
  }

  lemma {:induction false} ReplaceConcat<T>(a: seq<T>, b: seq<T>, c: T, text: seq<T>)
    ensures Replace(a + b, c, text) == Replace(a, c, text) + Replace(b, c, text)
  {
    if a == [] {
      assert a + b == b;
    } else {
      assert (a + b)[1..] == a[1..] + b;
      ReplaceConcat(a[1..], b, c, text);
    }
  }

  lemma {:induction false} SpellConcat<T>(a: seq<T>, b: seq<T>, f: T -> seq<T>)
    ensures Spell(a + b, f) == Spell(a, f) + Spell(b, f)
  {
    if a == [] {
      assert a + b == b;
    } else {
      assert (a + b)[1..] == a[1..] + b;
      SpellConcat(a[1..], b, f);
    }
  }

  /** A pass after a spelling is one spelling, if it acts so on each element's spelling. */
  lemma {:induction false} ReplaceSpelled<T>(s: seq<T>, f: T -> seq<T>, g: T -> seq<T>, c: T, text: seq<T>)
    requires forall x :: Replace(f(x), c, text) == g(x)
    ensures Replace(Spell(s, f), c, text) == Spell(s, g)
  {
    if s != [] {
      ReplaceSpelled(s[1..], f, g, c, text);
      ReplaceConcat(f(s[0]), Spell(s[1..], f), c, text);
    }
  }

  lemma {:induction false} SpellAsIs<T>(s: seq<T>, f: T -> seq<T>)
    requires forall x :: x in s ==> f(x) == [x]
    ensures Spell(s, f) == s
  {
    if s != [] { SpellAsIs(s[1..], f); }
  }

  lemma {:induction false} SpellAvoids<T>(s: seq<T>, f: T -> seq<T>, c: T)
    requires forall x :: c !in f(x)
    ensures c !in Spell(s, f)
  {
    if s != [] { SpellAvoids(s[1..], f, c); }
  }

  /** A replaced element that occurs in no replacement is gone. */
  lemma {:induction false} ReplaceGone<T>(s: seq<T>, c: T, text: seq<T>)
    requires c !in text
    ensures c !in Replace(s, c, text)
  {
    if s != [] { ReplaceGone(s[1..], c, text); }
  }

  // ---- escapeHtml -------------------------------------------------------------------------

  function EscapeHtml(s: string): string {
    Replace(Replace(Replace(Replace(Replace(s,
      '&', "&amp;"), '<', "&lt;"), '>', "&gt;"), '"', "&quot;"), '\'', "&#039;")
  }

  function Entity(c: char): string {
    match c
    case '&' => "&amp;"
    case '<' => "&lt;"
    case '>' => "&gt;"
    case '"' => "&quot;"
    case '\'' => "&#039;"
    case _ => [c]
  }

  /** The entities introduced after `n` of the five passes. */
  function Entities(n: nat): char -> string {
    c => if (c == '&' && n >= 1) || (c == '<' && n >= 2) || (c == '>' && n >= 3)
            || (c == '"' && n >= 4) || (c == '\'' && n >= 5) then Entity(c) else [c]
  }

  lemma ReplaceOne(x: char, c: char, text: string)
    ensures Replace([x], c, text) == if x == c then text else [x]
  {
    assert [x][1..] == [];
  }

  lemma {:induction false} ReplaceNothing<T>(s: seq<T>, c: T, text: seq<T>)
    requires c !in s
    ensures Replace(s, c, text) == s
  {
    if s != [] { ReplaceNothing(s[1..], c, text); }
  }

  lemma Pass(s: string, n: nat, c: char, text: string)
    requires n < 5 && c == ['&', '<', '>', '"', '\''][n] && text == Entity(c)
    ensures Replace(Spell(s, Entities(n)), c, text) == Spell(s, Entities(n + 1))
  {
    forall x ensures Replace(Entities(n)(x), c, text) == Entities(n + 1)(x) {
      ReplaceOne(x, c, text);
      if Entities(n)(x) != [x] { ReplaceNothing(Entities(n)(x), c, text); }
    }
    ReplaceSpelled(s, Entities(n), Entities(n + 1), c, text);
  }

  lemma {:induction false} SpellSame<T>(s: seq<T>, f: T -> seq<T>, g: T -> seq<T>)
    requires forall x :: f(x) == g(x)
    ensures Spell(s, f) == Spell(s, g)
  {
    if s != [] { SpellSame(s[1..], f, g); }
  }

  lemma AllPasses(s: string)
    ensures EscapeHtml(s) == Spell(s, Entities(5))
  {
    SpellAsIs(s, Entities(0));
    Pass(s, 0, '&', "&amp;");
    Pass(s, 1, '<', "&lt;");
    Pass(s, 2, '>', "&gt;");
    Pass(s, 3, '"', "&quot;");
    Pass(s, 4, '\'', "&#039;");
  }

  /** The five sequential passes are one pass over the characters: no pass touches what an
      earlier one wrote. */
  lemma FivePassesAreOne(s: string)
    ensures EscapeHtml(s) == Spell(s, Entity)
  {
    AllPasses(s);
    forall c: char ensures Entities(5)(c) == Entity(c) { }
    SpellSame(s, Entities(5), Entity);
  }

  predicate Begins(s: string, prefix: string) {
    |prefix| <= |s| && s[..|prefix|] == prefix
  }

  /** What a browser reads back from the five entities. */
  function Unescape(s: string): string {
    if s == "" then ""
    else if Begins(s, "&amp;") then ['&'] + Unescape(s[5..])
    else if Begins(s, "&lt;") then ['<'] + Unescape(s[4..])
    else if Begins(s, "&gt;") then ['>'] + Unescape(s[4..])
    else if Begins(s, "&quot;") then ['"'] + Unescape(s[6..])
    else if Begins(s, "&#039;") then ['\''] + Unescape(s[6..])
    else [s[0]] + Unescape(s[1..])
  }

  lemma Prefixed(prefix: string, rest: string)
    ensures Begins(prefix + rest, prefix) && (prefix + rest)[|prefix|..] == rest
  {
  }

  lemma BeginsDiffer(s: string, a: string, b: string, i: nat)
    requires Begins(s, a) && i < |a| && i < |b| && a[i] != b[i]
    ensures !Begins(s, b)
  {
    assert s[i] == s[..|a|][i];
    if |b| <= |s| { assert s[..|b|][i] == s[i]; }
  }

  lemma UnescapeEntity(c: char, rest: string)
    ensures Unescape(Entity(c) + rest) == [c] + Unescape(rest)
  {
    var s := Entity(c) + rest;
    Prefixed(Entity(c), rest);
    match c
    case '&' =>
    case '<' => BeginsDiffer(s, "&lt;", "&amp;", 1);
    case '>' => BeginsDiffer(s, "&gt;", "&amp;", 1); BeginsDiffer(s, "&gt;", "&lt;", 1);
    case '"' =>
      BeginsDiffer(s, "&quot;", "&amp;", 1); BeginsDiffer(s, "&quot;", "&lt;", 1); BeginsDiffer(s, "&quot;", "&gt;", 1);
    case '\'' =>
      BeginsDiffer(s, "&#039;", "&amp;", 1); BeginsDiffer(s, "&#039;", "&lt;", 1);
      BeginsDiffer(s, "&#039;", "&gt;", 1); BeginsDiffer(s, "&#039;", "&quot;", 1);
    case _ => PlainHead(s);
  }

  lemma NoEntity(s: string, prefix: string)
    requires s != "" && s[0] != '&' && prefix != "" && prefix[0] == '&'
    ensures !Begins(s, prefix)
  {
    if |prefix| <= |s| { assert s[..|prefix|][0] == s[0]; }
  }

  lemma PlainHead(s: string)
    requires s != "" && s[0] != '&'
    ensures Unescape(s) == [s[0]] + Unescape(s[1..])
  {
    NoEntity(s, "&amp;");
    NoEntity(s, "&lt;");
    NoEntity(s, "&gt;");
    NoEntity(s, "&quot;");
    NoEntity(s, "&#039;");
  }

  predicate Markup(c: char) {
    c == '<' || c == '>' || c == '"' || c == '\''
  }

  lemma EntityIsInert(c: char, x: char)
    requires Markup(c)
    ensures c !in Entity(x)
  {
  }

  /** Unescaping gives the original text back, and the escaped text has no character that can
      end an attribute or open a tag. */
  lemma HtmlRoundTrip(s: string)
    ensures Unescape(EscapeHtml(s)) == s
    ensures forall c :: c in EscapeHtml(s) ==> !Markup(c)
  {
    FivePassesAreOne(s);
    SpelledBack(s);
    forall c | Markup(c) ensures c !in Spell(s, Entity) {
      forall x ensures c !in Entity(x) { EntityIsInert(c, x); }
      SpellAvoids(s, Entity, c);
    }
  }

  lemma {:induction false} SpelledBack(s: string)
    ensures Unescape(Spell(s, Entity)) == s
  {
    if s != "" {
      SpelledBack(s[1..]);
      UnescapeEntity(s[0], Spell(s[1..], Entity));
    }
  }
}
