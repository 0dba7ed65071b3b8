/** JSON embedded in an inline script. Texts are sequences of UTF-16 code units. */
module ScriptJson {
  import opened Common
  import opened Escapers

  type Unit = x: int | 0 <= x < 0x10000
  type Text = seq<Unit>

  const QUOTE: Unit := 0x22
  const BACKSLASH: Unit := 0x5c
  const AMP: Unit := 0x26
  const LT: Unit := 0x3c
  const GT: Unit := 0x3e
  const LS: Unit := 0x2028
  const PS: Unit := 0x2029

  function Hex(n: int): Unit
    requires 0 <= n < 16
  {
    if n < 10 then 0x30 + n else 0x57 + n
  }

  /** `\uXXXX`, lower-case. */
  function Escape(c: Unit): Text {
    [BACKSLASH, 0x75, Hex(c / 0x1000), Hex(c / 0x100 % 0x10), Hex(c / 0x10 % 0x10), Hex(c % 0x10)]
  }

  /** The five passes, applied to the text that JSON.stringify gives. */
  function SafeJson(json: Text): Text {
    Replace(Replace(Replace(Replace(Replace(json,
      LT, [BACKSLASH, 0x75, 0x30, 0x30, 0x33, 0x63]),
      GT, [BACKSLASH, 0x75, 0x30, 0x30, 0x33, 0x65]),
      AMP, [BACKSLASH, 0x75, 0x30, 0x30, 0x32, 0x36]),
      LS, [BACKSLASH, 0x75, 0x32, 0x30, 0x32, 0x38]),
      PS, [BACKSLASH, 0x75, 0x32, 0x30, 0x32, 0x39])
  }

  predicate Special(c: Unit) {
    c == LT || c == GT || c == AMP || c == LS || c == PS
  }

  /** The units escaped after `n` of the five passes. */
  predicate SpecialBy(c: Unit, n: nat) {
    (c == LT && n >= 1) || (c == GT && n >= 2) || (c == AMP && n >= 3) || (c == LS && n >= 4) || (c == PS && n >= 5)
  }

  function Spelling(n: nat): Unit -> Text {
    c => if SpecialBy(c, n) then Escape(c) else [c]
  }

  function Safely(c: Unit): Text {
    if Special(c) then Escape(c) else [c]
  }

  lemma EscapeIsPlain(c: Unit)
    ensures forall x :: x in Escape(c) ==> !Special(x)
  {
  }

  lemma Pass(s: Text, n: nat, c: Unit, text: Text)
    requires n < 5 && c == [LT, GT, AMP, LS, PS][n] && text == Escape(c)
    ensures Replace(Spell(s, Spelling(n)), c, text) == Spell(s, Spelling(n + 1))
  {
    forall x: Unit ensures Replace(Spelling(n)(x), c, text) == Spelling(n + 1)(x) {
      if SpecialBy(x, n) {
        EscapeIsPlain(x);
        ReplaceNothing(Escape(x), c, text);
      } else {
        assert [x][1..] == [];
      }
    }
    ReplaceSpelled(s, Spelling(n), Spelling(n + 1), c, text);
  }

  lemma FiveEscapes()
    ensures Escape(LT) == [BACKSLASH, 0x75, 0x30, 0x30, 0x33, 0x63]
    ensures Escape(GT) == [BACKSLASH, 0x75, 0x30, 0x30, 0x33, 0x65]
    ensures Escape(AMP) == [BACKSLASH, 0x75, 0x30, 0x30, 0x32, 0x36]
    ensures Escape(LS) == [BACKSLASH, 0x75, 0x32, 0x30, 0x32, 0x38]
    ensures Escape(PS) == [BACKSLASH, 0x75, 0x32, 0x30, 0x32, 0x39]
  {
  }

  lemma PassesAre(json: Text)
    ensures Replace(Replace(Replace(Replace(Replace(json, LT, Escape(LT)), GT, Escape(GT)), AMP, Escape(AMP)),
                            LS, Escape(LS)), PS, Escape(PS)) == Spell(json, Spelling(5))
  {
    SpellAsIs(json, Spelling(0));
    Pass(json, 0, LT, Escape(LT));
    Pass(json, 1, GT, Escape(GT));
    Pass(json, 2, AMP, Escape(AMP));
    Pass(json, 3, LS, Escape(LS));
    Pass(json, 4, PS, Escape(PS));
  }

  /** The five passes spell each unit on its own: none of them touches an earlier escape. */
  lemma SafeJsonIs(json: Text)
    ensures SafeJson(json) == Spell(json, Safely)
  {
    FiveEscapes();
    PassesAre(json);
    SpellSame(json, Spelling(5), Safely);
  }

  /** Nothing that can close the script, open a comment or end a line remains. */
  lemma SafeJsonIsInert(json: Text)
    ensures forall c :: c in SafeJson(json) ==> !Special(c)
  {
    SafeJsonIs(json);
    forall c: Unit | Special(c) ensures c !in SafeJson(json) {
      forall x: Unit ensures c !in Safely(x) { EscapeIsPlain(x); }
      SpellAvoids(json, Safely, c);
    }
  }

  // ---- Reading JSON -----------------------------------------------------------------------

  /** A JSON text as what a parser makes of its characters: the strings, decoded, and the
      characters between them. */
  datatype Token = Mark(c: Unit) | Literal(text: Text)

  function HexValue(c: Unit): Option<int> {
    if 0x30 <= c <= 0x39 then Some(c - 0x30)
    else if 0x61 <= c <= 0x66 then Some(c - 0x57)
    else if 0x41 <= c <= 0x46 then Some(c - 0x37)
    else None
  }

  /** The four digits after `\u`. */
  function Hex4(s: Text): Option<Unit>
    requires |s| >= 4
  {
    var a, b, c, d := HexValue(s[0]), HexValue(s[1]), HexValue(s[2]), HexValue(s[3]);
    if a.None? || b.None? || c.None? || d.None? then None
    else Some(((a.value * 0x10 + b.value) * 0x10 + c.value) * 0x10 + d.value)
  }

  /** The two-character escapes of section 7 of RFC 8259. */
  function Short(c: Unit): Option<Unit> {
    if c == QUOTE || c == BACKSLASH || c == 0x2f then Some(c)
    else if c == 0x62 then Some(8)
    else if c == 0x66 then Some(0xc)
    else if c == 0x6e then Some(0xa)
    else if c == 0x72 then Some(0xd)
    else if c == 0x74 then Some(9)
    else None
  }

  /** Outside strings a JSON text has none of the five special units. */
  function Outside(s: Text): Option<seq<Token>>
    decreases |s|
  {
    if s == [] then Some([])
    else if s[0] == QUOTE then Inside(s[1..], [])
    else if Special(s[0]) then None
    else match Outside(s[1..]) case None => None case Some(ts) => Some([Mark(s[0])] + ts)
  }

  /** The rest of a string of which `text` has been read. */
  function Inside(s: Text, text: Text): Option<seq<Token>>
    decreases |s|
  {
    if s == [] || s[0] < 0x20 then None
    else if s[0] == QUOTE then
      match Outside(s[1..]) case None => None case Some(ts) => Some([Literal(text)] + ts)
    else if s[0] != BACKSLASH then Inside(s[1..], text + [s[0]])
    else if |s| < 2 then None
    else if s[1] != 0x75 then
      match Short(s[1]) case None => None case Some(c) => Inside(s[2..], text + [c])
    else if |s| < 6 then None
    else
      match Hex4(s[2..6]) case None => None case Some(c) => Inside(s[6..], text + [c])
  }

  lemma HexOf(n: int)
    requires 0 <= n < 16
    ensures HexValue(Hex(n)) == Some(n)
  {
  }

  lemma Digits(c: Unit)
    ensures c == ((c / 0x1000 * 0x10 + c / 0x100 % 0x10) * 0x10 + c / 0x10 % 0x10) * 0x10 + c % 0x10
  {
    assert c / 0x10 == c / 0x100 * 0x10 + c / 0x10 % 0x10;
    assert c / 0x100 == c / 0x1000 * 0x10 + c / 0x100 % 0x10;
  }

  lemma Hex4Of(c: Unit)
    ensures Hex4(Escape(c)[2..6]) == Some(c)
  {
    var w, x, y, z := c / 0x1000, c / 0x100 % 0x10, c / 0x10 % 0x10, c % 0x10;
    assert Escape(c)[2..6] == [Hex(w), Hex(x), Hex(y), Hex(z)];
    HexOf(w);
    HexOf(x);
    HexOf(y);
    HexOf(z);
    Digits(c);
  }

  lemma EscapeRead(c: Unit, rest: Text, text: Text)
    ensures Inside(Escape(c) + rest, text) == Inside(rest, text + [c])
  {
    var s := Escape(c) + rest;
    assert s[2..6] == Escape(c)[2..6] && s[6..] == rest;
    Hex4Of(c);
  }

  lemma SafelyHead(s: Text)
    requires s != []
    ensures Spell(s, Safely) == Safely(s[0]) + Spell(s[1..], Safely)
    ensures !Special(s[0]) ==> Spell(s, Safely)[0] == s[0] && Spell(s, Safely)[1..] == Spell(s[1..], Safely)
  {
  }

  lemma {:induction false} SafelyPrefix(s: Text, n: nat)
    requires n <= |s| && forall i :: 0 <= i < n ==> !Special(s[i])
    ensures |Spell(s, Safely)| >= n && Spell(s, Safely)[..n] == s[..n]
    ensures Spell(s, Safely)[n..] == Spell(s[n..], Safely)
  {
    if n == 0 {
      assert s[0..] == s;
    } else {
      SafelyHead(s);
      SafelyPrefix(s[1..], n - 1);
      var t := Spell(s, Safely);
      assert t == [s[0]] + Spell(s[1..], Safely);
      assert s[1..][n - 1..] == s[n..];
      assert t[n..] == t[1..][n - 1..];
      assert t[..n] == [s[0]] + t[1..][..n - 1];
      assert s[..n] == [s[0]] + s[1..][..n - 1];
    }
  }

  lemma HexIsPlain(s: Text)
    requires |s| >= 4 && Hex4(s[..4]).Some?
    ensures forall i :: 0 <= i < 4 ==> !Special(s[i])
  {
    assert s[..4][0] == s[0] && s[..4][1] == s[1] && s[..4][2] == s[2] && s[..4][3] == s[3];
  }

  /** Escaped units only ever stand inside strings, where they are read back as themselves. */
  lemma {:induction false} OutsideKept(s: Text)
    requires Outside(s).Some?
    ensures Outside(Spell(s, Safely)) == Outside(s)
    decreases |s|
  {
    if s != [] {
      SafelyHead(s);
      if s[0] == QUOTE { InsideKept(s[1..], []); } else { OutsideKept(s[1..]); }
    }
  }

  lemma {:induction false} InsideKept(s: Text, text: Text)
    requires Inside(s, text).Some?
    ensures Inside(Spell(s, Safely), text) == Inside(s, text)
    decreases |s|
  {
    SafelyHead(s);
    if s[0] == QUOTE {
      OutsideKept(s[1..]);
    } else if s[0] != BACKSLASH {
      InsideKept(s[1..], text + [s[0]]);
      if Special(s[0]) { EscapeRead(s[0], Spell(s[1..], Safely), text); }
    } else if s[1] != 0x75 {
      var c := Short(s[1]).value;
      SafelyPrefix(s, 2);
      InsideKept(s[2..], text + [c]);
      ShortRead(Spell(s, Safely), text);
    } else {
      InsideKept(s[6..], text + [Hex4(s[2..6]).value]);
      EscapeKept(s, text);
    }
  }

  lemma ShortRead(s: Text, text: Text)
    requires |s| >= 2 && s[..2][0] == BACKSLASH && s[..2][1] != 0x75 && Short(s[..2][1]).Some?
    ensures Inside(s, text) == Inside(s[2..], text + [Short(s[..2][1]).value])
  {
  }

  lemma EscapeKept(s: Text, text: Text)
    requires |s| >= 6 && s[0] == BACKSLASH && s[1] == 0x75 && Hex4(s[2..6]).Some?
    ensures Inside(Spell(s, Safely), text) == Inside(Spell(s[6..], Safely), text + [Hex4(s[2..6]).value])
  {
    var t := Spell(s, Safely);
    assert s[2..][..4] == s[2..6];
    HexIsPlain(s[2..]);
    forall i | 0 <= i < 6 ensures !Special(s[i]) { if i >= 2 { assert s[2..][i - 2] == s[i]; } }
    SafelyPrefix(s, 6);
    assert t[..6] == s[..6];
    assert t[2..6] == t[..6][2..6] && s[2..6] == s[..6][2..6];
    assert t[0] == t[..6][0] && t[1] == t[..6][1];
  }

  /** Whatever JSON text is embedded, the strings it holds are read back unchanged, after
      backslashes too, and so is everything between them. */
  lemma SafeJsonKeepsMeaning(json: Text)
    requires Outside(json).Some?
    ensures Outside(SafeJson(json)) == Outside(json)
  {
    SafeJsonIs(json);
    OutsideKept(json);
  }

  // ---- Writing a string -------------------------------------------------------------------

  predicate HighSurrogate(c: Unit) { 0xd800 <= c < 0xdc00 }
  predicate LowSurrogate(c: Unit) { 0xdc00 <= c < 0xe000 }

  predicate Alone(s: Text, i: nat)
    requires i < |s|
  {
    || (HighSurrogate(s[i]) && !(i + 1 < |s| && LowSurrogate(s[i + 1])))
    || (LowSurrogate(s[i]) && !(i > 0 && HighSurrogate(s[i - 1])))
  }

  /** How JSON.stringify writes one unit of a string. */
  function WrittenUnit(s: Text, i: nat): Text
    requires i < |s|
  {
    var c := s[i];
    if c == 8 then [BACKSLASH, 0x62]
    else if c == 9 then [BACKSLASH, 0x74]
    else if c == 0xa then [BACKSLASH, 0x6e]
    else if c == 0xc then [BACKSLASH, 0x66]
    else if c == 0xd then [BACKSLASH, 0x72]
    else if c == QUOTE || c == BACKSLASH then [BACKSLASH, c]
    else if c < 0x20 || Alone(s, i) then Escape(c)
    else [c]
  }

  function WrittenFrom(s: Text, i: nat): Text
    requires i <= |s|
    decreases |s| - i
  {
    if i == |s| then [QUOTE] else WrittenUnit(s, i) + WrittenFrom(s, i + 1)
  }

  function Stringify(s: Text): Text {
    [QUOTE] + WrittenFrom(s, 0)
  }

  lemma UnitRead(s: Text, i: nat, rest: Text, text: Text)
    requires i < |s|
    ensures Inside(WrittenUnit(s, i) + rest, text) == Inside(rest, text + [s[i]])
  {
    var w := WrittenUnit(s, i);
    if w == Escape(s[i]) {
      EscapeRead(s[i], rest, text);
    } else {
      assert (w + rest)[|w|..] == rest;
      assert (w + rest)[0] == w[0] && (|w| == 2 ==> (w + rest)[1] == w[1]);
    }
  }

  lemma {:induction false} WrittenRead(s: Text, i: nat, text: Text)
    requires i <= |s|
    ensures Inside(WrittenFrom(s, i), text) == Some([Literal(text + s[i..])])
    decreases |s| - i
  {
    if i == |s| {
      var w := WrittenFrom(s, i);
      assert w == [QUOTE] && w[1..] == [] && s[i..] == [];
      assert text + s[i..] == text;
      assert [Literal(text)] + [] == [Literal(text + s[i..])];
    } else {
      UnitRead(s, i, WrittenFrom(s, i + 1), text);
      WrittenRead(s, i + 1, text + [s[i]]);
      assert text + [s[i]] + s[i + 1..] == text + s[i..];
    }
  }

  /** Any string at all, written and then made safe, is read back as it was. */
  lemma SafeStringRoundTrip(s: Text)
    ensures Outside(SafeJson(Stringify(s))) == Some([Literal(s)])
  {
    WrittenRead(s, 0, []);
    assert [] + s[0..] == s;
    assert Stringify(s)[1..] == WrittenFrom(s, 0);
    SafeJsonKeepsMeaning(Stringify(s));
  }
}
