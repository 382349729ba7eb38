/** String literals of the Kotlin emitter (packages/shared/scripts/gen-kotlin.ts:195-205), over UTF-16 code
    units, and what a Kotlin lexer reads back from them. */
module KotlinText {
  import opened Lines
  import opened RunSpec

  type CodeUnit = x: int | 0 <= x < 0x10000
  type Text = seq<CodeUnit>

  const TAB: CodeUnit := 9
  const LF: CodeUnit := 10
  const CR: CodeUnit := 13
  const QUOTE: CodeUnit := 34
  const DOLLAR: CodeUnit := 36
  const APOSTROPHE: CodeUnit := 39
  const ZERO: CodeUnit := 48
  const BACKSLASH: CodeUnit := 92

  /** Letters of the escapes. */
  const LETTER_B: CodeUnit := 98
  const LETTER_N: CodeUnit := 110
  const LETTER_R: CodeUnit := 114
  const LETTER_T: CodeUnit := 116
  const LETTER_U: CodeUnit := 117

  /** `s.replace(/c/g, put)`. */
  function ReplaceAll(s: Text, c: CodeUnit, put: Text): Text {
    if s == [] then [] else (if s[0] == c then put else [s[0]]) + ReplaceAll(s[1..], c, put)
  }

  function HexDigit(d: nat): CodeUnit
    requires d < 16
  {
    if d < 10 then ZERO + d else 97 + (d - 10)
  }

  /** `c.toString(16).padStart(4, "0")`. */
  function Hex4(c: CodeUnit): Text {
    [HexDigit(c / 4096), HexDigit(c / 256 % 16), HexDigit(c / 16 % 16), HexDigit(c % 16)]
  }

  function ReplaceControls(s: Text): Text {
    if s == [] then [] else ControlOf(s[0]) + ReplaceControls(s[1..])
  }

  function ControlOf(c: CodeUnit): Text {
    if c < 32 then [BACKSLASH, LETTER_U] + Hex4(c) else [c]
  }

  /** The chain of whole-string replacements, in its order. */
  function Body(s: Text): Text {
    var a := ReplaceAll(s, BACKSLASH, [BACKSLASH, BACKSLASH]);
    var b := ReplaceAll(a, QUOTE, [BACKSLASH, QUOTE]);
    var c := ReplaceAll(b, DOLLAR, [BACKSLASH, DOLLAR]);
    var d := ReplaceAll(c, LF, [BACKSLASH, LETTER_N]);
    var e := ReplaceAll(d, CR, [BACKSLASH, LETTER_R]);
    var f := ReplaceAll(e, TAB, [BACKSLASH, LETTER_T]);
    ReplaceControls(f)
  }

  function KotlinString(s: Text): Text {
    [QUOTE] + Body(s) + [QUOTE]
  }

  // ---- The chain is a character-wise escape ----

  function Escape(c: CodeUnit): Text {
    if c == BACKSLASH || c == QUOTE || c == DOLLAR then [BACKSLASH, c]
    else if c == LF then [BACKSLASH, LETTER_N]
    else if c == CR then [BACKSLASH, LETTER_R]
    else if c == TAB then [BACKSLASH, LETTER_T]
    else if c < 32 then [BACKSLASH, LETTER_U] + Hex4(c)
    else [c]
  }

  function EscapeAll(s: Text): Text {
    if s == [] then [] else Escape(s[0]) + EscapeAll(s[1..])
  }

  lemma {:induction false} ReplaceAppend(s: Text, t: Text, c: CodeUnit, put: Text)
    ensures ReplaceAll(s + t, c, put) == ReplaceAll(s, c, put) + ReplaceAll(t, c, put)
  {
    if s == [] {
      assert s + t == t;
    } else {
      ReplaceAppend(s[1..], t, c, put);
      TailAppend(s, t);
      Associative(if s[0] == c then put else [s[0]], ReplaceAll(s[1..], c, put), ReplaceAll(t, c, put));
    }
  }

  lemma {:induction false} ControlsAppend(s: Text, t: Text)
    ensures ReplaceControls(s + t) == ReplaceControls(s) + ReplaceControls(t)
  {
    hide ControlOf;
    if s == [] {
      assert s + t == t;
    } else {
      ControlsAppend(s[1..], t);
      TailAppend(s, t);
      Associative(ControlOf(s[0]), ReplaceControls(s[1..]), ReplaceControls(t));
    }
  }

  lemma {:induction false} ReplaceNone(s: Text, c: CodeUnit, put: Text)
    requires c !in s
    ensures ReplaceAll(s, c, put) == s
  {
    if s != [] {
      ReplaceNone(s[1..], c, put);
    }
  }

  lemma {:induction false} ControlsNone(s: Text)
    requires forall i :: 0 <= i < |s| ==> s[i] >= 32
    ensures ReplaceControls(s) == s
  {
    if s != [] {
      ControlsNone(s[1..]);
    }
  }

  lemma ReplaceHit(c: CodeUnit, put: Text)
    ensures ReplaceAll([c], c, put) == put
  {
    assert [c][1..] == [];
  }

  lemma {:induction false} BodyAppend(s: Text, t: Text)
    ensures Body(s + t) == Body(s) + Body(t)
  {
    var a, a' := ReplaceAll(s, BACKSLASH, [BACKSLASH, BACKSLASH]), ReplaceAll(t, BACKSLASH, [BACKSLASH, BACKSLASH]);
    ReplaceAppend(s, t, BACKSLASH, [BACKSLASH, BACKSLASH]);
    ReplaceAppend(a, a', QUOTE, [BACKSLASH, QUOTE]);
    var b, b' := ReplaceAll(a, QUOTE, [BACKSLASH, QUOTE]), ReplaceAll(a', QUOTE, [BACKSLASH, QUOTE]);
    ReplaceAppend(b, b', DOLLAR, [BACKSLASH, DOLLAR]);
    var c, c' := ReplaceAll(b, DOLLAR, [BACKSLASH, DOLLAR]), ReplaceAll(b', DOLLAR, [BACKSLASH, DOLLAR]);
    ReplaceAppend(c, c', LF, [BACKSLASH, LETTER_N]);
    var d, d' := ReplaceAll(c, LF, [BACKSLASH, LETTER_N]), ReplaceAll(c', LF, [BACKSLASH, LETTER_N]);
    ReplaceAppend(d, d', CR, [BACKSLASH, LETTER_R]);
    var e, e' := ReplaceAll(d, CR, [BACKSLASH, LETTER_R]), ReplaceAll(d', CR, [BACKSLASH, LETTER_R]);
    ReplaceAppend(e, e', TAB, [BACKSLASH, LETTER_T]);
    ControlsAppend(ReplaceAll(e, TAB, [BACKSLASH, LETTER_T]), ReplaceAll(e', TAB, [BACKSLASH, LETTER_T]));
  }

  /** One character through the whole chain: no later replacement touches what an earlier one put in. */
  lemma {:induction false} BodyOne(c: CodeUnit)
    ensures Body([c]) == Escape(c)
  {
    var a := ReplaceAll([c], BACKSLASH, [BACKSLASH, BACKSLASH]);
    if c == BACKSLASH { ReplaceHit(c, [BACKSLASH, c]); } else { ReplaceNone([c], BACKSLASH, [BACKSLASH, BACKSLASH]); }
    var b := ReplaceAll(a, QUOTE, [BACKSLASH, QUOTE]);
    if c == QUOTE { ReplaceHit(c, [BACKSLASH, c]); } else { ReplaceNone(a, QUOTE, [BACKSLASH, QUOTE]); }
    var d := ReplaceAll(b, DOLLAR, [BACKSLASH, DOLLAR]);
    if c == DOLLAR { ReplaceHit(c, [BACKSLASH, c]); } else { ReplaceNone(b, DOLLAR, [BACKSLASH, DOLLAR]); }
    var e := ReplaceAll(d, LF, [BACKSLASH, LETTER_N]);
    if c == LF { ReplaceHit(c, [BACKSLASH, LETTER_N]); } else { ReplaceNone(d, LF, [BACKSLASH, LETTER_N]); }
    var f := ReplaceAll(e, CR, [BACKSLASH, LETTER_R]);
    if c == CR { ReplaceHit(c, [BACKSLASH, LETTER_R]); } else { ReplaceNone(e, CR, [BACKSLASH, LETTER_R]); }
    var g := ReplaceAll(f, TAB, [BACKSLASH, LETTER_T]);
    if c == TAB { ReplaceHit(c, [BACKSLASH, LETTER_T]); } else { ReplaceNone(f, TAB, [BACKSLASH, LETTER_T]); }
    if c >= 32 || c == LF || c == CR || c == TAB {
      ControlsNone(g);
    } else {
      assert g == [c] && [c][1..] == [];
      assert ReplaceControls([c]) == ControlOf(c) + [];
    }
  }

  lemma {:induction false} ChainIsCharacterwise(s: Text)
    ensures Body(s) == EscapeAll(s)
  {
    if s == [] {
    } else {
      assert s == [s[0]] + s[1..];
      BodyAppend([s[0]], s[1..]);
      BodyOne(s[0]);
      ChainIsCharacterwise(s[1..]);
    }
  }

  // ---- Reading the literal ----

  function HexValue(c: CodeUnit): Option<nat> {
    if ZERO <= c < ZERO + 10 then Some(c - ZERO)
    else if 97 <= c < 103 then Some(c - 97 + 10)
    else if 65 <= c < 71 then Some(c - 65 + 10)
    else None
  }

  function ReadHex4(a: CodeUnit, b: CodeUnit, c: CodeUnit, d: CodeUnit): Option<(CodeUnit, nat)> {
    match (HexValue(a), HexValue(b), HexValue(c), HexValue(d))
    case (Some(w), Some(x), Some(y), Some(z)) =>
      if w < 16 && x < 16 && y < 16 && z < 16 then Some((w * 4096 + x * 256 + y * 16 + z, 5)) else None
    case _ => None
  }

  /** An escape sequence behind its backslash: the unit it stands for, and its length. */
  function ReadEscape(s: Text): Option<(CodeUnit, nat)> {
    if s == [] then None
    else if s[0] == LETTER_T then Some((TAB, 1))
    else if s[0] == LETTER_B then Some((8, 1))
    else if s[0] == LETTER_N then Some((LF, 1))
    else if s[0] == LETTER_R then Some((CR, 1))
    else if s[0] in [APOSTROPHE, QUOTE, BACKSLASH, DOLLAR] then Some((s[0], 1))
    else if s[0] == LETTER_U && |s| >= 5 then ReadHex4(s[1], s[2], s[3], s[4])
    else None
  }

  lemma ReadEscapeLength(s: Text)
    ensures ReadEscape(s).Some? ==> 0 < ReadEscape(s).value.1 <= |s|
  {
  }

  /** The inside of a string literal up to its closing quote, and what follows. A raw newline ends no
      literal, and an unescaped `$` may open a template: neither reads as plain text. */
  function ReadBody(s: Text): Option<(Text, Text)>
    decreases |s|
  {
    if s == [] || s[0] in [LF, CR, DOLLAR] then None
    else if s[0] == QUOTE then Some(([], s[1..]))
    else if s[0] == BACKSLASH then
      ReadEscapeLength(s[1..]);
      match ReadEscape(s[1..])
      case None => None
      case Some((c, n)) => Prepend(c, ReadBody(s[1 + n..]))
    else Prepend(s[0], ReadBody(s[1..]))
  }

  function Prepend(c: CodeUnit, r: Option<(Text, Text)>): Option<(Text, Text)> {
    match r case None => None case Some((text, rest)) => Some(([c] + text, rest))
  }

  function ReadLiteral(s: Text): Option<(Text, Text)> {
    if s == [] || s[0] != QUOTE then None else ReadBody(s[1..])
  }

  lemma HexRoundTrip(d: nat)
    requires d < 16
    ensures HexValue(HexDigit(d)) == Some(d)
  {
  }

  lemma ReadsHex4(c: CodeUnit, rest: Text)
    ensures ReadEscape([LETTER_U] + Hex4(c) + rest) == Some((c, 5))
  {
    var h := Hex4(c);
    var s := [LETTER_U] + h + rest;
    assert s[0] == LETTER_U && s[1] == h[0] && s[2] == h[1] && s[3] == h[2] && s[4] == h[3];
    HexRoundTrip(c / 4096);
    HexRoundTrip(c / 256 % 16);
    HexRoundTrip(c / 16 % 16);
    HexRoundTrip(c % 16);
    HexDigits(c);
    hide HexValue, HexDigit;
  }

  lemma HexDigits(c: CodeUnit)
    ensures c / 4096 * 4096 + c / 256 % 16 * 256 + c / 16 % 16 * 16 + c % 16 == c
  {
    assert c / 16 / 16 == c / 256 && c / 256 / 16 == c / 4096;
  }

  lemma {:induction false} ReadsEscape(c: CodeUnit, rest: Text)
    ensures ReadBody(Escape(c) + rest) == Prepend(c, ReadBody(rest))
  {
    var s := Escape(c) + rest;
    if c == BACKSLASH || c == QUOTE || c == DOLLAR || c == LF || c == CR || c == TAB {
      assert s[2..] == rest;
    } else if c < 32 {
      assert s[1..] == [LETTER_U] + Hex4(c) + rest;
      ReadsHex4(c, rest);
      assert s[6..] == rest;
    } else {
      assert s[1..] == rest;
    }
  }

  lemma {:induction false} ReadsEscapeAll(s: Text, rest: Text)
    ensures ReadBody(EscapeAll(s) + [QUOTE] + rest) == Some((s, rest))
  {
    if s == [] {
      assert ([QUOTE] + rest)[1..] == rest;
      assert EscapeAll(s) + [QUOTE] + rest == [QUOTE] + rest;
    } else {
      var after := EscapeAll(s[1..]) + [QUOTE] + rest;
      assert EscapeAll(s) + [QUOTE] + rest == Escape(s[0]) + after;
      ReadsEscape(s[0], after);
      ReadsEscapeAll(s[1..], rest);
      assert [s[0]] + s[1..] == s;
    }
  }

  /** For every text, lone surrogates included: the literal reads back as the text, and ends at its own
      closing quote, whatever follows. */
  lemma {:induction false} LiteralRoundTrip(s: Text, rest: Text)
    ensures ReadLiteral(KotlinString(s) + rest) == Some((s, rest))
  {
    ChainIsCharacterwise(s);
    var lit := KotlinString(s) + rest;
    assert lit[1..] == EscapeAll(s) + [QUOTE] + rest;
    ReadsEscapeAll(s, rest);
  }

  /** A text with nothing to escape stands as it is between its quotes. */
  lemma {:induction false} PlainStays(s: Text)
    requires forall i :: 0 <= i < |s| ==> s[i] >= 32 && s[i] !in [BACKSLASH, QUOTE, DOLLAR]
    ensures KotlinString(s) == [QUOTE] + s + [QUOTE]
  {
    ChainIsCharacterwise(s);
    PlainEscapes(s);
  }

  lemma {:induction false} PlainEscapes(s: Text)
    requires forall i :: 0 <= i < |s| ==> s[i] >= 32 && s[i] !in [BACKSLASH, QUOTE, DOLLAR]
    ensures EscapeAll(s) == s
  {
    if s != [] {
      PlainEscapes(s[1..]);
    }
  }

  /** The body has no control character, and a quote or `$` only behind a backslash. */
  lemma {:induction false} BodyIsClean(s: Text, i: nat)
    requires i < |Body(s)|
    ensures Body(s)[i] >= 32
    ensures Body(s)[i] in [QUOTE, DOLLAR] ==> i > 0 && Body(s)[i - 1] == BACKSLASH
  {
    ChainIsCharacterwise(s);
    if s != [] {
      var first, rest := Escape(s[0]), EscapeAll(s[1..]);
      if i >= |first| {
        ChainIsCharacterwise(s[1..]);
        BodyIsClean(s[1..], i - |first|);
        assert Body(s)[i] == rest[i - |first|];
      } else {
        assert Body(s)[i] == first[i];
      }
    }
  }
}
