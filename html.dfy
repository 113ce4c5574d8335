/**
 * `escapeHtml` of src/core/html.ts: five successive global replacements,
 * `&` first, so that escaping is a bijection between all strings and the
 * strings made of plain characters and the five entities.
 */
module Html {
  import opened Wrappers
  import JsNum

  /** The value handed to `escapeHtml`: a string or an (integral) number. */
  datatype Text = Str(s: string) | Num(n: int)

  const Amp := "&amp;"
  const Lt := "&lt;"
  const Gt := "&gt;"
  const Quot := "&quot;"
  const Apos := "&#039;"

  predicate Special(c: char) {
    c == '&' || c == '<' || c == '>' || c == '"' || c == '\''
  }

  /** `s.replace(/c/g, rep)`. */
  function ReplaceAll(s: string, c: char, rep: string): (r: string)
    ensures c !in s ==> r == s
  {
    if s == [] then []
    else (if s[0] == c then rep else [s[0]]) + ReplaceAll(s[1..], c, rep)
  }

  /** `String(text)`. */
  function AsString(t: Text): string {
    match t
    case Str(s) => s
    case Num(n) => JsNum.IntToString(n)
  }

  /** The chain of replacements, in the order the source applies them. */
  function Replaced(s: string): string {
    ReplaceAll(ReplaceAll(ReplaceAll(ReplaceAll(ReplaceAll(s, '&', Amp), '<', Lt), '>', Gt), '"', Quot), '\'', Apos)
  }

  /** `escapeHtml(text)`: `''` for null or undefined. */
  function EscapeHtml(text: Option<Text>): (r: string)
    ensures text.None? ==> r == ""
    ensures text.Some? ==> r == Escaped(AsString(text.value))
  {
    if text.None? then ""
    else
      EscapedIsReplaced(AsString(text.value));
      Replaced(AsString(text.value))
  }

  // ---------------------------------------------------------------------
  // The reference definition: one piece per input character
  // ---------------------------------------------------------------------

  function EscapeChar(c: char): (r: string)
    ensures !Special(c) ==> r == [c]
  {
    if c == '&' then Amp
    else if c == '<' then Lt
    else if c == '>' then Gt
    else if c == '"' then Quot
    else if c == '\'' then Apos
    else [c]
  }

  function Escaped(s: string): string {
    if s == [] then [] else EscapeChar(s[0]) + Escaped(s[1..])
  }

  lemma {:induction false} ReplaceAllConcat(a: string, b: string, c: char, rep: string)
    ensures ReplaceAll(a + b, c, rep) == ReplaceAll(a, c, rep) + ReplaceAll(b, c, rep)
  {
    if a != [] {
      var piece := if a[0] == c then rep else [a[0]];
      assert (a + b)[0] == a[0] && (a + b)[1..] == a[1..] + b;
      ReplaceAllConcat(a[1..], b, c, rep);
      calc {
        ReplaceAll(a + b, c, rep);
        piece + ReplaceAll(a[1..] + b, c, rep);
        piece + (ReplaceAll(a[1..], c, rep) + ReplaceAll(b, c, rep));
        (piece + ReplaceAll(a[1..], c, rep)) + ReplaceAll(b, c, rep);
      }
    } else {
      assert a + b == b;
    }
  }

  /** Later replacements never touch the pieces earlier ones produced. */
  lemma ReplacedConcat(a: string, b: string)
    ensures Replaced(a + b) == Replaced(a) + Replaced(b)
  {
    var a1, b1 := ReplaceAll(a, '&', Amp), ReplaceAll(b, '&', Amp);
    ReplaceAllConcat(a, b, '&', Amp);
    var a2, b2 := ReplaceAll(a1, '<', Lt), ReplaceAll(b1, '<', Lt);
    ReplaceAllConcat(a1, b1, '<', Lt);
    var a3, b3 := ReplaceAll(a2, '>', Gt), ReplaceAll(b2, '>', Gt);
    ReplaceAllConcat(a2, b2, '>', Gt);
    var a4, b4 := ReplaceAll(a3, '"', Quot), ReplaceAll(b3, '"', Quot);
    ReplaceAllConcat(a3, b3, '"', Quot);
    ReplaceAllConcat(a4, b4, '\'', Apos);
  }

  lemma ReplacedChar(c: char)
    ensures Replaced([c]) == EscapeChar(c)
  {
    ReplaceAllSingle(c, '&', Amp);
    if c == '&' {
      PassesThrough(Amp, '<', '>', '"', '\'');
      return;
    }
    ReplaceAllSingle(c, '<', Lt);
    if c == '<' {
      PassesThrough(Lt, '>', '"', '\'', '\'');
      return;
    }
    ReplaceAllSingle(c, '>', Gt);
    if c == '>' {
      PassesThrough(Gt, '"', '\'', '\'', '\'');
      return;
    }
    ReplaceAllSingle(c, '"', Quot);
    if c == '"' {
      PassesThrough(Quot, '\'', '\'', '\'', '\'');
      return;
    }
    ReplaceAllSingle(c, '\'', Apos);
  }

  lemma ReplaceAllSingle(x: char, k: char, rep: string)
    ensures ReplaceAll([x], k, rep) == if x == k then rep else [x]
  {
    assert [x][1..] == [];
  }

  /** A piece without the characters of the remaining replacements passes them unchanged. */
  lemma PassesThrough(e: string, c1: char, c2: char, c3: char, c4: char)
    requires c1 !in e && c2 !in e && c3 !in e && c4 !in e
    ensures ReplaceAll(e, c1, EscapeChar(c1)) == e && ReplaceAll(e, c2, EscapeChar(c2)) == e
    ensures ReplaceAll(e, c3, EscapeChar(c3)) == e && ReplaceAll(e, c4, EscapeChar(c4)) == e
  {
  }

  /** The chain of replacements maps each character to its own piece. */
  lemma {:induction false} EscapedIsReplaced(s: string)
    ensures Replaced(s) == Escaped(s)
  {
    if s != [] {
      assert s == [s[0]] + s[1..];
      ReplacedConcat([s[0]], s[1..]);
      ReplacedChar(s[0]);
      EscapedIsReplaced(s[1..]);
    }
  }

  // ---------------------------------------------------------------------
  // What escaping produces, and decoding it
  // ---------------------------------------------------------------------

  /**
   * A string of plain characters and the five entities: every `&` starts
   * an entity, and none of `<`, `>`, `"`, `'` occurs.
   */
  predicate EntitySafe(r: string) {
    if r == [] then true
    else if r[0] == '&' then EntityAt(r) != [] && EntitySafe(r[|EntityAt(r)|..])
    else !Special(r[0]) && EntitySafe(r[1..])
  }

  /** The entity `r` starts with, or `[]`. */
  function EntityAt(r: string): (e: string)
    ensures e != [] ==> |e| <= |r| && r[..|e|] == e && e[0] == '&'
  {
    if |r| >= |Amp| && r[..|Amp|] == Amp then Amp
    else if |r| >= |Lt| && r[..|Lt|] == Lt then Lt
    else if |r| >= |Gt| && r[..|Gt|] == Gt then Gt
    else if |r| >= |Quot| && r[..|Quot|] == Quot then Quot
    else if |r| >= |Apos| && r[..|Apos|] == Apos then Apos
    else []
  }

  function DecodeEntity(e: string): char {
    if e == Amp then '&'
    else if e == Lt then '<'
    else if e == Gt then '>'
    else if e == Quot then '"'
    else '\''
  }

  /** Decoding the five entities, left to right. */
  function Unescape(r: string): (s: string)
    decreases |r|
  {
    if r == [] then []
    else if EntityAt(r) != [] then [DecodeEntity(EntityAt(r))] + Unescape(r[|EntityAt(r)|..])
    else [r[0]] + Unescape(r[1..])
  }

  lemma EntityAtOfPiece(c: char, rest: string)
    ensures EntityAt(EscapeChar(c) + rest) == if Special(c) then EscapeChar(c) else []
  {
    var e := EscapeChar(c);
    var r := e + rest;
    assert r[..|e|] == e;
    assert r[0] == e[0];
    if Special(c) {
      assert r[1] == e[1];
    }
  }

  lemma EscapedCons(x: char, y: string)
    ensures Escaped([x] + y) == EscapeChar(x) + Escaped(y)
  {
    assert ([x] + y)[0] == x && ([x] + y)[1..] == y;
  }

  lemma EscapeDecodeEntity(r: string)
    requires EntityAt(r) != []
    ensures EscapeChar(DecodeEntity(EntityAt(r))) == EntityAt(r)
  {
  }

  /** Escaping never yields a special character, except `&` opening an entity. */
  lemma {:induction false} EscapedIsEntitySafe(s: string)
    ensures EntitySafe(Escaped(s))
  {
    if s != [] {
      var r := Escaped(s);
      EntityAtOfPiece(s[0], Escaped(s[1..]));
      EscapedIsEntitySafe(s[1..]);
      assert r[|EscapeChar(s[0])|..] == Escaped(s[1..]);
    }
  }

  /** Decoding the escaped string gives back the input. */
  lemma {:induction false} UnescapeEscaped(s: string)
    ensures Unescape(Escaped(s)) == s
  {
    if s != [] {
      var r := Escaped(s);
      EntityAtOfPiece(s[0], Escaped(s[1..]));
      assert r[|EscapeChar(s[0])|..] == Escaped(s[1..]);
      UnescapeEscaped(s[1..]);
    }
  }

  /** Escaping a decoded entity-safe string gives it back: the two are inverse bijections. */
  lemma {:induction false} EscapedUnescape(r: string)
    requires EntitySafe(r)
    ensures Escaped(Unescape(r)) == r
    decreases |r|
  {
    if r != [] {
      var e := EntityAt(r);
      if e != [] {
        EscapedUnescape(r[|e|..]);
        EscapedCons(DecodeEntity(e), Unescape(r[|e|..]));
        EscapeDecodeEntity(r);
        assert r == e + r[|e|..];
      } else {
        EscapedUnescape(r[1..]);
        EscapedCons(r[0], Unescape(r[1..]));
        assert r == [r[0]] + r[1..];
      }
    }
  }

  /** The source's promises about `escapeHtml`, stated on its output. */
  lemma EscapeHtmlProperties(text: Text)
    ensures EntitySafe(EscapeHtml(Some(text)))
    ensures forall i :: 0 <= i < |EscapeHtml(Some(text))| ==>
      var c := EscapeHtml(Some(text))[i];
      c != '<' && c != '>' && c != '"' && c != '\''
    ensures Unescape(EscapeHtml(Some(text))) == AsString(text)
  {
    var s := AsString(text);
    EscapedIsEntitySafe(s);
    NoBareSpecials(Escaped(s));
    UnescapeEscaped(s);
  }

  lemma {:induction false} NoBareSpecials(r: string)
    requires EntitySafe(r)
    ensures forall i :: 0 <= i < |r| ==> r[i] != '<' && r[i] != '>' && r[i] != '"' && r[i] != '\''
    decreases |r|
  {
    if r != [] {
      var k := if r[0] == '&' then |EntityAt(r)| else 1;
      NoBareSpecials(r[k..]);
      forall i | 0 <= i < |r|
        ensures r[i] != '<' && r[i] != '>' && r[i] != '"' && r[i] != '\''
      {
        if i >= k {
          assert r[i] == r[k..][i - k];
        } else if r[0] == '&' {
          assert r[i] == EntityAt(r)[i];
        }
      }
    }
  }

  /** On strings with none of the five characters, `escapeHtml` is the identity. */
  lemma {:induction false} EscapeHtmlIdentity(s: string)
    requires forall i :: 0 <= i < |s| ==> !Special(s[i])
    ensures EscapeHtml(Some(Str(s))) == s
  {
    EscapedPlain(s);
  }

  lemma {:induction false} EscapedPlain(s: string)
    requires forall i :: 0 <= i < |s| ==> !Special(s[i])
    ensures Escaped(s) == s
  {
    if s != [] {
      assert forall i :: 0 <= i < |s[1..]| ==> s[1..][i] == s[i + 1];
      EscapedPlain(s[1..]);
    }
  }
}
