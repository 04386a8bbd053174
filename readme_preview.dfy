/** The preview pane of readme-gen/src/app/components/ReadmePreview.tsx: the
    chain of global replacements that turns markdown into the HTML shown, and
    the line count. */
module ReadmePreview {
  import opened Strings

  /** `s.replace(/c/g, rep)` for a one-character pattern. */
  function ReplaceChar(s: string, c: char, rep: string): string {
    if s == [] then [] else (if s[0] == c then rep else [s[0]]) + ReplaceChar(s[1..], c, rep)
  }

  /** No `c` is left unless the replacement brings one. */
  lemma {:induction false} ReplaceRemoves(s: string, c: char, rep: string)
    requires c !in rep
    ensures c !in ReplaceChar(s, c, rep)
  {
    if s != [] {
      ReplaceRemoves(s[1..], c, rep);
    }
  }

  lemma {:induction false} ReplaceConcat(a: string, b: string, c: char, rep: string)
    ensures ReplaceChar(a + b, c, rep) == ReplaceChar(a, c, rep) + ReplaceChar(b, c, rep)
  {
    if a == [] {
      assert a + b == b;
    } else {
      ReplaceConcat(a[1..], b, c, rep);
      assert (a + b)[1..] == a[1..] + b;
    }
  }

  lemma {:induction false} ReplaceAbsent(s: string, c: char, rep: string)
    requires c !in s
    ensures ReplaceChar(s, c, rep) == s
  {
    if s != [] {
      ReplaceAbsent(s[1..], c, rep);
    }
  }

  const Amp := "&amp;"
  const Lt := "&lt;"
  const Gt := "&gt;"
  const Br := "<br/>"

  /** The `__html` of the preview. */
  function EscapePreview(readme: string): string {
    ReplaceChar(ReplaceChar(ReplaceChar(ReplaceChar(readme, '&', Amp), '<', Lt), '>', Gt), '\n', Br)
  }

  /** What each character of the markdown becomes. */
  function EncodeChar(c: char): string {
    if c == '&' then Amp
    else if c == '<' then Lt
    else if c == '>' then Gt
    else if c == '\n' then Br
    else [c]
  }

  function Encode(s: string): string {
    if s == [] then [] else EncodeChar(s[0]) + Encode(s[1..])
  }

  /** The chain works piece by piece. */
  lemma EscapeConcat(a: string, b: string)
    ensures EscapePreview(a + b) == EscapePreview(a) + EscapePreview(b)
  {
    ReplaceConcat(a, b, '&', Amp);
    var a1, b1 := ReplaceChar(a, '&', Amp), ReplaceChar(b, '&', Amp);
    ReplaceConcat(a1, b1, '<', Lt);
    var a2, b2 := ReplaceChar(a1, '<', Lt), ReplaceChar(b1, '<', Lt);
    ReplaceConcat(a2, b2, '>', Gt);
    var a3, b3 := ReplaceChar(a2, '>', Gt), ReplaceChar(b2, '>', Gt);
    ReplaceConcat(a3, b3, '\n', Br);
  }

  lemma ReplaceSingle(x: char, c: char, rep: string)
    ensures ReplaceChar([x], c, rep) == if x == c then rep else [x]
  {
    assert [x][1..] == [];
  }

  /** `&` becomes `&amp;`, which the later steps leave alone. */
  lemma EscapeAmp(c: char)
    requires c == '&'
    ensures EscapePreview([c]) == Amp
  {
    ReplaceSingle(c, '&', Amp);
    assert '<' !in Amp && '>' !in Amp && '\n' !in Amp;
    ReplaceAbsent(Amp, '<', Lt);
    ReplaceAbsent(Amp, '>', Gt);
    ReplaceAbsent(Amp, '\n', Br);
  }

  lemma EscapeLt(c: char)
    requires c == '<'
    ensures EscapePreview([c]) == Lt
  {
    ReplaceSingle(c, '&', Amp);
    ReplaceSingle(c, '<', Lt);
    ReplaceAbsent(Lt, '>', Gt);
    ReplaceAbsent(Lt, '\n', Br);
  }

  lemma EscapeGt(c: char)
    requires c == '>'
    ensures EscapePreview([c]) == Gt
  {
    ReplaceSingle(c, '&', Amp);
    ReplaceSingle(c, '<', Lt);
    ReplaceSingle(c, '>', Gt);
    ReplaceAbsent(Gt, '\n', Br);
  }

  lemma EscapeOther(c: char)
    requires c != '&' && c != '<' && c != '>'
    ensures EscapePreview([c]) == if c == '\n' then Br else [c]
  {
    ReplaceSingle(c, '&', Amp);
    ReplaceSingle(c, '<', Lt);
    ReplaceSingle(c, '>', Gt);
    ReplaceSingle(c, '\n', Br);
  }

  /** Because `&` is replaced first, the entities the later steps introduce are
      never escaped again. */
  lemma EscapeChar(c: char)
    ensures EscapePreview([c]) == EncodeChar(c)
  {
    if c == '&' {
      EscapeAmp(c);
    } else if c == '<' {
      EscapeLt(c);
    } else if c == '>' {
      EscapeGt(c);
    } else {
      EscapeOther(c);
    }
  }

  /** The chain encodes every character on its own. */
  lemma {:induction false} EscapeIsEncode(s: string)
    ensures EscapePreview(s) == Encode(s)
  {
    if s != [] {
      EscapeIsEncode(s[1..]);
      EscapeChar(s[0]);
      EscapeConcat([s[0]], s[1..]);
      assert s == [s[0]] + s[1..];
    }
  }

  /** No newline survives. */
  lemma NoNewline(s: string)
    ensures '\n' !in EscapePreview(s)
  {
    var stage3 := ReplaceChar(ReplaceChar(ReplaceChar(s, '&', Amp), '<', Lt), '>', Gt);
    assert '\n' !in Br;
    ReplaceRemoves(stage3, '\n', Br);
  }

  /** Text without any of the four special characters is shown unchanged. */
  lemma {:induction false} PlainTextUnchanged(s: string)
    requires '&' !in s && '<' !in s && '>' !in s && '\n' !in s
    ensures EscapePreview(s) == s
  {
    EscapeIsEncode(s);
    EncodeOfPlain(s);
  }

  lemma {:induction false} EncodeOfPlain(s: string)
    requires '&' !in s && '<' !in s && '>' !in s && '\n' !in s
    ensures Encode(s) == s
  {
    if s != [] {
      EncodeOfPlain(s[1..]);
      assert s == [s[0]] + s[1..];
    }
  }

  /** The character at `i` is no `<` but the start of a `<br/>`, and no `>`
      but its end. */
  predicate AngleAt(t: string, i: int)
    requires 0 <= i < |t|
  {
    (t[i] == '<' ==> i + 5 <= |t| && t[i..i + 5] == Br) &&
    (t[i] == '>' ==> i >= 4 && t[i - 4..i + 1] == Br)
  }

  /** Every `<` opens a `<br/>` and every `>` closes one. */
  predicate AnglesOnlyInBreaks(t: string) {
    forall i :: 0 <= i < |t| ==> AngleAt(t, i)
  }

  lemma AngleAtLeft(x: string, y: string, i: nat)
    requires i < |x| && AngleAt(x, i)
    ensures AngleAt(x + y, i)
  {
    var t := x + y;
    if t[i] == '<' { assert t[i..i + 5] == x[i..i + 5]; }
    if t[i] == '>' { assert t[i - 4..i + 1] == x[i - 4..i + 1]; }
  }

  lemma AngleAtRight(x: string, y: string, j: nat)
    requires j < |y| && AngleAt(y, j)
    ensures AngleAt(x + y, |x| + j)
  {
    var t, i := x + y, |x| + j;
    assert t[i] == y[j];
    if t[i] == '<' { assert t[i..i + 5] == y[j..j + 5]; }
    if t[i] == '>' { assert t[i - 4..i + 1] == y[j - 4..j + 1]; }
  }

  lemma AnglesConcat(x: string, y: string)
    requires AnglesOnlyInBreaks(x) && AnglesOnlyInBreaks(y)
    ensures AnglesOnlyInBreaks(x + y)
  {
    forall i | 0 <= i < |x + y| ensures AngleAt(x + y, i) {
      if i < |x| {
        AngleAtLeft(x, y, i);
      } else {
        AngleAtRight(x, y, i - |x|);
      }
    }
  }

  /** The shown HTML has no `<` or `>` but those of the `<br/>` tags. */
  lemma {:induction false} EscapedAngles(s: string)
    ensures AnglesOnlyInBreaks(EscapePreview(s))
  {
    EscapeIsEncode(s);
    EncodeAngles(s);
  }

  lemma {:induction false} EncodeAngles(s: string)
    ensures AnglesOnlyInBreaks(Encode(s))
  {
    if s != [] {
      EncodeAngles(s[1..]);
      var e := EncodeChar(s[0]);
      if s[0] == '\n' {
        assert e[0..5] == Br;
        assert e[0..0 + 5] == Br;
        assert e[4 - 4..4 + 1] == Br;
      }
      assert AnglesOnlyInBreaks(e);
      AnglesConcat(e, Encode(s[1..]));
    }
  }

  /** Reads the shown HTML back into markdown. */
  function Decode(t: string): string
    decreases |t|
  {
    if t == [] then []
    else if IsPrefix(Amp, t) then "&" + Decode(t[5..])
    else if IsPrefix(Lt, t) then "<" + Decode(t[4..])
    else if IsPrefix(Gt, t) then ">" + Decode(t[4..])
    else if IsPrefix(Br, t) then "\n" + Decode(t[5..])
    else [t[0]] + Decode(t[1..])
  }

  /** The escaping loses nothing: decoding the shown HTML gives back the markdown. */
  lemma {:induction false} DecodeEscape(s: string)
    ensures Decode(EscapePreview(s)) == s
  {
    EscapeIsEncode(s);
    DecodeEncode(s);
  }

  lemma {:induction false} DecodeEncode(s: string)
    ensures Decode(Encode(s)) == s
  {
    if s != [] {
      DecodeEncode(s[1..]);
      DecodeStep(s[0], Encode(s[1..]));
      assert s == [s[0]] + s[1..];
    }
  }

  /** Decoding reads one encoded character off the front. */
  lemma DecodeStep(c: char, rest: string)
    ensures Decode(EncodeChar(c) + rest) == [c] + Decode(rest)
  {
    var e := EncodeChar(c);
    var t := e + rest;
    assert t[|e|..] == rest;
    if c == '&' {
      assert t[..5] == Amp;
      assert Decode(t) == "&" + Decode(t[5..]);
    } else if c == '<' {
      assert t[..4] == Lt;
      NotPrefix(Amp, t, 1);
      assert Decode(t) == "<" + Decode(t[4..]);
    } else if c == '>' {
      assert t[..4] == Gt;
      NotPrefix(Amp, t, 1);
      NotPrefix(Lt, t, 1);
      assert Decode(t) == ">" + Decode(t[4..]);
    } else if c == '\n' {
      assert t[..5] == Br;
      NotPrefix(Amp, t, 0);
      NotPrefix(Lt, t, 0);
      NotPrefix(Gt, t, 0);
      assert Decode(t) == "\n" + Decode(t[5..]);
    } else {
      assert t[0] == c;
      NotPrefix(Amp, t, 0);
      NotPrefix(Lt, t, 0);
      NotPrefix(Gt, t, 0);
      NotPrefix(Br, t, 0);
      assert Decode(t) == [c] + Decode(t[1..]);
    }
  }

  lemma NotPrefix(p: string, t: string, k: nat)
    requires k < |p| && k < |t| && p[k] != t[k]
    ensures !IsPrefix(p, t)
  {
  }

  /** `readme.split("\n").length` */
  function LineCount(readme: string): (r: nat)
    ensures r == CountChar(readme, '\n') + 1
  {
    |Split(readme, '\n')|
  }
}
