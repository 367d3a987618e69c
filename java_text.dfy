/**
 * The three pieces of the Java class library that the parser relies on for text:
 * `String.split("\\s+")`, `Integer.parseInt` and the decimal rendering of an `int`
 * that string concatenation (`dstPort + ","`) performs.
 */
module JavaText {
  import opened Wrappers

  /** Java's `int`. */
  type int32 = x: int | -0x8000_0000 <= x < 0x8000_0000

  // ---------------------------------------------------------------------------
  // Whitespace splitting: String.split("\\s+")
  // ---------------------------------------------------------------------------

  /** The characters of the regular-expression class `\s`: space, tab, newline,
      vertical tab, form feed and carriage return. */
  predicate IsSpace(c: char) {
    c == ' ' || c == '\t' || c == '\n' || c == '\U{B}' || c == '\U{C}' || c == '\r'
  }

  predicate NoSpace(s: string) {
    forall i :: 0 <= i < |s| ==> !IsSpace(s[i])
  }

  predicate AllSpace(s: string) {
    forall i :: 0 <= i < |s| ==> IsSpace(s[i])
  }

  /** `s` without its leading whitespace. */
  function SkipSpaces(s: string): (r: string)
    ensures |r| <= |s|
    ensures r == "" || !IsSpace(r[0])
  {
    if s != "" && IsSpace(s[0]) then SkipSpaces(s[1..]) else s
  }

  /** The pieces of `s` around its maximal whitespace runs, before trailing empty
      pieces are removed: a leading run gives an empty first piece, a trailing run
      an empty last piece. */
  function Pieces(s: string): (ps: seq<string>)
    ensures |ps| > 0
    decreases |s|
  {
    if s == "" then [""]
    else if IsSpace(s[0]) then [""] + Pieces(SkipSpaces(s[1..]))
    else
      var ps := Pieces(s[1..]);
      [[s[0]] + ps[0]] + ps[1..]
  }

  /** Removes the empty strings at the end of `ps` (split with limit 0). */
  function DropTrailingEmpty(ps: seq<string>): (r: seq<string>)
    ensures |r| <= |ps|
  {
    if |ps| > 0 && ps[|ps| - 1] == "" then DropTrailingEmpty(ps[..|ps| - 1]) else ps
  }

  /** `s.split("\\s+")`: the pieces around the matches, with trailing empty pieces
      removed. When nothing matches Java returns `s` alone, which for non-empty `s`
      is what the pieces give (see SplitWord) and for empty `s` is `[""]`. */
  function Split(s: string): seq<string> {
    if s == "" then [""] else DropTrailingEmpty(Pieces(s))
  }

  /** The characters of `s` that are not whitespace, in order. */
  function Strip(s: string): string {
    if s == [] then [] else (if IsSpace(s[0]) then [] else [s[0]]) + Strip(s[1..])
  }

  function Concat(ts: seq<string>): string {
    if ts == [] then [] else ts[0] + Concat(ts[1..])
  }

  lemma {:induction false} StripSkip(s: string)
    ensures Strip(SkipSpaces(s)) == Strip(s)
    decreases |s|
  {
    if s != "" && IsSpace(s[0]) {
      StripSkip(s[1..]);
    }
  }

  lemma {:induction false} StripWord(w: string)
    requires NoSpace(w)
    ensures Strip(w) == w
    decreases |w|
  {
    if w != [] {
      StripWord(w[1..]);
    }
  }

  lemma {:induction false} ConcatAppend(a: seq<string>, b: seq<string>)
    ensures Concat(a + b) == Concat(a) + Concat(b)
    decreases |a|
  {
    if a != [] {
      assert (a + b)[1..] == a[1..] + b;
      ConcatAppend(a[1..], b);
    } else {
      assert a + b == b;
    }
  }

  lemma {:induction false} ConcatDropTrailing(ps: seq<string>)
    ensures Concat(DropTrailingEmpty(ps)) == Concat(ps)
    decreases |ps|
  {
    if |ps| > 0 && ps[|ps| - 1] == "" {
      var init := ps[..|ps| - 1];
      ConcatDropTrailing(init);
      assert ps == init + [""];
      ConcatAppend(init, [""]);
    }
  }

  /** Dropping trailing empty pieces never reaches past a non-empty first piece. */
  lemma {:induction false} DropTrailingAfter(xs: seq<string>, ps: seq<string>)
    requires |ps| > 0 && ps[0] != ""
    ensures DropTrailingEmpty(xs + ps) == xs + DropTrailingEmpty(ps)
    decreases |ps|
  {
    if |ps| > 1 && ps[|ps| - 1] == "" {
      var init := ps[..|ps| - 1];
      assert (xs + ps)[..|xs + ps| - 1] == xs + init;
      DropTrailingAfter(xs, init);
    }
  }

  /** Removing trailing empty strings keeps a prefix that ends in a non-empty
      string, and what it removes is all empty. */
  lemma {:induction false} DropTrailingPrefix(ps: seq<string>)
    ensures var r := DropTrailingEmpty(ps);
      && r == ps[..|r|]
      && (|r| > 0 ==> r[|r| - 1] != "")
      && (forall j :: |r| <= j < |ps| ==> ps[j] == "")
    decreases |ps|
  {
    if |ps| > 0 && ps[|ps| - 1] == "" {
      var init := ps[..|ps| - 1];
      DropTrailingPrefix(init);
      var r := DropTrailingEmpty(init);
      assert init[..|r|] == ps[..|r|];
    }
  }

  /** Every piece is free of whitespace. */
  lemma {:induction false} PiecesNoSpace(s: string)
    ensures forall i :: 0 <= i < |Pieces(s)| ==> NoSpace(Pieces(s)[i])
    decreases |s|
  {
    if s != "" {
      if IsSpace(s[0]) {
        PiecesNoSpace(SkipSpaces(s[1..]));
      } else {
        PiecesNoSpace(s[1..]);
        var ps := Pieces(s[1..]);
        assert NoSpace([s[0]] + ps[0]);
      }
    }
  }

  /** Only the first and the last piece can be empty, and the first is not when
      `s` starts with a non-whitespace character. */
  lemma {:induction false} PiecesNonEmpty(s: string)
    ensures forall i :: 0 < i < |Pieces(s)| - 1 ==> Pieces(s)[i] != ""
    ensures s != "" && !IsSpace(s[0]) ==> Pieces(s)[0] != ""
    decreases |s|
  {
    if s != "" {
      if IsSpace(s[0]) {
        var t := SkipSpaces(s[1..]);
        PiecesNonEmpty(t);
        assert |Pieces(t)| > 1 ==> t != "";
      } else {
        PiecesNonEmpty(s[1..]);
      }
    }
  }

  /** Splitting loses no character other than whitespace. */
  lemma {:induction false} PiecesConcat(s: string)
    ensures Concat(Pieces(s)) == Strip(s)
    decreases |s|
  {
    if s != "" {
      if IsSpace(s[0]) {
        var t := SkipSpaces(s[1..]);
        PiecesConcat(t);
        StripSkip(s[1..]);
        assert ([""] + Pieces(t))[1..] == Pieces(t);
      } else {
        var ps := Pieces(s[1..]);
        PiecesConcat(s[1..]);
        assert Concat(ps) == ps[0] + Concat(ps[1..]);
        assert ([[s[0]] + ps[0]] + ps[1..])[1..] == ps[1..];
      }
    }
  }

  lemma {:induction false} PiecesWord(w: string)
    requires NoSpace(w)
    ensures Pieces(w) == [w]
    decreases |w|
  {
    if w != "" {
      PiecesWord(w[1..]);
      assert [w[0]] + w[1..] == w;
    }
  }

  lemma {:induction false} SkipAllSpace(sp: string, rest: string)
    requires AllSpace(sp)
    requires rest == "" || !IsSpace(rest[0])
    ensures SkipSpaces(sp + rest) == rest
    decreases |sp|
  {
    if sp != "" {
      assert (sp + rest)[1..] == sp[1..] + rest;
      SkipAllSpace(sp[1..], rest);
    } else {
      assert sp + rest == rest;
    }
  }

  /** The pieces of a word followed by whitespace and then more text. */
  lemma {:induction false} PiecesCons(w: string, sp: string, rest: string)
    requires NoSpace(w)
    requires sp != "" && AllSpace(sp)
    requires rest == "" || !IsSpace(rest[0])
    ensures Pieces(w + sp + rest) == [w] + Pieces(rest)
    decreases |w|
  {
    var s := w + sp + rest;
    if w == "" {
      assert s == sp + rest;
      assert s[1..] == sp[1..] + rest;
      SkipAllSpace(sp[1..], rest);
    } else {
      assert s[1..] == w[1..] + sp + rest;
      PiecesCons(w[1..], sp, rest);
      assert [s[0]] + w[1..] == w;
    }
  }

  /** No token of `s.split("\\s+")` holds whitespace. */
  lemma SplitNoSpace(s: string)
    ensures forall i :: 0 <= i < |Split(s)| ==> NoSpace(Split(s)[i])
  {
    if s != "" {
      DropTrailingPrefix(Pieces(s));
      PiecesNoSpace(s);
    }
  }

  /** Only the first token can be empty: when `s` starts with whitespace, or is
      itself empty. */
  lemma SplitNonEmpty(s: string)
    ensures forall i :: 0 < i < |Split(s)| ==> Split(s)[i] != ""
    ensures s != "" && !IsSpace(s[0]) ==> |Split(s)| > 0 && Split(s)[0] != ""
  {
    if s != "" {
      DropTrailingPrefix(Pieces(s));
      PiecesNonEmpty(s);
      if !IsSpace(s[0]) {
        assert Pieces(s)[0] != "";
      }
    }
  }

  /** The tokens concatenated are `s` with its whitespace removed. */
  lemma SplitConcat(s: string)
    ensures Concat(Split(s)) == Strip(s)
  {
    if s == "" {
      assert Concat([""]) == "" + Concat([]);
    } else {
      PiecesConcat(s);
      ConcatDropTrailing(Pieces(s));
    }
  }

  /** Text without whitespace is its own single token: the case where the pattern
      does not match at all. */
  lemma SplitWord(w: string)
    requires w != "" && NoSpace(w)
    ensures Split(w) == [w]
  {
    PiecesWord(w);
  }

  /** A string made only of whitespace has no tokens at all. */
  lemma SplitAllSpace(sp: string)
    requires sp != "" && AllSpace(sp)
    ensures Split(sp) == []
  {
    PiecesCons("", sp, "");
    assert "" + sp + "" == sp;
    assert DropTrailingEmpty(["", ""]) == DropTrailingEmpty([""]) by {
      assert ["", ""][..1] == [""];
    }
    assert DropTrailingEmpty([""]) == [] by {
      assert [""][..0] == [];
    }
  }

  /** A word followed by whitespace and more text: the word is the first token and
      splitting goes on with the text after the whitespace. */
  lemma SplitCons(w: string, sp: string, rest: string)
    requires w != "" && NoSpace(w)
    requires sp != "" && AllSpace(sp)
    requires rest != "" && !IsSpace(rest[0])
    ensures Split(w + sp + rest) == [w] + Split(rest)
  {
    var s := w + sp + rest;
    PiecesCons(w, sp, rest);
    PiecesNonEmpty(rest);
    DropTrailingAfter([w], Pieces(rest));
  }

  /** Leading whitespace gives an empty first token, which shifts every later token
      one place to the right. */
  lemma SplitLeading(sp: string, rest: string)
    requires sp != "" && AllSpace(sp)
    requires rest != "" && !IsSpace(rest[0])
    ensures Split(sp + rest) == [""] + Split(rest)
  {
    var s := sp + rest;
    PiecesCons("", sp, rest);
    assert "" + sp + rest == s;
    PiecesNonEmpty(rest);
    DropTrailingAfter([""], Pieces(rest));
  }

  /** Trailing whitespace after the last word gives no token. */
  lemma SplitTrailing(w: string, sp: string)
    requires w != "" && NoSpace(w)
    requires sp != "" && AllSpace(sp)
    ensures Split(w + sp) == [w]
  {
    var s := w + sp;
    PiecesCons(w, sp, "");
    assert w + sp + "" == s;
    assert DropTrailingEmpty([w, ""]) == DropTrailingEmpty([w]) by {
      assert [w, ""][..1] == [w];
    }
  }

  /** Words separated by `sep`: `ws[0] + sep + ws[1] + ... + ws[|ws| - 1]`. */
  function JoinWords(ws: seq<string>, sep: string): string
    requires |ws| > 0
  {
    if |ws| == 1 then ws[0] else ws[0] + sep + JoinWords(ws[1..], sep)
  }

  /** Splitting undoes joining: words without whitespace, separated by runs of
      whitespace, come back as the tokens, in order. */
  lemma {:induction false} SplitJoin(ws: seq<string>, sep: string)
    requires |ws| > 0
    requires forall i :: 0 <= i < |ws| ==> ws[i] != "" && NoSpace(ws[i])
    requires sep != "" && AllSpace(sep)
    ensures Split(JoinWords(ws, sep)) == ws
    decreases |ws|
  {
    if |ws| == 1 {
      SplitWord(ws[0]);
    } else {
      var rest := JoinWords(ws[1..], sep);
      SplitJoin(ws[1..], sep);
      JoinWordsStart(ws[1..], sep);
      SplitCons(ws[0], sep, rest);
      assert ws == [ws[0]] + ws[1..];
    }
  }

  /** A join of non-empty words starts with the first character of the first word. */
  lemma {:induction false} JoinWordsStart(ws: seq<string>, sep: string)
    requires |ws| > 0 && ws[0] != ""
    ensures JoinWords(ws, sep) != "" && JoinWords(ws, sep)[0] == ws[0][0]
  {
  }

  // ---------------------------------------------------------------------------
  // Integer.parseInt and the decimal rendering of an int
  // ---------------------------------------------------------------------------

  predicate IsDigit(c: char) {
    '0' <= c <= '9'
  }

  predicate AllDigits(s: string) {
    forall i :: 0 <= i < |s| ==> IsDigit(s[i])
  }

  function DigitValue(c: char): (d: nat)
    requires IsDigit(c)
    ensures d < 10
  {
    c as int - '0' as int
  }

  function DigitChar(d: nat): (c: char)
    requires d < 10
    ensures IsDigit(c) && DigitValue(c) == d
  {
    ('0' as int + d) as char
  }

  /** The value of a string of decimal digits, most significant first. */
  function DigitsValue(ds: string): nat
    requires AllDigits(ds)
  {
    if ds == "" then 0 else DigitsValue(ds[..|ds| - 1]) * 10 + DigitValue(ds[|ds| - 1])
  }

  predicate InInt32(v: int) {
    -0x8000_0000 <= v < 0x8000_0000
  }

  /** `Integer.parseInt(s)`: an optional `-` or `+`, then at least one decimal digit
      and nothing else, with a value that fits an `int`; `None` stands for the
      `NumberFormatException` thrown otherwise. */
  function ParseInt(s: string): Option<int32> {
    if s == "" then None
    else
      var digits := if s[0] == '-' || s[0] == '+' then s[1..] else s;
      if digits == "" || !AllDigits(digits) then None
      else
        var v := if s[0] == '-' then -(DigitsValue(digits) as int) else DigitsValue(digits);
        if InInt32(v) then Some(v) else None
  }

  /** The decimal digits of `n`, with no leading zero. */
  function NatToString(n: nat): (s: string)
    ensures s != "" && AllDigits(s)
    ensures DigitsValue(s) == n
    ensures |s| > 1 ==> s[0] != '0'
  {
    if n < 10 then [DigitChar(n)]
    else
      var p := NatToString(n / 10);
      var s := p + [DigitChar(n % 10)];
      assert s[..|s| - 1] == p;
      s
  }

  /** `Integer.toString(n)`, which string concatenation uses for an `int`. */
  function IntToString(n: int): string {
    if n < 0 then "-" + NatToString(-n) else NatToString(n)
  }

  /** Rendering an integer in decimal and parsing it back gives the same integer
      when it fits an `int`, and fails when it does not. */
  lemma ParseIntToString(n: int)
    ensures ParseInt(IntToString(n)) == if InInt32(n) then Some(n) else None
  {
    var s := IntToString(n);
    if n < 0 {
      assert s[1..] == NatToString(-n);
    } else {
      assert IsDigit(s[0]);
    }
  }

  /** Distinct integers have distinct decimal renderings. */
  lemma IntToStringInjective(m: int, n: int)
    requires IntToString(m) == IntToString(n)
    ensures m == n
  {
    var s := IntToString(m);
    assert s[0] == '-' <==> m < 0;
    assert s[0] == '-' <==> n < 0;
    if m < 0 {
      assert s[1..] == NatToString(-m) == NatToString(-n);
    }
  }

  /** A decimal rendering holds only digits and at most a leading minus sign: no
      comma and no whitespace. */
  lemma IntToStringChars(n: int)
    ensures forall i :: 0 <= i < |IntToString(n)| ==>
      IsDigit(IntToString(n)[i]) || (i == 0 && IntToString(n)[i] == '-')
  {
  }

  /** Text with whitespace in it, or empty text, never parses. */
  lemma ParseIntRejectsSpace(s: string)
    requires s == "" || !NoSpace(s)
    ensures ParseInt(s) == None
  {
    if s != "" {
      var i :| 0 <= i < |s| && IsSpace(s[i]);
      if i > 0 && (s[0] == '-' || s[0] == '+') {
        assert s[1..][i - 1] == s[i];
      }
    }
  }

  /** Signs, leading zeros and stray characters. */
  lemma ParseIntSyntax()
    ensures ParseInt("+17") == Some(17) && ParseInt("007") == Some(7) && ParseInt("-0") == Some(0)
    ensures ParseInt("-") == None && ParseInt("+") == None && ParseInt("") == None
    ensures ParseInt("6a") == None && ParseInt("--6") == None
  {
    assert "+17"[1..] == "17" && "17"[..1] == "1" && "1"[..0] == "";
    assert "007"[..2] == "00" && "00"[..1] == "0" && "0"[..0] == "";
    assert "-0"[1..] == "0";
    assert !IsDigit("6a"[1]);
    assert !IsDigit("--6"[1..][0]);
  }
}
