/**
 * The Python string builtins the pipeline relies on: `str.isspace`, `str.strip`,
 * `str.split()` (on whitespace), `str.split(sep)`, `str.splitlines()` and `sep.join`.
 */
module Text {

  /** Python's `str.isspace` for one character. */
  predicate IsSpace(c: char) {
    c == ' ' || ('\t' <= c <= '\r') || ('\U{1c}' <= c <= '\U{1f}') || c == '\U{85}' || c == '\U{a0}'
    || c == '\U{1680}' || ('\U{2000}' <= c <= '\U{200a}') || c == '\U{2028}' || c == '\U{2029}'
    || c == '\U{202f}' || c == '\U{205f}' || c == '\U{3000}'
  }

  /** The characters `str.splitlines` breaks at. */
  predicate IsLineBreak(c: char) {
    c == '\n' || c == '\r' || c == '\U{0b}' || c == '\U{0c}' || ('\U{1c}' <= c <= '\U{1e}')
    || c == '\U{85}' || c == '\U{2028}' || c == '\U{2029}'
  }

  predicate AllSpace(s: string) {
    forall i :: 0 <= i < |s| ==> IsSpace(s[i])
  }

  /** A word as `str.split()` yields it: non-empty, no whitespace. */
  predicate IsWord(w: string) {
    w != [] && forall i :: 0 <= i < |w| ==> !IsSpace(w[i])
  }

  predicate StartsWith(s: string, p: string) {
    |p| <= |s| && s[..|p|] == p
  }

  /** Python's `p in s` for strings. */
  predicate Contains(s: string, p: string) {
    exists k :: 0 <= k <= |s| && StartsWith(s[k..], p)
  }

  /** `str.lstrip()`: drops leading whitespace, leaving a suffix. */
  function LStrip(s: string): (r: string)
    ensures |r| <= |s| && r == s[|s| - |r|..]
    ensures AllSpace(s[..|s| - |r|])
    ensures r == [] <==> AllSpace(s)
    ensures r != [] ==> !IsSpace(r[0])
  {
    if s != [] && IsSpace(s[0]) then
      var r := LStrip(s[1..]);
      LStripStep(s, r);
      r
    else
      StripStop(s, 0);
      s
  }

  /** `str.rstrip()`: drops trailing whitespace, leaving a prefix. */
  function RStrip(s: string): (r: string)
    ensures |r| <= |s| && r == s[..|r|]
    ensures AllSpace(s[|r|..])
    ensures r == [] <==> AllSpace(s)
    ensures r != [] ==> !IsSpace(r[|r| - 1])
  {
    if s != [] && IsSpace(s[|s| - 1]) then
      var r := RStrip(s[..|s| - 1]);
      SpaceAfter(s, |r|);
      r
    else
      StripStop(s, |s| - 1);
      s
  }

  /** Stripping stops at once when the end it starts from is not whitespace. */
  lemma StripStop(s: string, k: int)
    requires s == [] || (0 <= k < |s| && !IsSpace(s[k]))
    ensures s[..0] == [] && s[|s|..] == [] && s == s[0..] && s == s[..|s|]
    ensures s == [] <==> AllSpace(s)
  {
  }

  /** `LStrip`'s contract carries over from `s[1..]` to `s` when `s[0]` is whitespace. */
  lemma LStripStep(s: string, r: string)
    requires s != [] && IsSpace(s[0])
    requires |r| <= |s| - 1 && r == s[1..][|s| - 1 - |r|..] && AllSpace(s[1..][..|s| - 1 - |r|])
    requires r == [] <==> AllSpace(s[1..])
    ensures r == s[|s| - |r|..] && AllSpace(s[..|s| - |r|])
    ensures r == [] <==> AllSpace(s)
  {
    assert s[1..][|s| - 1 - |r|..] == s[|s| - |r|..];
    SpaceBefore(s, |s| - 1 - |r|);
    assert AllSpace(s) ==> AllSpace(s[1..]) by {
      if AllSpace(s) {
        assert forall i :: 0 <= i < |s| - 1 ==> s[1..][i] == s[i + 1];
      }
    }
  }

  /** A whitespace character in front of a whitespace prefix of the rest. */
  lemma SpaceBefore(s: string, k: nat)
    requires s != [] && IsSpace(s[0]) && k < |s| && AllSpace(s[1..][..k])
    ensures AllSpace(s[..k + 1])
  {
    assert s[..k + 1] == [s[0]] + s[1..][..k];
  }

  /** A whitespace suffix of all but the last character, followed by a whitespace character. */
  lemma SpaceAfter(s: string, k: nat)
    requires s != [] && IsSpace(s[|s| - 1]) && k < |s| && AllSpace(s[..|s| - 1][k..])
    ensures AllSpace(s[k..])
  {
    assert s[k..] == s[..|s| - 1][k..] + [s[|s| - 1]];
  }

  /** `str.strip()`: the text between the first and last non-space characters. */
  function Strip(s: string): (r: string)
    ensures r == [] <==> AllSpace(s)
    ensures r != [] ==> !IsSpace(r[0]) && !IsSpace(r[|r| - 1])
  {
    var l := LStrip(s);
    var r := RStrip(l);
    assert r != [] ==> r[0] == l[0];
    r
  }

  /**
   * What `strip` keeps: the stretch of `s` between a whitespace prefix and a
   * whitespace suffix, and (with `Strip`'s own contract) the longest such.
   */
  lemma StripSpan(s: string) returns (i: nat)
    ensures i + |Strip(s)| <= |s|
    ensures AllSpace(s[..i]) && AllSpace(s[i + |Strip(s)|..])
    ensures Strip(s) == s[i..i + |Strip(s)|]
  {
    i := |s| - |LStrip(s)|;
    var t := Strip(s);
    assert i + |t| <= |s| && AllSpace(s[..i]) && AllSpace(s[i + |t|..]) && t == s[i..i + |t|] by {
      var l := LStrip(s);
      var r := RStrip(l);
      assert t == r;
      TrimSpan(s, l, r, i);
    }
  }

  /** Cutting whitespace off the front of `s`, then off the back, leaves a stretch of `s`. */
  lemma TrimSpan(s: string, l: string, r: string, i: nat)
    requires |l| <= |s| && i == |s| - |l| && l == s[i..] && AllSpace(s[..i])
    requires |r| <= |l| && r == l[..|r|] && AllSpace(l[|r|..])
    ensures AllSpace(s[i + |r|..]) && r == s[i..i + |r|]
  {
    assert s[i + |r|..] == l[|r|..];
    assert s[i..][..|r|] == s[i..i + |r|];
  }

  /** `strip` only removes characters: every character it keeps was there. */
  lemma StripChars(s: string)
    ensures forall c :: c in Strip(s) ==> c in s
  {
    var l := LStrip(s);
    assert forall c :: c in RStrip(l) ==> c in l;
    assert forall c :: c in l ==> c in s;
  }

  /** Text that neither starts nor ends with white space is left alone by `strip`. */
  lemma StripTrimmed(s: string)
    requires s != [] && !IsSpace(s[0]) && !IsSpace(s[|s| - 1])
    ensures Strip(s) == s
  {
    assert LStrip(s) == s;
    assert RStrip(s) == s;
  }

  /** `strip` is idempotent: a stripped text has nothing left to strip. */
  lemma StripIdempotent(s: string)
    ensures Strip(Strip(s)) == Strip(s)
  {
    if Strip(s) != [] {
      StripTrimmed(Strip(s));
    }
  }

  /** Length of the leading run of non-space characters. */
  function WordLen(s: string): (n: nat)
    ensures n <= |s|
    ensures forall i :: 0 <= i < n ==> !IsSpace(s[i])
    ensures n < |s| ==> IsSpace(s[n])
  {
    if s == [] || IsSpace(s[0]) then 0 else 1 + WordLen(s[1..])
  }

  /** `str.split()` with no separator: the maximal runs of non-space characters, in order. */
  function Words(s: string): (ws: seq<string>)
    ensures ws == [] <==> AllSpace(s)
    decreases |s|
  {
    var t := LStrip(s);
    if t == [] then []
    else
      var n := WordLen(t);
      assert !IsSpace(s[|s| - |t|]);
      [t[..n]] + Words(t[n..])
  }

  /** Everything `str.split()` yields is a word. */
  lemma {:induction false} WordsAreWords(s: string)
    ensures forall w :: w in Words(s) ==> IsWord(w)
    decreases |s|
  {
    var t := LStrip(s);
    if t != [] {
      var n := WordLen(t);
      FirstWord(t);
      var rest := Words(t[n..]);
      WordsAreWords(t[n..]);
      assert Words(s) == [t[..n]] + rest;
    }
  }

  /** Text that starts with a non-space character starts with a word. */
  lemma FirstWord(t: string)
    requires t != [] && !IsSpace(t[0])
    ensures IsWord(t[..WordLen(t)])
  {
  }

  /** Concatenation regroups freely. */
  lemma SeqAssoc<T>(x: seq<T>, y: seq<T>, z: seq<T>)
    ensures x + (y + z) == (x + y) + z
  {
  }

  /** `sep.join(parts)`. */
  function Join(sep: string, parts: seq<string>): string {
    if parts == [] then ""
    else if |parts| == 1 then parts[0]
    else parts[0] + sep + Join(sep, parts[1..])
  }

  /** `s.split(sep)` for a one-character separator: never empty, and no field holds `sep`. */
  function Split(s: string, sep: char): (fields: seq<string>)
    ensures |fields| >= 1
    ensures forall i :: 0 <= i < |fields| ==> sep !in fields[i]
  {
    if s == [] then [""]
    else
      var rest := Split(s[1..], sep);
      if s[0] == sep then [""] + rest else [[s[0]] + rest[0]] + rest[1..]
  }

  /** Length of the leading run of characters that are not line breaks. */
  function LineLen(s: string): (n: nat)
    ensures n <= |s|
    ensures forall i :: 0 <= i < n ==> !IsLineBreak(s[i])
    ensures n < |s| ==> IsLineBreak(s[n])
  {
    if s == [] || IsLineBreak(s[0]) then 0 else 1 + LineLen(s[1..])
  }

  /**
   * `str.splitlines()`: "\r\n" counts as one break, a final break opens no
   * extra line, and the empty string has no lines.
   */
  function SplitLines(s: string): (lines: seq<string>)
    ensures forall i, j :: 0 <= i < |lines| && 0 <= j < |lines[i]| ==> !IsLineBreak(lines[i][j])
    ensures s != [] ==> lines != []
    decreases |s|
  {
    if s == [] then []
    else
      var n := LineLen(s);
      if n == |s| then [s]
      else
        var next := if s[n] == '\r' && n + 1 < |s| && s[n + 1] == '\n' then n + 2 else n + 1;
        [s[..n]] + SplitLines(s[next..])
  }

  /** One leading space makes no difference to `str.split()`. */
  lemma WordsSkipSpace(s: string)
    ensures Words([' '] + s) == Words(s)
  {
    assert ([' '] + s)[1..] == s;
    assert LStrip([' '] + s) == LStrip(s);
  }

  /** A word followed by nothing or by whitespace is the first thing `str.split()` yields. */
  lemma WordsOfWordThen(w: string, rest: string)
    requires IsWord(w)
    requires rest == [] || IsSpace(rest[0])
    ensures Words(w + rest) == [w] + Words(rest)
  {
    var j := w + rest;
    assert j[0] == w[0];
    assert LStrip(j) == j;
    var n := WordLen(j);
    assert forall i :: 0 <= i < |w| ==> j[i] == w[i];
    assert rest != [] ==> j[|w|] == rest[0];
    assert n == |w|;
    assert j[..n] == w && j[n..] == rest;
  }

  /** `" ".join` then `str.split()` gives the words back: the two are inverse on words. */
  lemma WordsOfOne(w: string)
    requires IsWord(w)
    ensures Words(Join(" ", [w])) == [w]
  {
    assert Join(" ", [w]) == w;
    assert w + "" == w;
    WordsOfWordThen(w, "");
    assert Words("") == [] by {
      assert AllSpace("");
    }
  }

  lemma {:induction false} WordsOfJoin(ws: seq<string>)
    requires forall i :: 0 <= i < |ws| ==> IsWord(ws[i])
    ensures Words(Join(" ", ws)) == ws
  {
    if ws == [] {
      assert Words("") == [];
    } else if |ws| == 1 {
      WordsOfOne(ws[0]);
    } else {
      WordsOfJoin(ws[1..]);
      WordsOfCons(ws);
    }
  }

  lemma WordsOfCons(ws: seq<string>)
    requires |ws| > 1 && IsWord(ws[0])
    ensures Words(Join(" ", ws)) == [ws[0]] + Words(Join(" ", ws[1..]))
  {
    var w := ws[0];
    var rest := Join(" ", ws[1..]);
    assert Join(" ", ws) == w + ([' '] + rest) by {
      assert Join(" ", ws) == w + " " + rest;
    }
    WordsOfWordThen(w, [' '] + rest);
    WordsSkipSpace(rest);
  }

  /** `sep.join(s.split(sep)) == s`: splitting loses nothing. */
  lemma {:induction false} JoinSplit(s: string, sep: char)
    ensures Join([sep], Split(s, sep)) == s
  {
    if s != [] {
      var rest := Split(s[1..], sep);
      JoinSplit(s[1..], sep);
      if s[0] == sep {
        assert Join([sep], [""] + rest) == "" + [sep] + Join([sep], rest);
      } else if |rest| == 1 {
        assert Split(s, sep) == [[s[0]] + rest[0]];
      } else {
        var parts := Split(s, sep);
        assert parts[1..] == rest[1..];
        assert Join([sep], rest) == rest[0] + [sep] + Join([sep], rest[1..]);
      }
    }
  }

  /** A character found in neither the separator nor any part is not in the join. */
  lemma {:induction false} JoinAvoids(sep: string, parts: seq<string>, c: char)
    requires c !in sep
    requires forall i :: 0 <= i < |parts| ==> c !in parts[i]
    ensures c !in Join(sep, parts)
  {
    if |parts| > 1 {
      JoinAvoids(sep, parts[1..], c);
    }
  }

  /** Joining blank parts with a blank separator gives blank text. */
  lemma {:induction false} JoinOfSpace(sep: string, parts: seq<string>)
    requires AllSpace(sep)
    requires forall i :: 0 <= i < |parts| ==> AllSpace(parts[i])
    ensures AllSpace(Join(sep, parts))
  {
    if |parts| > 1 {
      JoinOfSpace(sep, parts[1..]);
    }
  }

  /** Every line of blank text is blank. */
  lemma {:induction false} LinesOfSpace(s: string)
    requires AllSpace(s)
    ensures forall i :: 0 <= i < |SplitLines(s)| ==> AllSpace(SplitLines(s)[i])
    decreases |s|
  {
    if s != [] {
      var n := LineLen(s);
      if n == |s| {
        assert SplitLines(s) == [s];
      } else {
        var next := if s[n] == '\r' && n + 1 < |s| && s[n + 1] == '\n' then n + 2 else n + 1;
        var rest := SplitLines(s[next..]);
        assert AllSpace(s[next..]) && AllSpace(s[..n]);
        LinesOfSpace(s[next..]);
        assert SplitLines(s) == [s[..n]] + rest;
        forall i | 0 <= i < |SplitLines(s)| ensures AllSpace(SplitLines(s)[i]) {
          if i > 0 {
            assert SplitLines(s)[i] == rest[i - 1];
          }
        }
      }
    }
  }

  // ----- what `str.split()` and `str.splitlines()` mean -----

  /** Words laid out between whitespace gaps: `gaps[0] + ws[0] + gaps[1] + ... + ws[n-1] + gaps[n]`. */
  function Spread(ws: seq<string>, gaps: seq<string>): string
    requires |gaps| == |ws| + 1
    decreases |ws|
  {
    if ws == [] then gaps[0] else gaps[0] + ws[0] + Spread(ws[1..], gaps[1..])
  }

  /** Gaps of whitespace, every inner one non-empty (the outer two may be empty). */
  predicate Separators(gaps: seq<string>)
    decreases |gaps|
  {
    gaps != [] ==>
      && AllSpace(gaps[0])
      && (|gaps| > 2 ==> gaps[1] != [])
      && Separators(gaps[1..])
  }

  /** Leading whitespace makes no difference to `lstrip`. */
  lemma {:induction false} LStripSpaces(g: string, s: string)
    requires AllSpace(g)
    ensures LStrip(g + s) == LStrip(s)
    decreases |g|
  {
    if g == [] {
      assert g + s == s;
    } else {
      assert (g + s)[0] == g[0] && (g + s)[1..] == g[1..] + s;
      LStripSpaces(g[1..], s);
    }
  }

  /** Leading whitespace makes no difference to `str.split()`. */
  lemma WordsSkipSpaces(g: string, s: string)
    requires AllSpace(g)
    ensures Words(g + s) == Words(s)
  {
    LStripSpaces(g, s);
  }

  /** The gaps after the first are separators too. */
  lemma SeparatorsTail(gaps: seq<string>)
    requires gaps != [] && Separators(gaps)
    ensures Separators(gaps[1..])
  {
  }

  /** A whitespace gap in front of separators, non-empty when more follow, gives separators. */
  lemma SeparatorsCons(g: string, gaps: seq<string>)
    requires AllSpace(g) && Separators(gaps)
    requires |gaps| > 1 ==> gaps[0] != []
    ensures Separators([g] + gaps)
  {
    assert ([g] + gaps)[1..] == gaps;
  }

  /** Spread text starts with whitespace, or is empty, when its first gap is non-empty or there are no words. */
  lemma SpreadStart(ws: seq<string>, gaps: seq<string>)
    requires |gaps| == |ws| + 1 && AllSpace(gaps[0])
    requires ws != [] ==> gaps[0] != []
    ensures Spread(ws, gaps) == [] || IsSpace(Spread(ws, gaps)[0])
  {
    if ws != [] {
      assert Spread(ws, gaps)[0] == gaps[0][0];
    }
  }

  /**
   * Words separated by any non-empty runs of whitespace, with any whitespace
   * before and after, are split back into exactly those words.
   */
  lemma {:induction false} WordsOfSpread(ws: seq<string>, gaps: seq<string>)
    requires |gaps| == |ws| + 1 && Separators(gaps)
    requires forall i :: 0 <= i < |ws| ==> IsWord(ws[i])
    ensures Words(Spread(ws, gaps)) == ws
    decreases |ws|
  {
    if ws == [] {
      assert AllSpace(gaps[0]);
    } else {
      var rest := Spread(ws[1..], gaps[1..]);
      assert Words(rest) == ws[1..] by {
        SeparatorsTail(gaps);
        WordsOfSpread(ws[1..], gaps[1..]);
      }
      assert rest == [] || IsSpace(rest[0]) by {
        SeparatorsTail(gaps);
        SpreadStart(ws[1..], gaps[1..]);
      }
      assert Words(ws[0] + rest) == [ws[0]] + Words(rest) by {
        WordsOfWordThen(ws[0], rest);
      }
      assert Words(gaps[0] + (ws[0] + rest)) == Words(ws[0] + rest) by {
        WordsSkipSpaces(gaps[0], ws[0] + rest);
      }
      assert Spread(ws, gaps) == gaps[0] + (ws[0] + rest) by {
        SeqAssoc(gaps[0], ws[0], rest);
      }
      ConsTail(ws);
    }
  }

  /** A non-empty sequence is its head followed by its tail. */
  lemma ConsTail<T>(x: seq<T>)
    requires x != []
    ensures [x[0]] + x[1..] == x
  {
  }

  /** The whitespace gaps around and between the words of `s`. */
  function GapsOf(s: string): (gaps: seq<string>)
    ensures gaps != [] && gaps[0] == s[..|s| - |LStrip(s)|]
    decreases |s|
  {
    var t := LStrip(s);
    if t == [] then [s]
    else [s[..|s| - |t|]] + GapsOf(t[WordLen(t)..])
  }

  /** Lstrip of text starting with whitespace removes at least that character. */
  lemma LStripShortens(s: string)
    requires s != [] && IsSpace(s[0])
    ensures |LStrip(s)| < |s|
  {
  }

  /** After the first word comes whitespace, so the next gap is non-empty when a word follows. */
  lemma NextGap(t: string)
    requires t != [] && !IsSpace(t[0])
    ensures Words(t[WordLen(t)..]) != [] ==> GapsOf(t[WordLen(t)..])[0] != []
  {
    var tail := t[WordLen(t)..];
    if Words(tail) != [] {
      LStripShortens(tail);
    }
  }

  /**
   * Every text is its words spread between whitespace gaps, so with
   * `WordsOfSpread` the words `str.split()` yields are exactly the maximal
   * runs of non-space characters of `s`, in order.
   */
  lemma {:induction false} SpreadOfWords(s: string)
    ensures |GapsOf(s)| == |Words(s)| + 1 && Separators(GapsOf(s))
    ensures s == Spread(Words(s), GapsOf(s))
    decreases |s|
  {
    var t := LStrip(s);
    if t != [] {
      var lead, w, tail := s[..|s| - |t|], t[..WordLen(t)], t[WordLen(t)..];
      var ws, gaps := Words(tail), GapsOf(tail);
      assert Words(s) == [w] + ws && GapsOf(s) == [lead] + gaps by {
        WordStep(s);
      }
      assert |gaps| == |ws| + 1 && Separators(gaps) && tail == Spread(ws, gaps) by {
        SpreadOfWords(tail);
      }
      assert |gaps| > 1 ==> gaps[0] != [] by {
        NextGap(t);
      }
      assert s == lead + (w + tail) by {
        Pieces(s, |s| - |t|, WordLen(t));
      }
      SpreadStep(s, lead, w, tail, ws, gaps);
    }
  }

  /** One step of `Words` and `GapsOf`: the first gap, the first word, and the rest. */
  lemma WordStep(s: string)
    requires LStrip(s) != []
    ensures Words(s) == [LStrip(s)[..WordLen(LStrip(s))]] + Words(LStrip(s)[WordLen(LStrip(s))..])
    ensures GapsOf(s) == [s[..|s| - |LStrip(s)|]] + GapsOf(LStrip(s)[WordLen(LStrip(s))..])
  {
    var t := LStrip(s);
    assert Words(s) == [t[..WordLen(t)]] + Words(t[WordLen(t)..]);
  }

  /** A sequence cut in three at `k` and `k + n`. */
  lemma Pieces<T>(s: seq<T>, k: nat, n: nat)
    requires k + n <= |s|
    ensures s == s[..k] + (s[k..][..n] + s[k..][n..])
  {
    assert s[k..][..n] + s[k..][n..] == s[k..];
  }

  /** Putting the first gap and the first word in front of a spread tail. */
  lemma SpreadStep(s: string, lead: string, w: string, rest: string, ws: seq<string>, gaps: seq<string>)
    requires s == lead + (w + rest) && AllSpace(lead)
    requires |gaps| == |ws| + 1 && Separators(gaps) && rest == Spread(ws, gaps)
    requires |gaps| > 1 ==> gaps[0] != []
    ensures Separators([lead] + gaps)
    ensures s == Spread([w] + ws, [lead] + gaps)
  {
    SeparatorsCons(lead, gaps);
    SpreadCons(w, lead, ws, gaps);
    SeqAssoc(lead, w, rest);
  }

  lemma SpreadCons(w: string, g: string, ws: seq<string>, gaps: seq<string>)
    requires |gaps| == |ws| + 1
    ensures Spread([w] + ws, [g] + gaps) == g + w + Spread(ws, gaps)
  {
    assert ([w] + ws)[1..] == ws && ([g] + gaps)[1..] == gaps;
  }

  /** A line without breaks, followed by a break, is exactly the first line. */
  lemma LineLenAt(a: string, b: string)
    requires forall i :: 0 <= i < |a| ==> !IsLineBreak(a[i])
    requires b != [] && IsLineBreak(b[0])
    ensures LineLen(a + b) == |a|
  {
    assert forall i :: 0 <= i < |a| ==> (a + b)[i] == a[i];
    assert (a + b)[|a|] == b[0];
  }

  /**
   * `"\n".join(lines).splitlines() == lines` for lines without breaks, the
   * last of them non-empty: the lines of a text are its pieces between breaks.
   */
  lemma {:induction false} LinesOfJoin(lines: seq<string>)
    requires forall k, i :: 0 <= k < |lines| && 0 <= i < |lines[k]| ==> !IsLineBreak(lines[k][i])
    requires lines == [] || lines[|lines| - 1] != []
    ensures SplitLines(Join("\n", lines)) == lines
    decreases |lines|
  {
    if |lines| == 1 {
      var s := lines[0];
      assert Join("\n", lines) == s;
    } else if |lines| > 1 {
      var rest := Join("\n", lines[1..]);
      var s := lines[0] + ("\n" + rest);
      assert Join("\n", lines) == s by {
        SeqAssoc(lines[0], "\n", rest);
      }
      assert LineLen(s) == |lines[0]| by {
        LineLenAt(lines[0], "\n" + rest);
      }
      assert SplitLines(rest) == lines[1..] by {
        LinesOfJoin(lines[1..]);
      }
      assert s[..|lines[0]|] == lines[0] && s[|lines[0]| + 1..] == rest;
      assert SplitLines(s) == [lines[0]] + SplitLines(rest);
      ConsTail(lines);
    }
  }

  /** A string holding `p` at index `k` contains `p`. */
  lemma ContainsAt(s: string, p: string, k: nat)
    requires k <= |s| && StartsWith(s[k..], p)
    ensures Contains(s, p)
  {
  }
}
