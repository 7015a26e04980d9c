/** `formatName` (src/utils/formatName.js): the normalisation applied to a
    category or brand name before it is stored in a company's metadata. The
    source chain is trim, collapse every whitespace run to one space, split on
    ' ', capitalise each piece, join with ' '. Case mapping is ASCII only. */
module FormatName {
  import opened Common
  import opened Text

  /** `str.replace(/\s+/g, ' ')`: every maximal run of whitespace becomes one space. */
  function Collapse(s: string): string
    decreases |s|
  {
    if |s| == 0 then ""
    else if IsSpace(s[0]) then
      var rest := TrimStart(s[1..]);
      " " + Collapse(rest)
    else [s[0]] + Collapse(s[1..])
  }

  /** `str.split(' ')`: the pieces between single spaces; the empty string
      splits into one empty piece. */
  function SplitSpace(s: string): (r: seq<string>)
    ensures |r| >= 1
  {
    if |s| == 0 then [""]
    else if s[0] == ' ' then [""] + SplitSpace(s[1..])
    else
      var t := SplitSpace(s[1..]);
      [[s[0]] + t[0]] + t[1..]
  }

  /** `word.charAt(0).toUpperCase() + word.slice(1).toLowerCase()` */
  function Capitalize(w: string): string
  {
    if |w| == 0 then "" else [ToUpper(w[0])] + LowerStr(w[1..])
  }

  /** `words.map(capitalise)` */
  function CapitalizeAll(ws: seq<string>): seq<string>
  {
    seq(|ws|, i requires 0 <= i < |ws| => Capitalize(ws[i]))
  }

  /** `words.join(' ')` */
  function Join(ws: seq<string>): string
  {
    if |ws| == 0 then ""
    else if |ws| == 1 then ws[0]
    else ws[0] + " " + Join(ws[1..])
  }

  /** formatName(name): a missing or empty name gives ''. */
  function Format(name: Option<string>): string
  {
    match name
    case None => ""
    case Some(s) =>
      if s == "" then ""
      else Join(CapitalizeAll(SplitSpace(Collapse(Trim(s)))))
  }

  // ---------------------------------------------------------------------
  // The reference meaning: the whitespace-separated words of a string.

  /** The leading run of non-whitespace characters. */
  function TakeWord(s: string): (w: string)
    ensures |w| <= |s| && w == s[..|w|] && NoSpace(w)
    ensures |w| < |s| ==> IsSpace(s[|w|])
    ensures |s| > 0 && !IsSpace(s[0]) ==> |w| > 0
  {
    if |s| == 0 || IsSpace(s[0]) then "" else [s[0]] + TakeWord(s[1..])
  }

  /** The maximal runs of non-whitespace characters of `s`, in order. */
  function Words(s: string): (ws: seq<string>)
    ensures forall i :: 0 <= i < |ws| ==> |ws[i]| > 0 && NoSpace(ws[i])
    decreases |s|
  {
    if |s| == 0 then []
    else if IsSpace(s[0]) then Words(s[1..])
    else
      var w := TakeWord(s);
      [w] + Words(s[|w|..])
  }

  /** Words that a join can separate again: non-empty and free of whitespace. */
  ghost predicate Separable(ws: seq<string>)
  {
    forall i :: 0 <= i < |ws| ==> |ws[i]| > 0 && NoSpace(ws[i])
  }

  /** A string whose only whitespace is single spaces strictly inside it. */
  ghost predicate SingleSpaced(r: string)
  {
    forall i :: 0 <= i < |r| && IsSpace(r[i]) ==>
      r[i] == ' ' && 0 < i < |r| - 1 && !IsSpace(r[i - 1]) && !IsSpace(r[i + 1])
  }

  // ---------------------------------------------------------------------
  // The source chain computes exactly the capitalised words.

  lemma {:induction false} WordsSkipSpaces(s: string)
    ensures Words(TrimStart(s)) == Words(s)
  {
    if |s| > 0 && IsSpace(s[0]) { WordsSkipSpaces(s[1..]); }
  }

  lemma {:induction false} TakeWordTrailing(x: string, sp: string)
    requires AllSpace(sp)
    ensures TakeWord(x + sp) == TakeWord(x)
  {
    if |x| > 0 && !IsSpace(x[0]) {
      assert (x + sp)[1..] == x[1..] + sp;
      TakeWordTrailing(x[1..], sp);
    } else if |x| == 0 {
      assert x + sp == sp;
    }
  }

  lemma {:induction false} WordsTrailing(x: string, sp: string)
    requires AllSpace(sp)
    ensures Words(x + sp) == Words(x)
    decreases |x|
  {
    if |x| == 0 {
      assert x + sp == sp;
      AllSpaceWords(sp);
    } else if IsSpace(x[0]) {
      assert (x + sp)[1..] == x[1..] + sp;
      WordsTrailing(x[1..], sp);
    } else {
      TakeWordTrailing(x, sp);
      var w := TakeWord(x);
      assert (x + sp)[|w|..] == x[|w|..] + sp;
      WordsTrailing(x[|w|..], sp);
    }
  }

  lemma {:induction false} AllSpaceWords(sp: string)
    requires AllSpace(sp)
    ensures Words(sp) == []
  {
    if |sp| > 0 { AllSpaceWords(sp[1..]); }
  }

  lemma {:induction false} WordsTrimEnd(s: string)
    ensures Words(TrimEnd(s)) == Words(s)
  {
    if |s| > 0 && IsSpace(s[|s| - 1]) {
      var p := s[..|s| - 1];
      WordsTrimEnd(p);
      assert s == p + [s[|s| - 1]];
      WordsTrailing(p, [s[|s| - 1]]);
    }
  }

  lemma WordsTrim(s: string)
    ensures Words(Trim(s)) == Words(s)
  {
    WordsSkipSpaces(s);
    WordsTrimEnd(TrimStart(s));
  }

  /** A word is unchanged by collapsing and followed by the collapse of the rest. */
  lemma {:induction false} CollapseWordPrefix(w: string, x: string)
    requires NoSpace(w)
    ensures Collapse(w + x) == w + Collapse(x)
  {
    if |w| > 0 {
      var y := w + x;
      assert y[0] == w[0] && !IsSpace(y[0]);
      assert y[1..] == w[1..] + x;
      assert Collapse(y) == [w[0]] + Collapse(y[1..]);
      CollapseWordPrefix(w[1..], x);
      assert [w[0]] + (w[1..] + Collapse(x)) == w + Collapse(x);
    } else {
      assert w + x == x;
    }
  }

  /** Leading whitespace removed from a text that ends in a non-space leaves
      a non-empty text with the same last character. */
  lemma {:induction false} TrimStartKeepsLast(x: string)
    requires |x| > 0 && !IsSpace(x[|x| - 1])
    ensures |TrimStart(x)| > 0 && TrimStart(x)[|TrimStart(x)| - 1] == x[|x| - 1]
  {
    if IsSpace(x[0]) {
      assert x[1..][|x| - 2] == x[|x| - 1];
      TrimStartKeepsLast(x[1..]);
    }
  }

  lemma WordsSpace(rest: string)
    requires |rest| > 0 && IsSpace(rest[0])
    ensures Words(rest) == Words(TrimStart(rest[1..]))
  {
    WordsSkipSpaces(rest[1..]);
  }

  lemma WordsFirst(s: string)
    requires |s| > 0 && !IsSpace(s[0])
    ensures Words(s) == [TakeWord(s)] + Words(s[|TakeWord(s)|..])
  {
  }

  /** What follows the first word of `s`, past the whitespace after it. */
  function AfterWord(s: string): string
    requires |TakeWord(s)| < |s|
  {
    TrimStart(s[|TakeWord(s)| + 1..])
  }

  /** A trimmed text that does not stop after its first word continues with a
      run of spaces and then a shorter trimmed text. */
  lemma AfterWordTrimmed(s: string)
    requires |s| > 0 && !IsSpace(s[|s| - 1])
    requires |TakeWord(s)| < |s|
    ensures 0 < |AfterWord(s)| < |s|
    ensures !IsSpace(AfterWord(s)[0]) && !IsSpace(AfterWord(s)[|AfterWord(s)| - 1])
  {
    var k := |TakeWord(s)|;
    assert IsSpace(s[k]);
    assert k + 1 < |s|;
    var tail := s[k + 1..];
    assert tail[|tail| - 1] == s[|s| - 1];
    TrimStartKeepsLast(tail);
  }

  lemma AfterWordWords(s: string)
    requires |s| > 0 && !IsSpace(s[0])
    requires |TakeWord(s)| < |s|
    ensures Words(s) == [TakeWord(s)] + Words(AfterWord(s))
  {
    var rest := s[|TakeWord(s)|..];
    assert rest[1..] == s[|TakeWord(s)| + 1..];
    WordsFirst(s);
    WordsSpace(rest);
  }

  lemma AfterWordCollapse(s: string)
    requires |s| > 0 && !IsSpace(s[0])
    requires |TakeWord(s)| < |s|
    ensures Collapse(s) == TakeWord(s) + " " + Collapse(AfterWord(s))
  {
    var w := TakeWord(s);
    var k := |w|;
    var x := s[k..];
    var tail := s[k + 1..];
    assert x[1..] == tail;
    assert s == w + x by { assert s == s[..k] + s[k..]; }
    CollapseWordSpace(w, x);
    assert AfterWord(s) == TrimStart(tail);
  }

  /** A word followed by whitespace collapses to the word, one space and the
      collapse of what follows the whitespace. */
  lemma CollapseWordSpace(w: string, x: string)
    requires NoSpace(w) && |x| > 0 && IsSpace(x[0])
    ensures Collapse(w + x) == w + " " + Collapse(TrimStart(x[1..]))
  {
    CollapseWordPrefix(w, x);
  }

  /** Trimmed text collapses to its words joined by single spaces. */
  lemma {:induction false} CollapseTrimmed(s: string)
    requires s == [] || (!IsSpace(s[0]) && !IsSpace(s[|s| - 1]))
    ensures Collapse(s) == Join(Words(s))
    decreases |s|
  {
    if |s| > 0 {
      var w := TakeWord(s);
      if |w| == |s| {
        assert s == w + "";
        CollapseWordPrefix(w, "");
        assert s[|w|..] == "";
        assert Words(s) == [w];
      } else {
        var t := AfterWord(s);
        AfterWordTrimmed(s);
        AfterWordWords(s);
        AfterWordCollapse(s);
        CollapseTrimmed(t);
        var ws := Words(t);
        assert |ws| > 0;
        assert ([w] + ws)[1..] == ws;
      }
    }
  }

  lemma {:induction false} SplitWord(w: string, tail: seq<string>, t: string)
    requires NoSpace(w)
    requires SplitSpace(t) == tail
    ensures SplitSpace(w + " " + t) == [w] + tail
  {
    if |w| == 0 {
      assert w + " " + t == " " + t;
      assert (" " + t)[1..] == t;
    } else {
      assert (w + " " + t)[0] == w[0];
      assert (w + " " + t)[1..] == w[1..] + " " + t;
      SplitWord(w[1..], tail, t);
      assert [w[0]] + w[1..] == w;
    }
  }

  lemma {:induction false} SplitLoneWord(w: string)
    requires NoSpace(w)
    ensures SplitSpace(w) == [w]
  {
    if |w| > 0 {
      SplitLoneWord(w[1..]);
      assert [w[0]] + w[1..] == w;
    }
  }

  /** Splitting a join of separable words gives the words back. */
  lemma {:induction false} SplitJoin(ws: seq<string>)
    requires |ws| > 0 && Separable(ws)
    ensures SplitSpace(Join(ws)) == ws
  {
    if |ws| == 1 {
      SplitLoneWord(ws[0]);
    } else {
      SplitJoin(ws[1..]);
      SplitWord(ws[0], ws[1..], Join(ws[1..]));
    }
  }

  /** The source chain equals "capitalise each whitespace-separated word and
      join them with single spaces". */
  lemma FormatIsCapitalizedWords(s: string)
    ensures Format(Some(s)) == Join(CapitalizeAll(Words(s)))
  {
    if s != "" {
      var t := Trim(s);
      WordsTrim(s);
      CollapseTrimmed(t);
      var c := Collapse(t);
      assert c == Join(Words(s));
      if Words(s) == [] {
        assert SplitSpace(c) == [""];
        assert CapitalizeAll([""]) == [""];
      } else {
        SplitJoin(Words(s));
        assert SplitSpace(c) == Words(s);
      }
    }
  }

  // ---------------------------------------------------------------------
  // Properties of joined words.

  lemma CapitalizeSeparable(w: string)
    requires |w| > 0 && NoSpace(w)
    ensures |Capitalize(w)| == |w| && NoSpace(Capitalize(w))
  {
  }

  lemma {:induction false} CapitalizeIdempotent(w: string)
    ensures Capitalize(Capitalize(w)) == Capitalize(w)
  {
    if |w| > 0 {
      var c := Capitalize(w);
      assert c[0] == ToUpper(w[0]);
      assert c[1..] == LowerStr(w[1..]);
      assert LowerStr(c[1..]) == c[1..];
    }
  }

  lemma {:induction false} TakeWordJoin(w: string, rest: string)
    requires |w| > 0 && NoSpace(w)
    ensures TakeWord(w + " " + rest) == w
  {
    if |w| == 1 {
      assert (w + " " + rest)[1..] == " " + rest;
      assert [w[0]] == w;
    } else {
      assert (w + " " + rest)[1..] == w[1..] + " " + rest;
      TakeWordJoin(w[1..], rest);
      assert [w[0]] + w[1..] == w;
    }
  }

  /** The words of a join of separable words are those words. */
  lemma {:induction false} WordsJoin(ws: seq<string>)
    requires Separable(ws)
    ensures Words(Join(ws)) == ws
  {
    if |ws| == 1 {
      LoneWords(ws[0]);
    } else if |ws| > 1 {
      var w := ws[0];
      var rest := Join(ws[1..]);
      var s := Join(ws);
      assert s == w + " " + rest;
      TakeWordJoin(w, rest);
      assert Words(s) == [w] + Words(s[|w|..]);
      assert s[|w|..] == " " + rest;
      assert Words(" " + rest) == Words(rest) by { assert (" " + rest)[1..] == rest; }
      WordsJoin(ws[1..]);
      assert ws == [w] + ws[1..];
    }
  }

  /** A lone non-empty word is its only word. */
  lemma LoneWords(w: string)
    requires |w| > 0 && NoSpace(w)
    ensures Words(w) == [w]
  {
    LoneTakeWord(w);
    assert w[|w|..] == "";
  }

  lemma {:induction false} LoneTakeWord(w: string)
    requires NoSpace(w)
    ensures TakeWord(w) == w
  {
    if |w| > 0 {
      LoneTakeWord(w[1..]);
      assert [w[0]] + w[1..] == w;
    }
  }

  lemma {:induction false} JoinSingleSpaced(ws: seq<string>)
    requires Separable(ws)
    ensures SingleSpaced(Join(ws))
    ensures |ws| > 0 ==> |Join(ws)| > 0
  {
    if |ws| > 1 {
      JoinSingleSpaced(ws[1..]);
      var w := ws[0];
      var t := Join(ws[1..]);
      var r := w + " " + t;
      forall i | 0 <= i < |r| && IsSpace(r[i])
        ensures r[i] == ' ' && 0 < i < |r| - 1 && !IsSpace(r[i - 1]) && !IsSpace(r[i + 1])
      {
        if i > |w| {
          assert r[i] == t[i - |w| - 1];
          if i - |w| - 1 == 0 { assert false; }
        }
      }
    }
  }

  lemma CapitalizeAllSeparable(ws: seq<string>)
    requires Separable(ws)
    ensures Separable(CapitalizeAll(ws))
  {
    forall i | 0 <= i < |ws| ensures |CapitalizeAll(ws)[i]| > 0 && NoSpace(CapitalizeAll(ws)[i]) {
      CapitalizeSeparable(ws[i]);
    }
  }

  // ---------------------------------------------------------------------
  // The promises of formatName.

  /** A missing or empty name formats to ''. */
  lemma FormatFalsy(name: Option<string>)
    requires name.None? || name.value == ""
    ensures Format(name) == ""
  {
  }

  /** The result has no whitespace at either end, and its only whitespace is
      single spaces between words; it has exactly as many words as the input,
      each the capitalised input word. */
  lemma FormatShape(s: string)
    ensures SingleSpaced(Format(Some(s)))
    ensures Words(Format(Some(s))) == CapitalizeAll(Words(s))
    ensures |Words(Format(Some(s)))| == |Words(s)|
  {
    FormatIsCapitalizedWords(s);
    CapitalizeAllSeparable(Words(s));
    JoinSingleSpaced(CapitalizeAll(Words(s)));
    WordsJoin(CapitalizeAll(Words(s)));
  }

  /** A capitalised word starts with a character that is not a lower-case
      letter and continues with no upper-case letter. */
  lemma CapitalizedShape(w: string)
    requires |w| > 0
    ensures |Capitalize(w)| > 0 && !('a' <= Capitalize(w)[0] <= 'z')
    ensures forall j :: 1 <= j < |Capitalize(w)| ==> !('A' <= Capitalize(w)[j] <= 'Z')
  {
    var c := Capitalize(w);
    forall j | 1 <= j < |c| ensures !('A' <= c[j] <= 'Z') {
      assert c[j] == LowerStr(w[1..])[j - 1];
    }
  }

  /** Each word of the result is a capitalised word. */
  lemma FormatWordsCapitalized(s: string)
    ensures forall i :: 0 <= i < |Words(Format(Some(s)))| ==>
      var w := Words(Format(Some(s)))[i];
      |w| > 0 && !('a' <= w[0] <= 'z') && forall j :: 1 <= j < |w| ==> !('A' <= w[j] <= 'Z')
  {
    var ws := Words(s);
    var out := Words(Format(Some(s)));
    FormatShape(s);
    assert out == CapitalizeAll(ws);
    forall i | 0 <= i < |out|
      ensures |out[i]| > 0 && !('a' <= out[i][0] <= 'z') && forall j :: 1 <= j < |out[i]| ==> !('A' <= out[i][j] <= 'Z')
    {
      CapitalizedShape(ws[i]);
    }
  }

  /** Formatting an already formatted name changes nothing. */
  lemma FormatIdempotent(s: string)
    ensures Format(Some(Format(Some(s)))) == Format(Some(s))
  {
    var ws := Words(s);
    var r := Format(Some(s));
    FormatIsCapitalizedWords(s);
    FormatShape(s);
    FormatIsCapitalizedWords(r);
    CapitalizeAllIdempotent(ws);
  }

  lemma CapitalizeAllIdempotent(ws: seq<string>)
    ensures CapitalizeAll(CapitalizeAll(ws)) == CapitalizeAll(ws)
  {
    forall i | 0 <= i < |ws| ensures CapitalizeAll(CapitalizeAll(ws))[i] == CapitalizeAll(ws)[i] {
      CapitalizeIdempotent(ws[i]);
    }
  }

  /** A word of lower-case letters formats to itself with its first letter
      upper-cased. */
  lemma FormatLowercaseWord(w: string)
    requires |w| > 0 && forall i :: 0 <= i < |w| ==> 'a' <= w[i] <= 'z'
    ensures Format(Some(w)) == [ToUpper(w[0])] + w[1..]
  {
    assert NoSpace(w);
    FormatOneWord(w);
    LowerStrKeeps(w[1..]);
  }

  /** A single word formats to its capitalised form. */
  lemma FormatOneWord(w: string)
    requires |w| > 0 && NoSpace(w)
    ensures Format(Some(w)) == Capitalize(w)
  {
    FormatIsCapitalizedWords(w);
    LoneTakeWord(w);
    assert w[|w|..] == "";
    assert Words(w) == [w];
  }
}
