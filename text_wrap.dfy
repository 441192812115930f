/** The quote card's text layout: `wrap_text_by_width` and the height check
    that follows it. The drawn width of a string depends on a font, so it is
    a parameter: `fits(s)` says whether `s` is at most the allowed width. */
module QuoteText {
  import PyStr

  /** The characters `str.splitlines` breaks at. */
  predicate IsLineBreak(c: char)
  {
    c == '\n' || c == '\r' || c == '\U{0b}' || c == '\U{0c}' || ('\U{1c}' <= c <= '\U{1e}') ||
    c == '\U{85}' || c == '\U{2028}' || c == '\U{2029}'
  }

  /** Every line break is whitespace. */
  lemma {:induction false} LineBreakIsSpace(c: char)
    requires IsLineBreak(c)
    ensures PyStr.IsSpace(c)
  {
  }

  /** The index of the first line break of `s`, or `|s|`. */
  function BreakIndex(s: string): (i: nat)
    ensures i <= |s|
    ensures i < |s| ==> IsLineBreak(s[i])
  {
    if s == [] || IsLineBreak(s[0]) then 0 else 1 + BreakIndex(s[1..])
  }

  /** `s.splitlines()`: the pieces between line breaks, `\r\n` counting as
      one break; a final break does not start an extra empty line. */
  function Paragraphs(s: string): seq<string>
    decreases |s|
  {
    if s == [] then []
    else
      var i := BreakIndex(s);
      if i == |s| then [s]
      else
        [s[..i]] + Paragraphs(s[i + BreakLength(s, i)..])
  }

  /** A break is one character, or two for `\r\n`. */
  function BreakLength(s: string, i: nat): (n: nat)
    requires i < |s|
    ensures 1 <= n <= |s| - i
  {
    if s[i] == '\r' && i + 1 < |s| && s[i + 1] == '\n' then 2 else 1
  }

  /** The number of leading non-whitespace characters. */
  function WordLength(t: string): (n: nat)
    ensures n <= |t|
    ensures t != [] && !PyStr.IsSpace(t[0]) ==> n >= 1
  {
    if t == [] || PyStr.IsSpace(t[0]) then 0 else 1 + WordLength(t[1..])
  }

  /** `s.split()`: the maximal runs of non-whitespace characters. */
  function Words(s: string): seq<string>
    decreases |s|
  {
    var a := PyStr.LeadingSpaces(s);
    if a == |s| then []
    else
      var t := s[a..];
      var n := WordLength(t);
      [t[..n]] + Words(t[n..])
  }

  /** The strings of `ls` written one after another. */
  function Concat(ls: seq<string>): string
  {
    if ls == [] then "" else ls[0] + Concat(ls[1..])
  }

  lemma {:induction false} ConcatAppend(a: seq<string>, b: seq<string>)
    ensures Concat(a + b) == Concat(a) + Concat(b)
  {
    if a == [] {
      assert a + b == b;
    } else {
      assert (a + b)[0] == a[0];
      assert (a + b)[1..] == a[1..] + b;
      ConcatAppend(a[1..], b);
    }
  }

  /** The non-whitespace characters of `s`, in order. */
  function Compact(s: string): string
  {
    if s == [] then "" else Compact(s[..|s| - 1]) + (if PyStr.IsSpace(s[|s| - 1]) then "" else [s[|s| - 1]])
  }

  lemma {:induction false} CompactAppend(a: string, b: string)
    ensures Compact(a + b) == Compact(a) + Compact(b)
    decreases |b|
  {
    if b == [] {
      assert a + b == a;
    } else {
      assert (a + b)[..|a + b| - 1] == a + b[..|b| - 1];
      assert (a + b)[|a + b| - 1] == b[|b| - 1];
      CompactAppend(a, b[..|b| - 1]);
    }
  }

  lemma {:induction false} CompactSpace(s: string)
    requires PyStr.AllSpace(s)
    ensures Compact(s) == ""
    decreases |s|
  {
    if s != [] {
      CompactSpace(s[..|s| - 1]);
    }
  }

  /** Whitespace around a string adds nothing to its compacted form. */
  lemma {:induction false} CompactAround(x: string, r: string, y: string)
    requires PyStr.AllSpace(x) && PyStr.AllSpace(y)
    ensures Compact(x + r + y) == Compact(r)
  {
    CompactAppend(x + r, y);
    CompactAppend(x, r);
    CompactSpace(x);
    CompactSpace(y);
  }

  /** Stripping removes only whitespace. */
  lemma {:induction false} CompactStrip(s: string)
    ensures Compact(PyStr.Strip(s)) == Compact(s)
  {
    var r := PyStr.Strip(s);
    var i, j := PyStr.StripInfix(s);
    assert s == s[..i] + r + s[j..];
    CompactAround(s[..i], r, s[j..]);
  }

  lemma {:induction false} ConcatCons(x: string, ys: seq<string>)
    ensures Concat([x] + ys) == x + Concat(ys)
  {
    assert ([x] + ys)[0] == x;
    assert ([x] + ys)[1..] == ys;
  }

  lemma {:induction false} ConcatSingle(x: string)
    ensures Concat([x]) == x
  {
    assert [x][1..] == [];
    assert x + "" == x;
  }

  /** Whitespace between two strings adds nothing to the compacted form. */
  lemma {:induction false} CompactGap(x: string, m: string, y: string)
    requires PyStr.AllSpace(m)
    ensures Compact(x + m + y) == Compact(x) + Compact(y)
  {
    CompactAppend(x + m, y);
    CompactAppend(x, m);
    CompactSpace(m);
  }

  /** The characters of a line break are whitespace. */
  lemma {:induction false} BreakGap(s: string, i: nat)
    requires i < |s| && IsLineBreak(s[i])
    ensures Compact(s) == Compact(s[..i]) + Compact(s[i + BreakLength(s, i)..])
  {
    var n := BreakLength(s, i);
    assert s == s[..i] + s[i..i + n] + s[i + n..];
    assert PyStr.AllSpace(s[i..i + n]) by {
      LineBreakIsSpace(s[i]);
    }
    CompactGap(s[..i], s[i..i + n], s[i + n..]);
  }

  /** The compacted form of a list whose head is `x`. */
  lemma {:induction false} CompactConcatCons(x: string, ys: seq<string>)
    ensures Compact(Concat([x] + ys)) == Compact(x) + Compact(Concat(ys))
  {
    ConcatCons(x, ys);
    CompactAppend(x, Concat(ys));
  }

  /** The first line, then the lines of what follows its break. */
  lemma {:induction false} ParagraphsHead(s: string, i: nat)
    requires s != [] && i == BreakIndex(s) < |s|
    ensures Compact(Concat(Paragraphs(s))) ==
            Compact(s[..i]) + Compact(Concat(Paragraphs(s[i + BreakLength(s, i)..])))
  {
    var rest := s[i + BreakLength(s, i)..];
    ParagraphsUnfold(s, i);
    CompactConcatCons(s[..i], Paragraphs(rest));
  }

  lemma {:induction false} ParagraphsUnfold(s: string, i: nat)
    requires s != [] && i == BreakIndex(s) < |s|
    ensures Paragraphs(s) == [s[..i]] + Paragraphs(s[i + BreakLength(s, i)..])
  {
  }

  lemma {:induction false} ParagraphsWhole(s: string)
    requires s != [] && BreakIndex(s) == |s|
    ensures Concat(Paragraphs(s)) == s
  {
    assert Paragraphs(s) == [s];
    ConcatSingle(s);
  }

  /** Splitting at line breaks loses only the breaks. */
  lemma {:induction false} ParagraphsCompact(s: string)
    ensures Compact(Concat(Paragraphs(s))) == Compact(s)
    decreases |s|
  {
    if s != [] {
      var i := BreakIndex(s);
      if i == |s| {
        ParagraphsWhole(s);
      } else {
        ParagraphsCompact(s[i + BreakLength(s, i)..]);
        ParagraphsHead(s, i);
        BreakGap(s, i);
      }
    }
  }

  /** Leading whitespace adds nothing to the compacted form. */
  lemma {:induction false} CompactLeading(s: string, a: nat)
    requires a <= |s| && PyStr.AllSpace(s[..a])
    ensures Compact(s) == Compact(s[a..])
  {
    assert s == [] + s[..a] + s[a..];
    CompactGap([], s[..a], s[a..]);
  }

  lemma {:induction false} CompactSplitAt(t: string, n: nat)
    requires n <= |t|
    ensures Compact(t) == Compact(t[..n]) + Compact(t[n..])
  {
    assert t == t[..n] + t[n..];
    CompactAppend(t[..n], t[n..]);
  }

  /** The first word, then the words of what follows it. */
  lemma {:induction false} WordsHead(s: string, a: nat, n: nat)
    requires a == PyStr.LeadingSpaces(s) < |s| && n == WordLength(s[a..])
    ensures Compact(Concat(Words(s))) == Compact(s[a..][..n]) + Compact(Concat(Words(s[a..][n..])))
  {
    var t := s[a..];
    assert Words(s) == [t[..n]] + Words(t[n..]);
    CompactConcatCons(t[..n], Words(t[n..]));
  }

  /** Splitting into words loses only whitespace. */
  lemma {:induction false} WordsCompact(s: string)
    ensures Compact(Concat(Words(s))) == Compact(s)
    decreases |s|
  {
    var a := PyStr.LeadingSpaces(s);
    CompactLeading(s, a);
    if a == |s| {
      assert Words(s) == [];
    } else {
      var n := WordLength(s[a..]);
      WordsCompact(s[a..][n..]);
      WordsHead(s, a, n);
      CompactSplitAt(s[a..], n);
    }
  }

  /** A paragraph of whitespace has no words. */
  lemma WordsOfSpace(s: string)
    requires PyStr.AllSpace(s)
    ensures Words(s) == []
  {
  }

  /** The lines produced so far, and the line being built. */
  datatype Wrapping = Wrapping(lines: seq<string>, current: string)

  /** The lines so far, followed by the current line when it is not empty:
      what `lines` holds once the current line is emitted. */
  function Flushed(s: Wrapping): seq<string>
  {
    if s.current != "" then s.lines + [s.current] else s.lines
  }

  /** One character of a word too wide for the line: it joins the part
      being built when that still fits, and otherwise starts a new part. */
  function CharStep(s: Wrapping, ch: char, fits: string -> bool): Wrapping
  {
    var test := s.current + [ch];
    if fits(test) then Wrapping(s.lines, test) else Wrapping(Flushed(s), [ch])
  }

  /** A word cut into parts character by character, from an empty part. */
  function CharSplit(w: string, fits: string -> bool): Wrapping
    decreases |w|
  {
    if w == [] then Wrapping([], "")
    else CharStep(CharSplit(w[..|w| - 1], fits), w[|w| - 1], fits)
  }

  /** One word: appended to the current line when the result fits;
      otherwise the current line is emitted and the word is cut into parts,
      the last of which becomes the current line. */
  function WordStep(s: Wrapping, w: string, fits: string -> bool): Wrapping
  {
    var candidate := PyStr.Strip(s.current + " " + w);
    if fits(candidate) then Wrapping(s.lines, candidate)
    else
      var parts := CharSplit(w, fits);
      Wrapping(Flushed(s) + parts.lines, parts.current)
  }

  /** The words of one paragraph, from an empty current line. */
  function WordsWrap(ws: seq<string>, fits: string -> bool): Wrapping
    decreases |ws|
  {
    if ws == [] then Wrapping([], "")
    else WordStep(WordsWrap(ws[..|ws| - 1], fits), ws[|ws| - 1], fits)
  }

  /** The lines of one paragraph: an empty paragraph is one empty line. */
  function WrapParagraph(para: string, fits: string -> bool): seq<string>
  {
    if para == "" then [""] else Flushed(WordsWrap(Words(para), fits))
  }

  function WrapAll(paras: seq<string>, fits: string -> bool): seq<string>
    decreases |paras|
  {
    if paras == [] then []
    else WrapAll(paras[..|paras| - 1], fits) + WrapParagraph(paras[|paras| - 1], fits)
  }

  /** The lines `wrap_text_by_width` returns for `text`. */
  function WrapText(text: string, fits: string -> bool): seq<string>
  {
    WrapAll(Paragraphs(text), fits)
  }

  /** A line that fits, or a single character too wide to fit anywhere. */
  predicate Acceptable(line: string, fits: string -> bool)
  {
    fits(line) || |line| == 1
  }

  predicate AllAcceptable(ls: seq<string>, fits: string -> bool)
  {
    forall k :: 0 <= k < |ls| ==> ls[k] != "" && Acceptable(ls[k], fits)
  }

  /** Every emitted line is acceptable and not empty, and so is the current
      line unless it is empty. */
  predicate Good(s: Wrapping, fits: string -> bool)
  {
    AllAcceptable(s.lines, fits) && (s.current != "" ==> Acceptable(s.current, fits))
  }

  /** The emitted lines and the current line, written one after another. */
  function Spelled(s: Wrapping): string
  {
    Concat(s.lines) + s.current
  }

  lemma {:induction false} FlushedSpelled(s: Wrapping, fits: string -> bool)
    ensures Concat(Flushed(s)) == Spelled(s)
    ensures Good(s, fits) ==> AllAcceptable(Flushed(s), fits)
  {
    if s.current != "" {
      ConcatAppend(s.lines, [s.current]);
      ConcatSingle(s.current);
    } else {
      assert Concat(s.lines) + "" == Concat(s.lines);
    }
  }

  lemma {:induction false} AllAcceptableAppend(a: seq<string>, b: seq<string>, fits: string -> bool)
    requires AllAcceptable(a, fits) && AllAcceptable(b, fits)
    ensures AllAcceptable(a + b, fits)
  {
    forall k | 0 <= k < |a + b|
      ensures (a + b)[k] != "" && Acceptable((a + b)[k], fits)
    {
      if k < |a| {
        assert (a + b)[k] == a[k];
      } else {
        assert (a + b)[k] == b[k - |a|];
      }
    }
  }

  /** Cutting a word loses nothing: its parts spell the word, each part is
      acceptable, and the last part is empty only for an empty word. */
  lemma {:induction false} CharSplitSpells(w: string, fits: string -> bool)
    ensures Spelled(CharSplit(w, fits)) == w
    ensures Good(CharSplit(w, fits), fits)
    ensures CharSplit(w, fits).current == "" <==> w == ""
    decreases |w|
  {
    if w != [] {
      var v := w[..|w| - 1];
      var s := CharSplit(v, fits);
      CharSplitSpells(v, fits);
      FlushedSpelled(s, fits);
      assert w == v + [w[|w| - 1]];
    }
  }

  /** A word that fits on the current line keeps its characters: the new
      current line `c` is the old one, a space and the word, stripped. */
  lemma {:induction false} WordFitsCompact(s: Wrapping, w: string, c: string)
    requires Compact(c) == Compact(s.current + " " + w)
    ensures Compact(Concat(s.lines) + c) == Compact(Spelled(s)) + Compact(w)
  {
    var l := Compact(Concat(s.lines));
    CompactAppend(Concat(s.lines), c);
    assert PyStr.AllSpace(" ");
    CompactGap(s.current, " ", w);
    CompactAppend(Concat(s.lines), s.current);
    assert l + (Compact(s.current) + Compact(w)) == (l + Compact(s.current)) + Compact(w);
  }

  /** A word cut into parts keeps its characters. */
  lemma {:induction false} WordCutSpelled(s: Wrapping, w: string, fits: string -> bool)
    ensures Spelled(Wrapping(Flushed(s) + CharSplit(w, fits).lines, CharSplit(w, fits).current)) == Spelled(s) + w
  {
    var parts := CharSplit(w, fits);
    CharSplitSpells(w, fits);
    FlushedSpelled(s, fits);
    ConcatAppend(Flushed(s), parts.lines);
    var a, b, c := Concat(Flushed(s)), Concat(parts.lines), parts.current;
    assert Spelled(Wrapping(Flushed(s) + parts.lines, c)) == (a + b) + c;
    assert b + c == w;
    assert (a + b) + c == a + (b + c);
  }

  lemma {:induction false} WordStepCompact(s: Wrapping, w: string, fits: string -> bool)
    ensures Compact(Spelled(WordStep(s, w, fits))) == Compact(Spelled(s)) + Compact(w)
  {
    if fits(PyStr.Strip(s.current + " " + w)) {
      CompactStrip(s.current + " " + w);
      WordFitsCompact(s, w, PyStr.Strip(s.current + " " + w));
    } else {
      WordCutSpelled(s, w, fits);
      CompactAppend(Spelled(s), w);
    }
  }

  lemma {:induction false} WordStepGood(s: Wrapping, w: string, fits: string -> bool)
    requires Good(s, fits)
    ensures Good(WordStep(s, w, fits), fits)
  {
    if !fits(PyStr.Strip(s.current + " " + w)) {
      CharSplitSpells(w, fits);
      FlushedSpelled(s, fits);
      AllAcceptableAppend(Flushed(s), CharSplit(w, fits).lines, fits);
    }
  }

  /** Adding one word to the state adds its characters. */
  lemma {:induction false} CompactChain(before: Wrapping, after: Wrapping, prev: seq<string>, w: string)
    requires Compact(Spelled(before)) == Compact(Concat(prev))
    requires Compact(Spelled(after)) == Compact(Spelled(before)) + Compact(w)
    ensures Compact(Spelled(after)) == Compact(Concat(prev + [w]))
  {
    ConcatAppend(prev, [w]);
    ConcatSingle(w);
    CompactAppend(Concat(prev), w);
  }

  /** After some words, what has been emitted and the current line hold the
      words' non-whitespace characters. */
  lemma {:induction false} WordsWrapCompact(ws: seq<string>, fits: string -> bool)
    ensures Compact(Spelled(WordsWrap(ws, fits))) == Compact(Concat(ws))
    decreases |ws|
  {
    if ws == [] {
      assert Spelled(WordsWrap(ws, fits)) == "";
    } else {
      var prev := ws[..|ws| - 1];
      var w := ws[|ws| - 1];
      WordsWrapCompact(prev, fits);
      WordStepCompact(WordsWrap(prev, fits), w, fits);
      assert WordsWrap(ws, fits) == WordStep(WordsWrap(prev, fits), w, fits);
      assert ws == prev + [w];
      CompactChain(WordsWrap(prev, fits), WordsWrap(ws, fits), prev, w);
    }
  }

  lemma {:induction false} WordsWrapGood(ws: seq<string>, fits: string -> bool)
    ensures Good(WordsWrap(ws, fits), fits)
    decreases |ws|
  {
    if ws != [] {
      WordsWrapGood(ws[..|ws| - 1], fits);
      WordStepGood(WordsWrap(ws[..|ws| - 1], fits), ws[|ws| - 1], fits);
    }
  }

  /** One paragraph: its lines hold its non-whitespace characters. */
  lemma {:induction false} WrapParagraphCompact(para: string, fits: string -> bool)
    ensures Compact(Concat(WrapParagraph(para, fits))) == Compact(para)
  {
    if para == "" {
      ConcatSingle("");
    } else {
      var s := WordsWrap(Words(para), fits);
      WordsWrapCompact(Words(para), fits);
      FlushedSpelled(s, fits);
      WordsCompact(para);
    }
  }

  /** One paragraph: an empty paragraph gives one empty line, a paragraph
      of whitespace gives no line, and every other line is acceptable and
      not empty. */
  lemma {:induction false} WrapParagraphLines(para: string, fits: string -> bool)
    ensures para == "" ==> WrapParagraph(para, fits) == [""]
    ensures para != "" && PyStr.AllSpace(para) ==> WrapParagraph(para, fits) == []
    ensures para != "" ==> AllAcceptable(WrapParagraph(para, fits), fits)
  {
    if para != "" {
      var s := WordsWrap(Words(para), fits);
      WordsWrapGood(Words(para), fits);
      FlushedSpelled(s, fits);
    }
  }

  /** Adding one paragraph's lines adds the paragraph's characters. */
  lemma {:induction false} WrapAllStep(prevLines: seq<string>, paraLines: seq<string>, prev: seq<string>, p: string)
    requires Compact(Concat(prevLines)) == Compact(Concat(prev))
    requires Compact(Concat(paraLines)) == Compact(p)
    ensures Compact(Concat(prevLines + paraLines)) == Compact(Concat(prev + [p]))
  {
    ConcatAppend(prevLines, paraLines);
    CompactAppend(Concat(prevLines), Concat(paraLines));
    ConcatAppend(prev, [p]);
    ConcatSingle(p);
    CompactAppend(Concat(prev), p);
  }

  lemma {:induction false} WrapAllCompact(paras: seq<string>, fits: string -> bool)
    ensures Compact(Concat(WrapAll(paras, fits))) == Compact(Concat(paras))
    decreases |paras|
  {
    if paras != [] {
      var prev := paras[..|paras| - 1];
      var p := paras[|paras| - 1];
      WrapAllCompact(prev, fits);
      WrapParagraphCompact(p, fits);
      assert paras == prev + [p];
      assert WrapAll(paras, fits) == WrapAll(prev, fits) + WrapParagraph(p, fits);
      WrapAllStep(WrapAll(prev, fits), WrapParagraph(p, fits), prev, p);
    }
  }

  /** Every line is acceptable, or is the empty line of an empty paragraph. */
  predicate LinesOk(ls: seq<string>, paras: seq<string>, fits: string -> bool)
  {
    forall k :: 0 <= k < |ls| ==> Acceptable(ls[k], fits) || (ls[k] == "" && "" in paras)
  }

  lemma {:induction false} WrapAllLines(paras: seq<string>, fits: string -> bool)
    ensures LinesOk(WrapAll(paras, fits), paras, fits)
    decreases |paras|
  {
    if paras != [] {
      var prev := paras[..|paras| - 1];
      var p := paras[|paras| - 1];
      WrapAllLines(prev, fits);
      WrapParagraphLines(p, fits);
      var a := WrapAll(prev, fits);
      var b := WrapParagraph(p, fits);
      forall k | 0 <= k < |a + b|
        ensures Acceptable((a + b)[k], fits) || ((a + b)[k] == "" && "" in paras)
      {
        if k < |a| {
          assert (a + b)[k] == a[k];
          assert a[k] == "" && "" in prev ==> "" in paras;
        } else {
          assert (a + b)[k] == b[k - |a|];
          assert p == "" ==> "" in paras;
        }
      }
    }
  }

  /** What wrapping promises: the lines hold exactly the non-whitespace
      characters of the text, in order, and every line fits, is a single
      character, or is the empty line of an empty paragraph. */
  lemma {:induction false} WrapTextKeeps(text: string, fits: string -> bool)
    ensures Compact(Concat(WrapText(text, fits))) == Compact(text)
    ensures LinesOk(WrapText(text, fits), Paragraphs(text), fits)
  {
    WrapAllCompact(Paragraphs(text), fits);
    WrapAllLines(Paragraphs(text), fits);
    ParagraphsCompact(text);
  }

  /** `wrap_text_by_width`, step by step as the source does it. */
  method WrapTextByWidth(text: string, fits: string -> bool) returns (lines: seq<string>)
    ensures lines == WrapText(text, fits)
    ensures Compact(Concat(lines)) == Compact(text)
    ensures LinesOk(lines, Paragraphs(text), fits)
  {
    var paragraphs := Paragraphs(text);
    lines := [];
    for p := 0 to |paragraphs|
      invariant lines == WrapAll(paragraphs[..p], fits)
    {
      assert paragraphs[..p + 1] == paragraphs[..p] + [paragraphs[p]];
      WrapAllSnoc(paragraphs[..p], paragraphs[p], fits);
      lines := WrapParagraphInto(paragraphs[p], fits, lines);
    }
    assert paragraphs[..|paragraphs|] == paragraphs;
    WrapTextKeeps(text, fits);
  }

  /** The body of the loop over paragraphs: the paragraph's lines go onto
      `lines`. */
  method WrapParagraphInto(para: string, fits: string -> bool, lines0: seq<string>) returns (lines: seq<string>)
    ensures lines == lines0 + WrapParagraph(para, fits)
  {
    if para == "" {
      return lines0 + [""];
    }
    var current;
    lines, current := WrapWords(Words(para), fits, lines0);
    if current != "" {
      lines := lines + [current];
    }
  }

  /** The loop over the words of a paragraph: the finished lines go onto
      `lines`, the line still being built is returned. */
  method WrapWords(words: seq<string>, fits: string -> bool, lines0: seq<string>)
    returns (lines: seq<string>, current: string)
    ensures lines == lines0 + WordsWrap(words, fits).lines
    ensures current == WordsWrap(words, fits).current
  {
    lines := lines0;
    current := "";
    for i := 0 to |words|
      invariant lines == lines0 + WordsWrap(words[..i], fits).lines
      invariant current == WordsWrap(words[..i], fits).current
    {
      assert words[..i + 1] == words[..i] + [words[i]];
      WordsWrapSnoc(words[..i], words[i], fits);
      lines, current := AddWord(words[i], fits, lines, current, lines0, WordsWrap(words[..i], fits).lines);
    }
    assert words[..|words|] == words;
  }

  /** The body of the loop over words: the word joins the current line, or
      the current line goes onto `lines` and the word is cut. `lines` is
      `before` followed by the lines of the paragraph so far. */
  method AddWord(w: string, fits: string -> bool, lines0: seq<string>, current0: string,
                 ghost before: seq<string>, ghost emitted: seq<string>)
    returns (lines: seq<string>, current: string)
    requires lines0 == before + emitted
    ensures lines == before + WordStep(Wrapping(emitted, current0), w, fits).lines
    ensures current == WordStep(Wrapping(emitted, current0), w, fits).current
  {
    lines, current := lines0, current0;
    var candidate := PyStr.Strip(current + " " + w);
    if fits(candidate) {
      current := candidate;
    } else {
      if current != "" {
        lines := lines + [current];
        AppendAssoc(before, emitted, [current]);
      }
      lines, current := SplitWord(w, fits, lines);
      AppendAssoc(before, Flushed(Wrapping(emitted, current0)), CharSplit(w, fits).lines);
    }
  }

  lemma {:induction false} WrapAllSnoc(ps: seq<string>, p: string, fits: string -> bool)
    ensures WrapAll(ps + [p], fits) == WrapAll(ps, fits) + WrapParagraph(p, fits)
  {
    assert (ps + [p])[..|ps|] == ps;
  }

  lemma {:induction false} WordsWrapSnoc(ws: seq<string>, w: string, fits: string -> bool)
    ensures WordsWrap(ws + [w], fits) == WordStep(WordsWrap(ws, fits), w, fits)
  {
    assert (ws + [w])[..|ws|] == ws;
  }

  lemma AppendAssoc(a: seq<string>, b: seq<string>, c: seq<string>)
    ensures (a + b) + c == a + (b + c)
  {
  }

  /** The inner loop over the characters of a word too wide for the line:
      the finished parts go onto `lines`, the last part is returned. */
  method SplitWord(w: string, fits: string -> bool, lines0: seq<string>) returns (lines: seq<string>, part: string)
    ensures lines == lines0 + CharSplit(w, fits).lines
    ensures part == CharSplit(w, fits).current
  {
    lines := lines0;
    part := "";
    for j := 0 to |w|
      invariant lines == lines0 + CharSplit(w[..j], fits).lines
      invariant part == CharSplit(w[..j], fits).current
    {
      assert w[..j + 1][..j] == w[..j];
      var ch := w[j];
      var testPart := part + [ch];
      if fits(testPart) {
        part := testPart;
      } else {
        if part != "" {
          lines := lines + [part];
        }
        part := [ch];
      }
    }
    assert w[..|w|] == w;
  }

  /** The upper bound on the drawn text's height. */
  const MaxTextHeight := 360

  /** The height check: the text is rejected exactly when its lines take
      more than 360 pixels. */
  function HeightError(lineCount: nat, lineHeight: int): (tooTall: bool)
    ensures lineCount == 0 ==> !tooTall
    ensures lineHeight > MaxTextHeight ==> (tooTall <==> lineCount >= 1)
  {
    lineCount * lineHeight > MaxTextHeight
  }

  /** With a positive line height, the text passes exactly when it has at
      most `360 / lineHeight` lines; fewer lines never make it fail. */
  lemma HeightLimit(lineCount: nat, lineHeight: int)
    requires lineHeight > 0
    ensures !HeightError(lineCount, lineHeight) <==> lineCount <= MaxTextHeight / lineHeight
  {
    var q := MaxTextHeight / lineHeight;
    assert q * lineHeight <= MaxTextHeight < (q + 1) * lineHeight;
    if lineCount <= q {
      MulLe(lineCount, q, lineHeight);
    } else {
      MulLe(q + 1, lineCount, lineHeight);
    }
  }

  lemma MulLe(a: nat, b: nat, h: int)
    requires a <= b && h > 0
    ensures a * h <= b * h
  {
  }
}
