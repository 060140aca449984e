/** The string helpers of the PDF report (src/services/pdfService.ts): the
    file-name sanitiser, the name the report is downloaded under, and the
    greedy line breaker used for every paragraph of the report. The page
    drawing itself is not modelled; text width is a parameter. */
module PdfService {
  import opened JsSemantics

  // ----- sanitizeFileName -----

  /** The characters `[a-zA-Z0-9_-]` that survive the second replacement. */
  predicate IsSafe(c: char) {
    ('a' <= c <= 'z') || ('A' <= c <= 'Z') || ('0' <= c <= '9') || c == '_' || c == '-'
  }

  predicate IsUnderscore(c: char) {
    c == '_'
  }

  /** `s.replace(/[p]+/g, '_')`: every maximal run of characters satisfying
      `p` becomes one underscore. */
  function CollapseRuns(s: string, p: char -> bool): (r: string)
    ensures forall i :: 0 <= i < |r| ==> r[i] == '_' || (!p(r[i]) && r[i] in s)
    ensures s != [] ==> r != [] && (p(s[0]) ==> r[0] == '_') && (!p(s[0]) ==> r[0] == s[0])
    decreases |s|
  {
    if s == [] then []
    else if p(s[0]) then
      var rest := DropWhile(s, p);
      var r := "_" + CollapseRuns(rest, p);
      assert forall c :: c in rest ==> c in s;
      r
    else
      var r := [s[0]] + CollapseRuns(s[1..], p);
      assert forall c :: c in s[1..] ==> c in s;
      r
  }

  /** `s.replace(/[^a-zA-Z0-9_-]/g, '')`. */
  function KeepSafe(s: string): (r: string)
    ensures forall i :: 0 <= i < |r| ==> IsSafe(r[i]) && r[i] in s
  {
    if s == [] then []
    else
      var r := (if IsSafe(s[0]) then [s[0]] else []) + KeepSafe(s[1..]);
      assert forall c :: c in s[1..] ==> c in s;
      r
  }

  predicate AllSafe(s: string) {
    forall i :: 0 <= i < |s| ==> IsSafe(s[i])
  }

  predicate NoDoubleUnderscore(s: string) {
    forall i :: 0 <= i < |s| - 1 ==> !(s[i] == '_' && s[i + 1] == '_')
  }

  /** What the sanitiser promises of its result: a non-empty run of safe
      characters with no "__" and no underscore at either end. */
  predicate IsCleanName(s: string) {
    && s != []
    && AllSafe(s)
    && NoDoubleUnderscore(s)
    && s[0] != '_' && s[|s| - 1] != '_'
  }

  /** The pipeline of `sanitizeFileName` before the fallback. */
  function Cleaned(name: string): string {
    var spaced := CollapseRuns(name, IsWhiteSpace);
    var safe := KeepSafe(spaced);
    var squeezed := CollapseRuns(safe, IsUnderscore);
    DropWhileEnd(DropWhile(squeezed, IsUnderscore), IsUnderscore)
  }

  /** `sanitizeFileName`: the cleaned name, or "Gap_Analysis" when nothing is left. */
  function SanitizeFileName(name: string): (r: string)
    ensures r != []
  {
    var cleaned := Cleaned(name);
    if |cleaned| > 0 then cleaned else "Gap_Analysis"
  }

  /** Collapsing runs of `p` changes nothing in a string without such characters. */
  lemma {:induction false} CollapseRunsUnchanged(s: string, p: char -> bool)
    requires forall i :: 0 <= i < |s| ==> !p(s[i])
    ensures CollapseRuns(s, p) == s
  {
    if s != [] {
      CollapseRunsUnchanged(s[1..], p);
    }
  }

  /** Collapsing a prefix without `p` characters leaves that prefix alone. */
  lemma {:induction false} CollapseRunsAfterPlain(a: string, b: string, p: char -> bool)
    requires forall i :: 0 <= i < |a| ==> !p(a[i])
    ensures CollapseRuns(a + b, p) == a + CollapseRuns(b, p)
  {
    if a != [] {
      assert (a + b)[0] == a[0] && !p(a[0]);
      assert (a + b)[1..] == a[1..] + b;
      assert CollapseRuns(a + b, p) == [a[0]] + CollapseRuns(a[1..] + b, p);
      CollapseRunsAfterPlain(a[1..], b, p);
      assert [a[0]] + (a[1..] + CollapseRuns(b, p)) == ([a[0]] + a[1..]) + CollapseRuns(b, p);
      assert [a[0]] + a[1..] == a;
    } else {
      assert a + b == b;
    }
  }

  lemma {:induction false} KeepSafeUnchanged(s: string)
    requires AllSafe(s)
    ensures KeepSafe(s) == s
  {
    if s != [] {
      KeepSafeUnchanged(s[1..]);
    }
  }

  /** Squeezing underscores leaves no "__". */
  lemma {:induction false} CollapsedUnderscoresAreSingle(s: string)
    ensures NoDoubleUnderscore(CollapseRuns(s, IsUnderscore))
    decreases |s|
  {
    if s != [] {
      if IsUnderscore(s[0]) {
        var rest := DropWhile(s, IsUnderscore);
        CollapsedUnderscoresAreSingle(rest);
      } else {
        CollapsedUnderscoresAreSingle(s[1..]);
      }
    }
  }

  /** Squeezing underscores changes nothing in a string with no "__". */
  lemma {:induction false} CollapseUnderscoresUnchanged(s: string)
    requires NoDoubleUnderscore(s)
    ensures CollapseRuns(s, IsUnderscore) == s
  {
    if s != [] {
      assert NoDoubleUnderscore(s[1..]) by {
        forall i | 0 <= i < |s[1..]| - 1
          ensures !(s[1..][i] == '_' && s[1..][i + 1] == '_')
        {
          assert s[1..][i] == s[i + 1] && s[1..][i + 1] == s[i + 2];
        }
      }
      CollapseUnderscoresUnchanged(s[1..]);
      if s[0] == '_' {
        assert DropWhile(s, IsUnderscore) == s[1..];
      }
    }
  }

  /** Squeezing underscores keeps a string of safe characters safe. */
  lemma SqueezeKeepsSafe(safe: string)
    requires AllSafe(safe)
    ensures AllSafe(CollapseRuns(safe, IsUnderscore))
  {
    var squeezed := CollapseRuns(safe, IsUnderscore);
    forall i | 0 <= i < |squeezed|
      ensures IsSafe(squeezed[i])
    {
      if squeezed[i] != '_' {
        var j :| 0 <= j < |safe| && safe[j] == squeezed[i];
      }
    }
  }

  /** A slice of a safe string without "__" is one too. */
  lemma SliceKeepsSafety(s: string, lo: nat, hi: nat)
    requires lo <= hi <= |s|
    requires AllSafe(s) && NoDoubleUnderscore(s)
    ensures AllSafe(s[lo..hi]) && NoDoubleUnderscore(s[lo..hi])
  {
    var t := s[lo..hi];
    assert forall i :: 0 <= i < |t| ==> t[i] == s[lo + i];
  }

  /** Trimming the underscores at both ends leaves a slice of `s` that
      neither starts nor ends with an underscore. */
  lemma TrimmedSlice(s: string) returns (lo: nat, hi: nat)
    ensures lo <= hi <= |s|
    ensures DropWhileEnd(DropWhile(s, IsUnderscore), IsUnderscore) == s[lo..hi]
    ensures lo < hi ==> s[lo] != '_' && s[hi - 1] != '_'
  {
    var front := DropWhile(s, IsUnderscore);
    var cleaned := DropWhileEnd(front, IsUnderscore);
    lo := |s| - |front|;
    hi := lo + |cleaned|;
    assert cleaned == s[lo..hi];
    if cleaned != [] {
      assert cleaned[0] == front[0];
    }
  }

  /** Trimming the underscores at both ends of a safe string without "__"
      leaves either nothing or a clean name. */
  lemma TrimmedIsClean(s: string)
    requires AllSafe(s) && NoDoubleUnderscore(s)
    ensures var c := DropWhileEnd(DropWhile(s, IsUnderscore), IsUnderscore);
            c == [] || IsCleanName(c)
  {
    var lo, hi := TrimmedSlice(s);
    SliceKeepsSafety(s, lo, hi);
  }

  /** The fallback name is clean. */
  lemma FallbackIsClean()
    ensures IsCleanName("Gap_Analysis")
  {
    var fallback := "Gap_Analysis";
    assert AllSafe(fallback) by {
      forall i | 0 <= i < |fallback|
        ensures IsSafe(fallback[i])
      {
      }
    }
    assert NoDoubleUnderscore(fallback) by {
      forall i | 0 <= i < |fallback| - 1
        ensures !(fallback[i] == '_' && fallback[i + 1] == '_')
      {
      }
    }
  }

  /** The sanitiser's output is always a clean name. */
  lemma SanitizedIsClean(name: string)
    ensures IsCleanName(SanitizeFileName(name))
  {
    var safe := KeepSafe(CollapseRuns(name, IsWhiteSpace));
    SqueezeKeepsSafe(safe);
    CollapsedUnderscoresAreSingle(safe);
    TrimmedIsClean(CollapseRuns(safe, IsUnderscore));
    FallbackIsClean();
  }

  /** When collapsing the white space of `name` already gives a clean name,
      that is the sanitised name. */
  lemma SanitizeWhenSpacedIsClean(name: string, t: string)
    requires CollapseRuns(name, IsWhiteSpace) == t && IsCleanName(t)
    ensures SanitizeFileName(name) == t
  {
    KeepSafeUnchanged(t);
    CollapseUnderscoresUnchanged(t);
    assert DropWhile(t, IsUnderscore) == t;
    assert DropWhileEnd(t, IsUnderscore) == t;
  }

  /** A clean name is its own sanitised form. */
  lemma SanitizeKeepsCleanName(s: string)
    requires IsCleanName(s)
    ensures SanitizeFileName(s) == s
  {
    SafeHasNoWhiteSpace(s);
    CollapseRunsUnchanged(s, IsWhiteSpace);
    SanitizeWhenSpacedIsClean(s, s);
  }

  /** `sanitizeFileName` is idempotent. */
  lemma SanitizeIdempotent(name: string)
    ensures SanitizeFileName(SanitizeFileName(name)) == SanitizeFileName(name)
  {
    SanitizedIsClean(name);
    SanitizeKeepsCleanName(SanitizeFileName(name));
  }

  /** Safe characters are not white space. */
  lemma SafeHasNoWhiteSpace(s: string)
    requires AllSafe(s)
    ensures forall i :: 0 <= i < |s| ==> !IsWhiteSpace(s[i])
  {
    forall i | 0 <= i < |s|
      ensures !IsWhiteSpace(s[i])
    {
      assert IsSafe(s[i]);
    }
  }

  /** Two clean names joined by one underscore form a clean name. */
  lemma JoinedCleanNames(a: string, b: string)
    requires IsCleanName(a) && IsCleanName(b)
    ensures IsCleanName(a + ['_'] + b)
  {
    var joined := a + ['_'] + b;
    assert forall i :: 0 <= i < |a| ==> joined[i] == a[i];
    assert forall i :: 0 <= i < |b| ==> joined[|a| + 1 + i] == b[i];
    assert joined[|a|] == '_';
    forall i | 0 <= i < |joined| - 1
      ensures !(joined[i] == '_' && joined[i + 1] == '_')
    {
      if i + 1 < |a| {
      } else if i + 1 == |a| {
      } else if i == |a| {
      } else {
        assert joined[i] == b[i - |a| - 1] && joined[i + 1] == b[i - |a|];
      }
    }
  }

  /** Dropping the white space in front of a string that continues with a
      non-white-space character leaves that rest. */
  lemma {:induction false} DropWhiteSpaceRun(ws: string, b: string)
    requires AllWhiteSpace(ws)
    requires b != [] && !IsWhiteSpace(b[0])
    ensures DropWhile(ws + b, IsWhiteSpace) == b
  {
    if ws == [] {
      assert ws + b == b;
    } else {
      assert (ws + b)[0] == ws[0];
      assert (ws + b)[1..] == ws[1..] + b;
      DropWhiteSpaceRun(ws[1..], b);
    }
  }

  /** Collapsing the white space of two clean words around a run of white
      space joins them with one underscore. */
  lemma SpacedJoin(a: string, ws: string, b: string)
    requires IsCleanName(a) && IsCleanName(b)
    requires ws != [] && AllWhiteSpace(ws)
    ensures CollapseRuns(a + ws + b, IsWhiteSpace) == a + ['_'] + b
  {
    SafeHasNoWhiteSpace(a);
    SafeHasNoWhiteSpace(b);
    assert a + ws + b == a + (ws + b);
    CollapseRunsAfterPlain(a, ws + b, IsWhiteSpace);
    DropWhiteSpaceRun(ws, b);
    assert CollapseRuns(ws + b, IsWhiteSpace) == ['_'] + CollapseRuns(b, IsWhiteSpace);
    CollapseRunsUnchanged(b, IsWhiteSpace);
    assert a + (['_'] + b) == a + ['_'] + b;
  }

  /** A run of white space between two clean words becomes a single
      underscore: "Acme  MRO" becomes "Acme_MRO". */
  lemma WhiteSpaceRunBecomesUnderscore(a: string, ws: string, b: string)
    requires IsCleanName(a) && IsCleanName(b)
    requires ws != [] && AllWhiteSpace(ws)
    ensures SanitizeFileName(a + ws + b) == a + "_" + b
  {
    SpacedJoin(a, ws, b);
    JoinedCleanNames(a, b);
    SanitizeWhenSpacedIsClean(a + ws + b, a + ['_'] + b);
  }

  /** The file name the report is downloaded under (line 362). */
  function DownloadName(companyName: string): (r: string)
    ensures |r| > |"_Report.pdf"| && r[|r| - |"_Report.pdf"|..] == "_Report.pdf"
  {
    SanitizeFileName(if companyName != "" then companyName else "Gap_Analysis") + "_Report.pdf"
  }

  /** The download name is a clean name followed by "_Report.pdf", and a
      company name that is already clean is kept as it is. */
  lemma DownloadNameShape(companyName: string)
    ensures exists stem :: IsCleanName(stem) && DownloadName(companyName) == stem + "_Report.pdf"
    ensures IsCleanName(companyName) ==> DownloadName(companyName) == companyName + "_Report.pdf"
  {
    var source := if companyName != "" then companyName else "Gap_Analysis";
    SanitizedIsClean(source);
    if IsCleanName(companyName) {
      SanitizeKeepsCleanName(companyName);
    }
  }

  /** An empty company name gives "Gap_Analysis_Report.pdf". */
  lemma EmptyCompanyDownloadName()
    ensures DownloadName("") == "Gap_Analysis" + "_Report.pdf"
  {
    FallbackIsClean();
    SanitizeKeepsCleanName("Gap_Analysis");
  }

  // ----- wrapText -----

  /** `s.split(sep)` for a one-character separator. */
  function Split(s: string, sep: char): (r: seq<string>)
    ensures |r| >= 1
    ensures forall i :: 0 <= i < |r| ==> sep !in r[i]
    decreases |s|
  {
    match IndexOf(s, sep)
    case None => [s]
    case Some(i) => [s[..i]] + Split(s[i + 1..], sep)
  }

  /** `parts.join(sep)`. */
  function Join(parts: seq<string>, sep: char): string {
    if |parts| == 0 then ""
    else if |parts| == 1 then parts[0]
    else parts[0] + [sep] + Join(parts[1..], sep)
  }

  lemma {:induction false} JoinSnoc(parts: seq<string>, w: string, sep: char)
    requires parts != []
    ensures Join(parts + [w], sep) == Join(parts, sep) + [sep] + w
  {
    if |parts| == 1 {
      assert parts + [w] == [parts[0], w];
    } else {
      assert (parts + [w])[1..] == parts[1..] + [w];
      JoinSnoc(parts[1..], w, sep);
    }
  }

  /** Splitting a join of separator-free parts gives the parts back. */
  lemma {:induction false} SplitJoin(parts: seq<string>, sep: char)
    requires parts != [] && forall i :: 0 <= i < |parts| ==> sep !in parts[i]
    ensures Split(Join(parts, sep), sep) == parts
  {
    if |parts| > 1 {
      var s := Join(parts, sep);
      var w := parts[0];
      assert s == w + ([sep] + Join(parts[1..], sep));
      assert s[|w|] == sep && s[..|w|] == w;
      assert IndexOf(s, sep) == Some(|w|);
      assert s[|w| + 1..] == Join(parts[1..], sep);
      SplitJoin(parts[1..], sep);
    }
  }

  /** The loop state of `wrapText`: the finished lines and `currentLine`. */
  datatype WrapState = WrapState(lines: seq<string>, current: string)

  /** One iteration of the loop of `wrapText` for `word`. */
  function WrapStep(st: WrapState, word: string, width: string -> real, maxWidth: real): WrapState {
    var testLine := if st.current != "" then st.current + " " + word else word;
    if width(testLine) <= maxWidth then WrapState(st.lines, testLine)
    else WrapState(st.lines + (if st.current != "" then [st.current] else []), word)
  }

  /** The loop state after the given words. */
  function WrapRun(words: seq<string>, width: string -> real, maxWidth: real): WrapState {
    if words == [] then WrapState([], "")
    else WrapStep(WrapRun(words[..|words| - 1], width, maxWidth), words[|words| - 1], width, maxWidth)
  }

  /** The lines once the last `currentLine` is pushed. */
  function Finish(st: WrapState): seq<string> {
    st.lines + (if st.current != "" then [st.current] else [])
  }

  /** The lines `wrapText` returns. */
  function WrapLines(text: string, width: string -> real, maxWidth: real): seq<string> {
    Finish(WrapRun(Split(text, ' '), width, maxWidth))
  }

  /** `wrapText`, with the font's width at the given size as `width`. */
  method WrapText(text: string, maxWidth: real, width: string -> real) returns (lines: seq<string>)
    ensures lines == WrapLines(text, width, maxWidth)
  {
    var words := Split(text, ' ');
    lines := [];
    var currentLine := "";
    for i := 0 to |words|
      invariant WrapState(lines, currentLine) == WrapRun(words[..i], width, maxWidth)
    {
      assert words[..i + 1][..i] == words[..i];
      assert WrapRun(words[..i + 1], width, maxWidth) == WrapStep(WrapRun(words[..i], width, maxWidth), words[i], width, maxWidth);
      var word := words[i];
      var testLine := if currentLine != "" then currentLine + " " + word else word;
      var w := width(testLine);
      if w <= maxWidth {
        currentLine := testLine;
      } else {
        if currentLine != "" {
          lines := lines + [currentLine];
        }
        currentLine := word;
      }
    }
    assert words[..|words|] == words;
    if currentLine != "" {
      lines := lines + [currentLine];
    }
  }

  /** A line produced from `words` is non-empty and fits, or is one of the words. */
  predicate GoodLine(l: string, words: seq<string>, width: string -> real, maxWidth: real) {
    l != [] && (width(l) <= maxWidth || l in words)
  }

  lemma {:induction false} WrapRunLines(words: seq<string>, width: string -> real, maxWidth: real)
    ensures forall l :: l in WrapRun(words, width, maxWidth).lines ==> GoodLine(l, words, width, maxWidth)
    ensures var c := WrapRun(words, width, maxWidth).current;
            c == [] || width(c) <= maxWidth || c in words
  {
    if words != [] {
      var init := words[..|words| - 1];
      WrapRunLines(init, width, maxWidth);
      assert forall l :: l in init ==> l in words;
    }
  }

  /** Every line of `wrapText` is non-empty and is either no wider than
      `maxWidth` or a single word of the text. */
  lemma WrapLinesFit(text: string, width: string -> real, maxWidth: real)
    ensures forall l :: l in WrapLines(text, width, maxWidth) ==>
              l != [] && (width(l) <= maxWidth || (l in Split(text, ' ') && ' ' !in l))
  {
    WrapRunLines(Split(text, ' '), width, maxWidth);
  }

  /** Breaking non-empty words and joining the lines with spaces gives the
      words joined by spaces. */
  lemma {:induction false} WrapRunJoin(words: seq<string>, width: string -> real, maxWidth: real)
    requires words != [] && forall i :: 0 <= i < |words| ==> words[i] != []
    ensures WrapRun(words, width, maxWidth).current != []
    ensures Join(Finish(WrapRun(words, width, maxWidth)), ' ') == Join(words, ' ')
  {
    var init, word := words[..|words| - 1], words[|words| - 1];
    if init == [] {
      assert words == [word];
      assert WrapRun(init, width, maxWidth) == WrapState([], "");
    } else {
      WrapRunJoin(init, width, maxWidth);
      var st := WrapRun(init, width, maxWidth);
      var c := st.current;
      assert words == init + [word];
      JoinSnoc(init, word, ' ');
      if width(c + " " + word) <= maxWidth {
        if st.lines == [] {
          assert Finish(st) == [c];
          assert Finish(WrapRun(words, width, maxWidth)) == [c + " " + word];
        } else {
          JoinSnoc(st.lines, c, ' ');
          JoinSnoc(st.lines, c + " " + word, ' ');
        }
      } else {
        assert Finish(WrapRun(words, width, maxWidth)) == Finish(st) + [word];
        JoinSnoc(Finish(st), word, ' ');
      }
    }
  }

  /** For text made of non-empty words separated by single spaces, joining
      the lines of `wrapText` with spaces gives the text back. */
  lemma WrapRoundTrip(words: seq<string>, width: string -> real, maxWidth: real)
    requires words != [] && forall i :: 0 <= i < |words| ==> words[i] != [] && ' ' !in words[i]
    ensures Join(WrapLines(Join(words, ' '), width, maxWidth), ' ') == Join(words, ' ')
  {
    SplitJoin(words, ' ');
    WrapRunJoin(words, width, maxWidth);
  }

  /** The empty text gives no lines. */
  lemma WrapEmptyText(width: string -> real, maxWidth: real)
    ensures WrapLines("", width, maxWidth) == []
  {
    assert Split("", ' ') == [""];
    assert [""][..0] == [];
    assert WrapRun([""], width, maxWidth) == WrapStep(WrapRun([], width, maxWidth), "", width, maxWidth);
  }
}
