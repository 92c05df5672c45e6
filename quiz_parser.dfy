/**
 * The quiz text format of the new-quiz form and its parser. A quiz is
 * written as blocks introduced by `問題<n>:`; inside a block the question
 * text comes first, then options `<n>. text`, then `正解: <n>`,
 * `難易度: <n>` and optionally `解説: text`.
 *
 * Each regular expression of the parser becomes a scanner over the
 * characters, stated with the leftmost-match and lazy-end rules a
 * JavaScript regular expression follows:
 *   - the split on `問題\d+:`,
 *   - the question `^(.*?)(?=\d+\.\s|正解:)`,
 *   - the options `(\d+\.\s.*?)(?=(\d+\.\s|正解:|$))` matched globally,
 *   - the labelled numbers `正解:\s*(\d+)` and `難易度:\s*(\d+)`,
 *   - the explanation `解説:\s*(.*)`.
 */
module QuizParser {
  import opened Wrappers
  import opened JsText

  const QuestionMark: string := "問題"
  const CorrectMark: string := "正解:"
  const DifficultyMark: string := "難易度:"
  const ExplanationMark: string := "解説:"

  /** `w` occurs in `s` starting at `p`. */
  predicate HasAt(s: string, p: nat, w: string) {
    p + |w| <= |s| && s[p..p + |w|] == w
  }

  /** The length of a `問題\d+:` marker starting at `p`, or 0 when none starts there. */
  function MarkerLength(s: string, p: nat): (n: nat)
    requires p <= |s|
    ensures n > 0 ==> p + n <= |s| && HasAt(s, p, QuestionMark)
  {
    if HasAt(s, p, QuestionMark) then
      var d := DigitRun(s[p + 2..]);
      if d > 0 && p + 2 + d < |s| && s[p + 2 + d] == ':' then d + 3 else 0
    else 0
  }

  /** The leftmost marker at or after `from`. */
  function FindMarker(s: string, from: nat): (r: Option<nat>)
    requires from <= |s|
    ensures r.Some? ==> from <= r.value < |s| && MarkerLength(s, r.value) > 0
    ensures r.Some? ==> forall j :: from <= j < r.value ==> MarkerLength(s, j) == 0
    ensures r.None? ==> forall j :: from <= j <= |s| ==> MarkerLength(s, j) == 0
    decreases |s| - from
  {
    if from == |s| then None
    else if MarkerLength(s, from) > 0 then Some(from)
    else FindMarker(s, from + 1)
  }

  /** `input.split(/問題\d+:/)`: the text between markers, empty pieces included. */
  function Pieces(s: string): (r: seq<string>)
    ensures |r| >= 1
    decreases |s|
  {
    match FindMarker(s, 0)
    case None => [s]
    case Some(i) => [s[..i]] + Pieces(s[i + MarkerLength(s, i)..])
  }

  /** The markers the split consumed, in order: one between each two pieces. */
  function Markers(s: string): (r: seq<string>)
    ensures |r| == |Pieces(s)| - 1
    decreases |s|
  {
    match FindMarker(s, 0)
    case None => []
    case Some(i) =>
      var n := MarkerLength(s, i);
      [s[i..i + n]] + Markers(s[i + n..])
  }

  /** Each consumed piece of text is one whole `問題<digits>:` marker. */
  lemma {:induction false} MarkersAreWhole(s: string)
    ensures forall k :: 0 <= k < |Markers(s)| ==> |Markers(s)[k]| > 0 && MarkerLength(Markers(s)[k], 0) == |Markers(s)[k]|
    decreases |s|
  {
    match FindMarker(s, 0)
    case None =>
    case Some(i) =>
      var rest := s[i + MarkerLength(s, i)..];
      MarkersAreWhole(rest);
      MarkerOfSlice(s, i);
      MarkersStep(s, i);
  }

  /** The pieces with the markers put back between them. */
  function Rebuild(pieces: seq<string>, markers: seq<string>): (s: string)
    requires |pieces| == |markers| + 1
    decreases |markers|
  {
    if markers == [] then pieces[0]
    else pieces[0] + markers[0] + Rebuild(pieces[1..], markers[1..])
  }

  /** Putting the consumed markers back between the pieces gives back the text. */
  lemma {:induction false} PiecesRebuild(s: string)
    ensures Rebuild(Pieces(s), Markers(s)) == s
    decreases |s|
  {
    match FindMarker(s, 0)
    case None =>
    case Some(i) =>
      var n := MarkerLength(s, i);
      var rest := s[i + n..];
      PiecesRebuild(rest);
      SplitStep(s, i);
      RebuildCons(s[..i], s[i..i + n], Pieces(rest), Markers(rest));
      CutTwice(s, i, i + n);
  }

  /** Cutting a text at two places and joining the three parts gives it back. */
  lemma CutTwice(s: string, i: nat, j: nat)
    requires i <= j <= |s|
    ensures s == s[..i] + s[i..j] + s[j..]
  {
  }

  /** One step of the split: the first piece and marker, then the split of the rest. */
  lemma SplitStep(s: string, i: nat)
    requires FindMarker(s, 0) == Some(i)
    ensures var rest := s[i + MarkerLength(s, i)..];
      && Pieces(s) == [s[..i]] + Pieces(rest)
      && Markers(s) == [s[i..i + MarkerLength(s, i)]] + Markers(rest)
  {
    PiecesStep(s, i);
    MarkersStep(s, i);
  }

  /** The first piece is the text before the first marker. */
  lemma PiecesStep(s: string, i: nat)
    requires FindMarker(s, 0) == Some(i)
    ensures Pieces(s) == [s[..i]] + Pieces(s[i + MarkerLength(s, i)..])
  {
  }

  /** The first marker text is the one found first. */
  lemma MarkersStep(s: string, i: nat)
    requires FindMarker(s, 0) == Some(i)
    ensures Markers(s) == [s[i..i + MarkerLength(s, i)]] + Markers(s[i + MarkerLength(s, i)..])
  {
  }

  /** `Rebuild` of a first piece and marker followed by the rest. */
  lemma RebuildCons(p: string, m: string, ps: seq<string>, ms: seq<string>)
    requires |ps| == |ms| + 1
    ensures Rebuild([p] + ps, [m] + ms) == p + m + Rebuild(ps, ms)
  {
    assert ([p] + ps)[1..] == ps && ([m] + ms)[1..] == ms;
  }

  /** No piece holds a marker: the split cut at every one. */
  lemma {:induction false} PiecesHaveNoMarker(s: string)
    ensures forall k, j :: 0 <= k < |Pieces(s)| && 0 <= j <= |Pieces(s)[k]| ==> MarkerLength(Pieces(s)[k], j) == 0
    decreases |s|
  {
    match FindMarker(s, 0)
    case None =>
    case Some(i) =>
      var rest := s[i + MarkerLength(s, i)..];
      PiecesHaveNoMarker(rest);
      forall j | 0 <= j <= i
        ensures MarkerLength(s[..i], j) == 0
      {
        MarkerInPrefix(s, i, j);
      }
      assert Pieces(s)[0] == s[..i];
      assert Pieces(s)[1..] == Pieces(rest);
  }

  /** A marker inside a prefix of the text is a marker of the same length in the text. */
  lemma MarkerInPrefix(s: string, k: nat, p: nat)
    requires p <= k <= |s|
    ensures MarkerLength(s[..k], p) > 0 ==> MarkerLength(s, p) == MarkerLength(s[..k], p)
  {
    var t := s[..k];
    if MarkerLength(t, p) > 0 {
      assert t[p..p + 2] == s[p..p + 2];
      assert t[p + 2..] == s[p + 2..][..k - p - 2];
      DigitRunOfPrefix(s[p + 2..], k - p - 2);
    }
  }

  /** The text of a marker found at `i`, taken on its own, is one whole marker. */
  lemma MarkerOfSlice(s: string, i: nat)
    requires i <= |s| && MarkerLength(s, i) > 0
    ensures var m := s[i..i + MarkerLength(s, i)]; MarkerLength(m, 0) == |m|
  {
    var n := MarkerLength(s, i);
    var m := s[i..i + n];
    assert m[0..2] == s[i..i + 2];
    assert m[2..] == s[i + 2..][..n - 2];
    DigitRunOfPrefix(s[i + 2..], n - 2);
  }

  /** `.filter(Boolean)`: drop the empty pieces, keeping the order. */
  function NonEmpty(pieces: seq<string>): (r: seq<string>)
    ensures forall b :: b in r <==> b in pieces && b != []
    ensures |r| <= |pieces|
    ensures |pieces| == 1 ==> r == if pieces[0] == [] then [] else pieces
  {
    if pieces == [] then []
    else
      var last := pieces[|pieces| - 1];
      assert pieces == pieces[..|pieces| - 1] + [last];
      NonEmpty(pieces[..|pieces| - 1]) + (if last == [] then [] else [last])
  }

  /** The filter works piece by piece: it keeps order and multiplicity. */
  lemma {:induction false} NonEmptyAppend(a: seq<string>, b: seq<string>)
    ensures NonEmpty(a + b) == NonEmpty(a) + NonEmpty(b)
    decreases |b|
  {
    if b == [] {
      assert a + b == a;
    } else {
      var init := b[..|b| - 1];
      assert (a + b)[..|a + b| - 1] == a + init;
      NonEmptyAppend(a, init);
    }
  }

  /** The blocks the parser turns into questions, one each. */
  function Blocks(input: string): (blocks: seq<string>) {
    NonEmpty(Pieces(input))
  }

  /** `\d+\.\s` at `p`: digits, a full stop, and one `\s` character. */
  predicate IsOptionStart(s: string, p: nat)
    requires p <= |s|
  {
    var d := DigitRun(s[p..]);
    d > 0 && p + d + 1 < |s| && s[p + d] == '.' && IsSpace(s[p + d + 1])
  }

  /** Where the lazy text of an option or of the question may stop: another option, `正解:`, or the end. */
  predicate IsOptionEnd(s: string, e: nat)
    requires e <= |s|
  {
    e == |s| || IsOptionStart(s, e) || HasAt(s, e, CorrectMark)
  }

  /** The first place at or after `e` where an option ends: the lazy `.*?` stops as early as it can. */
  function OptionEnd(s: string, e: nat): (r: nat)
    requires e <= |s|
    ensures e <= r <= |s| && IsOptionEnd(s, r)
    ensures forall j :: e <= j < r ==> !IsOptionEnd(s, j)
    decreases |s| - e
  {
    if IsOptionEnd(s, e) then e else OptionEnd(s, e + 1)
  }

  /** Where one option match lies in the block: from `start` up to, not including, `end`. */
  datatype Span = Span(start: nat, end: nat)

  /**
   * The global option matches from `from` on: at the leftmost option start,
   * a match runs from it up to its lazy end, and the search resumes there.
   * The matches are in order, do not overlap, each starts at an option
   * start and ends where `OptionEnd` puts it, and no option start lies in a
   * gap before, between or after them: none is skipped.
   */
  function OptionSpans(s: string, from: nat): (r: seq<Span>)
    requires from <= |s|
    ensures After(from, r) && AllMatches(s, r) && Ordered(r) && NoneSkipped(s, from, r)
    decreases |s| - from
  {
    if from == |s| then []
    else if IsOptionStart(s, from) then
      var m := FirstMatch(s, from);
      var rest := OptionSpans(s, m.end);
      SpansConsMatch(s, m, rest);
      SpansConsOrder(m, rest);
      SpansConsGaps(s, m, rest);
      [m] + rest
    else
      var r := OptionSpans(s, from + 1);
      SpansSkip(s, from, r);
      r
  }

  /** The match at an option start: up to the lazy end after its number, full stop and space. */
  function FirstMatch(s: string, from: nat): (m: Span)
    requires from < |s| && IsOptionStart(s, from)
    ensures m.start == from && IsMatch(s, m)
  {
    Span(from, OptionEnd(s, from + DigitRun(s[from..]) + 2))
  }

  /** `m` is one option match: it starts at an option start and ends where `OptionEnd` puts it. */
  predicate IsMatch(s: string, m: Span) {
    && m.start < |s| && IsOptionStart(s, m.start)
    && m.start + DigitRun(s[m.start..]) + 2 <= m.end <= |s|
    && m.end == OptionEnd(s, m.start + DigitRun(s[m.start..]) + 2)
  }

  /** Every span starts at or after `from`. */
  predicate After(from: nat, r: seq<Span>) {
    forall k :: 0 <= k < |r| ==> from <= r[k].start
  }

  /** Every span is an option match. */
  predicate AllMatches(s: string, r: seq<Span>) {
    forall k :: 0 <= k < |r| ==> IsMatch(s, r[k])
  }

  /** Each span starts at or after the end of the one before: in order, without overlap. */
  predicate Ordered(r: seq<Span>) {
    forall k :: 0 < k < |r| ==> r[k - 1].end <= r[k].start
  }

  /** No option start lies in a gap: before the first span, between two spans, or after the last. */
  predicate NoneSkipped(s: string, from: nat, r: seq<Span>) {
    forall k, j :: 0 <= k <= |r| && GapFrom(r, from, k) <= j < GapTo(r, |s|, k) && j < |s| ==> !IsOptionStart(s, j)
  }

  /** Every span of `[m] + rest` is a match. */
  lemma SpansConsMatch(s: string, m: Span, rest: seq<Span>)
    requires IsMatch(s, m) && AllMatches(s, rest)
    ensures AllMatches(s, [m] + rest)
  {
    var r := [m] + rest;
    forall k | 0 <= k < |r|
      ensures IsMatch(s, r[k])
    {
      if k > 0 {
        assert r[k] == rest[k - 1];
      }
    }
  }

  /** `[m] + rest` is in order, from `m` on, when `rest` is and starts after `m` ends. */
  lemma SpansConsOrder(m: Span, rest: seq<Span>)
    requires m.start <= m.end && After(m.end, rest) && Ordered(rest)
    ensures After(m.start, [m] + rest) && Ordered([m] + rest)
  {
    var r := [m] + rest;
    forall k | 0 <= k < |r|
      ensures m.start <= r[k].start
    {
      if k > 0 {
        assert r[k] == rest[k - 1];
      }
    }
    forall k | 0 < k < |r|
      ensures r[k - 1].end <= r[k].start
    {
      assert r[k] == rest[k - 1];
      if k > 1 {
        assert r[k - 1] == rest[k - 2];
      }
    }
  }

  /** The gaps of `[m] + rest` are an empty one before `m` and the gaps of `rest`. */
  lemma SpansConsGaps(s: string, m: Span, rest: seq<Span>)
    requires NoneSkipped(s, m.end, rest)
    ensures NoneSkipped(s, m.start, [m] + rest)
  {
    GapsCons(m.start, m, rest, |s|);
  }

  /** Skipping a position that starts no option keeps every gap free of option starts. */
  lemma SpansSkip(s: string, from: nat, r: seq<Span>)
    requires from < |s| && !IsOptionStart(s, from)
    requires After(from + 1, r) && NoneSkipped(s, from + 1, r)
    ensures NoneSkipped(s, from, r)
  {
    assert forall k :: 1 <= k <= |r| ==> GapFrom(r, from, k) == GapFrom(r, from + 1, k);
  }

  /** The gaps after a first match are the gaps of the matches that follow it. */
  lemma GapsCons(from: nat, m: Span, rest: seq<Span>, n: nat)
    requires m.start == from
    ensures var r := [m] + rest;
      GapFrom(r, from, 0) == from && GapTo(r, n, 0) == from
    ensures var r := [m] + rest;
      forall k :: 1 <= k <= |r| ==> GapFrom(r, from, k) == GapFrom(rest, m.end, k - 1) && GapTo(r, n, k) == GapTo(rest, n, k - 1)
  {
  }

  /** Where the `k`-th gap between matches begins: at `from`, or at the end of match `k - 1`. */
  function GapFrom(r: seq<Span>, from: nat, k: nat): nat
    requires k <= |r|
  {
    if k == 0 then from else r[k - 1].end
  }

  /** Where the `k`-th gap between matches ends: at match `k`, or at the end of the text. */
  function GapTo(r: seq<Span>, n: nat, k: nat): nat
    requires k <= |r|
  {
    if k == |r| then n else r[k].start
  }

  /** The text of each option match, in order; each begins with `\d+\.\s`. */
  function RawOptions(s: string): (r: seq<string>)
    ensures |r| == |OptionSpans(s, 0)|
    ensures forall k :: 0 <= k < |r| ==>
      r[k] == s[OptionSpans(s, 0)[k].start..OptionSpans(s, 0)[k].end] && IsOptionStart(r[k], 0)
  {
    var spans := OptionSpans(s, 0);
    seq(|spans|, k requires 0 <= k < |spans| => MatchText(s, spans[k]))
  }

  /** The text of one match; it begins with the option start it was found at. */
  function MatchText(s: string, m: Span): (t: string)
    requires IsMatch(s, m)
    ensures t == s[m.start..m.end] && IsOptionStart(t, 0)
  {
    var t := s[m.start..m.end];
    var d := DigitRun(s[m.start..]);
    assert t == s[m.start..][..m.end - m.start];
    DigitRunOfPrefix(s[m.start..], m.end - m.start);
    assert t[d] == s[m.start + d] && t[d + 1] == s[m.start + d + 1];
    t
  }

  /**
   * `opt.replace(/^\d+\.\s*\/, "").trim()`: drop the number, its full stop and
   * the spaces after it, then trim; the result is the trimmed text after the
   * full stop. Text without a leading `\d+.` is only trimmed.
   */
  function OptionText(raw: string): (text: string)
    ensures var d := DigitRun(raw);
      d > 0 && d < |raw| && raw[d] == '.' ==> text == Trim(raw[d + 1..])
  {
    var d := DigitRun(raw);
    if d > 0 && d < |raw| && raw[d] == '.' then
      TrimOfTrimStart(raw[d + 1..]);
      Trim(TrimStart(raw[d + 1..]))
    else Trim(raw)
  }

  /** The option texts of a block, in order: the trimmed text after each match's number and full stop. */
  function Options(block: string): (r: seq<string>)
    ensures |r| == |RawOptions(block)|
    ensures forall i :: 0 <= i < |r| ==>
      var raw := RawOptions(block)[i]; DigitRun(raw) + 1 < |raw| && r[i] == Trim(raw[DigitRun(raw) + 1..])
  {
    var raw := RawOptions(block);
    seq(|raw|, i requires 0 <= i < |raw| => OptionText(raw[i]))
  }

  /** The end of the question text: the first option start or `正解:`, when there is one. */
  function QuestionEnd(s: string, from: nat): (r: Option<nat>)
    requires from <= |s|
    ensures r.Some? ==> from <= r.value < |s| && (IsOptionStart(s, r.value) || HasAt(s, r.value, CorrectMark))
    ensures forall j :: from <= j < |s| && (r.None? || j < r.value) ==> !IsOptionStart(s, j) && !HasAt(s, j, CorrectMark)
    decreases |s| - from
  {
    if from == |s| then None
    else if IsOptionStart(s, from) || HasAt(s, from, CorrectMark) then Some(from)
    else QuestionEnd(s, from + 1)
  }

  /** The trimmed question text, or `None` when the question pattern does not match. */
  function QuestionText(block: string): (question: Option<string>) {
    match QuestionEnd(block, 0)
    case None => None
    case Some(i) => Some(Trim(block[..i]))
  }

  /** `mark\s*(\d+)` at `p`: the value of the digits after the label and any spaces. */
  function LabelledNumberAt(s: string, mark: string, p: nat): (r: Option<nat>)
    requires p <= |s|
    ensures r.Some? ==> HasAt(s, p, mark)
  {
    if HasAt(s, p, mark) then
      var rest := TrimStart(s[p + |mark|..]);
      var d := DigitRun(rest);
      if d > 0 then Some(DigitsValue(rest[..d])) else None
    else None
  }

  /** Where the leftmost match of `mark\s*(\d+)` at or after `from` starts. */
  function FindLabelledNumber(s: string, mark: string, from: nat): (r: Option<nat>)
    requires from <= |s|
    ensures r.Some? ==> from <= r.value <= |s| && LabelledNumberAt(s, mark, r.value).Some?
    ensures forall j :: from <= j <= |s| && (r.None? || j < r.value) ==> LabelledNumberAt(s, mark, j).None?
    decreases |s| - from
  {
    if LabelledNumberAt(s, mark, from).Some? then Some(from)
    else if from == |s| then None
    else FindLabelledNumber(s, mark, from + 1)
  }

  /** The number the leftmost `mark\s*(\d+)` match captures, or `None` without a match. */
  function LabelledNumber(s: string, mark: string): (n: Option<nat>) {
    match FindLabelledNumber(s, mark, 0)
    case None => None
    case Some(p) => LabelledNumberAt(s, mark, p)
  }

  /** The leftmost occurrence of `w` at or after `from`. */
  function Find(s: string, w: string, from: nat): (r: Option<nat>)
    requires from <= |s|
    ensures r.Some? ==> from <= r.value <= |s| && HasAt(s, r.value, w)
    ensures forall j :: from <= j <= |s| && (r.None? || j < r.value) ==> !HasAt(s, j, w)
    decreases |s| - from
  {
    if HasAt(s, from, w) then Some(from)
    else if from == |s| then None
    else Find(s, w, from + 1)
  }

  /** The trimmed text after the first `解説:`, or `None` without one. */
  function Explanation(block: string): (explanation: Option<string>) {
    match Find(block, ExplanationMark, 0)
    case None => None
    case Some(p) => Some(Trim(TrimStart(block[p + |ExplanationMark|..])))
  }

  /** A parsed question, as the form sends it on. */
  datatype ParsedQuestion = ParsedQuestion(
    question: string, options: seq<string>, correctAnswer: nat, difficulty: nat, explanation: Option<string>)

  /**
   * One block. It is rejected (`None`) when the question text is missing or
   * empty, there are fewer than four options, there is no `正解:` number,
   * or the difficulty is missing or 0. The correct answer is not compared
   * with the number of options.
   */
  function ParseBlock(block: string): (r: Option<ParsedQuestion>)
    ensures r.Some? <==>
      && QuestionText(block).Some? && QuestionText(block).value != []
      && |Options(block)| >= 4
      && LabelledNumber(block, CorrectMark).Some?
      && LabelledNumber(block, DifficultyMark).Some?
      && LabelledNumber(block, DifficultyMark).value != 0
    ensures r.Some? ==>
      && r.value.question == QuestionText(block).value
      && r.value.options == Options(block)
      && r.value.correctAnswer == LabelledNumber(block, CorrectMark).value
      && r.value.difficulty == LabelledNumber(block, DifficultyMark).value
      && r.value.explanation == Explanation(block)
  {
    var question := QuestionText(block);
    var options := Options(block);
    var correctAnswer := LabelledNumber(block, CorrectMark);
    var difficulty := LabelledNumber(block, DifficultyMark);
    if question.None? || question.value == [] || |options| < 4 || correctAnswer.None?
       || difficulty.None? || difficulty.value == 0
    then None
    else Some(ParsedQuestion(question.value, options, correctAnswer.value, difficulty.value, Explanation(block)))
  }

  /**
   * `parseQuizInput`: one question per non-empty block, in order, or the
   * error for the first block that does not parse, numbered from 1.
   */
  function ParseQuizInput(input: string): (r: Result<seq<ParsedQuestion>, nat>)
    ensures r.Ok? ==> |r.value| == |Blocks(input)|
                      && forall i :: 0 <= i < |r.value| ==> Some(r.value[i]) == ParseBlock(Blocks(input)[i])
    ensures r.Err? ==> 1 <= r.error <= |Blocks(input)|
                       && ParseBlock(Blocks(input)[r.error - 1]).None?
                       && forall i :: 0 <= i < r.error - 1 ==> ParseBlock(Blocks(input)[i]).Some?
    ensures r.Ok? <==> forall i :: 0 <= i < |Blocks(input)| ==> ParseBlock(Blocks(input)[i]).Some?
  {
    Collect(ParseEach(Blocks(input)))
  }

  /** The blocks parsed one by one. */
  function ParseEach(blocks: seq<string>): (rs: seq<Option<ParsedQuestion>>)
    ensures |rs| == |blocks| && forall i :: 0 <= i < |blocks| ==> rs[i] == ParseBlock(blocks[i])
  {
    seq(|blocks|, i requires 0 <= i < |blocks| => ParseBlock(blocks[i]))
  }

  /** The save button is disabled while saving, or when the quiz text or the title is blank. */
  function SaveDisabled(isSaving: bool, quizInput: string, quizTitle: string): (disabled: bool)
    ensures disabled <==> isSaving || IsBlank(quizInput) || IsBlank(quizTitle)
  {
    TrimSlice(quizInput);
    TrimSlice(quizTitle);
    isSaving || Trim(quizInput) == [] || Trim(quizTitle) == []
  }
}
