/**
 * `GET /api/challenge/questions`: the questions of one folder, shuffled,
 * cut to the requested number, and reduced to what the challenge page
 * shows. The shuffle sorts a copy with a random comparator; the order it
 * produces is an input here, as a permutation of the positions.
 */
module ChallengeQuestions {
  import opened Wrappers
  import JsText

  /** An answer option of a question. */
  datatype Choice = Choice(id: int, text: string, isCorrect: bool)

  /** A question row with the relations the query includes, and the folder its quiz's file lies in. */
  datatype QuestionRow = QuestionRow(
    id: int, text: string, options: seq<Choice>, feedback: Option<string>,
    quizImagePath: Option<string>, folderId: int)

  /** What the page receives for one question. */
  datatype Formatted = Formatted(
    id: int, text: string, options: seq<Choice>, feedback: Option<string>, imagePath: Option<string>)

  datatype Response = BadRequest | NotFound | Questions(questions: seq<Formatted>)

  /**
   * `parseInt(param || "0")`, with no radix: a missing or empty parameter
   * reads as 0, and a `0x` prefix switches to base 16.
   */
  function Param(param: Option<string>): (n: Option<int>)
    ensures param.None? || param.value == [] ==> n == Some(0)
    ensures param.Some? && !JsText.HasHexPrefix(JsText.Unsigned(param.value)) && param.value != [] ==>
      n == JsText.ParseInt(param.value)
  {
    JsText.ParseIntAutoOfIntToString(0);
    JsText.ParseIntAuto(if param.None? || param.value == [] then "0" else param.value)
  }

  /** A parameter holding an integer's decimal text reads as that integer. */
  lemma ParamOfDecimal(k: int)
    ensures Param(Some(JsText.IntToString(k))) == Some(k)
  {
    JsText.ParseIntAutoOfIntToString(k);
  }

  /** A parameter `0x` followed by hexadecimal digits reads as their base-16 value. */
  lemma ParamOfHex(ds: string)
    requires |ds| > 0 && forall i :: 0 <= i < |ds| ==> JsText.IsHexDigit(ds[i])
    ensures Param(Some("0x" + ds)) == Some(JsText.HexValue(ds))
  {
    JsText.ParseIntAutoOfHex(ds);
  }

  /** `folderId=0x1A` reads as folder 26, so the route goes on to the lookup. */
  lemma HexFolderId()
    ensures Param(Some("0x1A")) == Some(26)
  {
    ParamOfHex("1A");
    assert "0x" + "1A" == "0x1A";
    assert "1A"[..1] == "1";
    assert JsText.HexValue("1") == 1;
  }

  /** `!n || n <= 0` for a parsed number: `NaN`, zero and negatives are rejected. */
  predicate Positive(n: Option<int>) {
    n.Some? && n.value > 0
  }

  /**
   * The rows of one folder, in table order. It matches one folder id, not a
   * list of ids, so it is not the `in` filter of the other routes.
   */
  function InFolder(table: seq<QuestionRow>, folderId: int): (r: seq<QuestionRow>)
    ensures forall q :: q in r <==> q in table && q.folderId == folderId
  {
    if table == [] then []
    else
      var init := table[..|table| - 1];
      var last := table[|table| - 1];
      assert table == init + [last];
      InFolder(init, folderId) + (if last.folderId == folderId then [last] else [])
  }

  /** `order` lists every position below `n` exactly once. */
  predicate IsPermutation(order: seq<nat>, n: nat) {
    && |order| == n
    && (forall i :: 0 <= i < n ==> order[i] < n)
    && (forall i, j :: 0 <= i < j < n ==> order[i] != order[j])
  }

  /** `s` rearranged: the element at position `order[i]` goes to position `i`. */
  function Permute<T>(s: seq<T>, order: seq<nat>): (r: seq<T>)
    requires IsPermutation(order, |s|)
    ensures |r| == |s| && forall i :: 0 <= i < |s| ==> r[i] == s[order[i]]
  {
    seq(|s|, i requires 0 <= i < |s| => s[order[i]])
  }

  /** Rearranging keeps every element as often as it was: the shuffle is a reordering. */
  lemma {:induction false} PermutePreservesMultiset<T>(s: seq<T>, order: seq<nat>)
    requires IsPermutation(order, |s|)
    ensures multiset(Permute(s, order)) == multiset(s)
    decreases |s|
  {
    if |s| > 0 {
      var n := |s|;
      var p := order[n - 1];
      var rest := s[..p] + s[p + 1..];
      var order' := Renumber(order[..n - 1], p);
      RenumberPermutation(order, p);
      PermutePreservesMultiset(rest, order');
      PermuteLast(s, order);
      assert s == s[..p] + [s[p]] + s[p + 1..];
    }
  }

  /** `p` is not among the positions. */
  predicate Avoids(order: seq<nat>, p: nat) {
    forall i :: 0 <= i < |order| ==> order[i] != p
  }

  /** The positions after `p` moved down by one, as when the element at `p` is taken out. */
  function Renumber(order: seq<nat>, p: nat): (r: seq<nat>)
    requires Avoids(order, p)
    ensures |r| == |order|
    ensures forall i :: 0 <= i < |order| ==> r[i] == if order[i] < p then order[i] else order[i] - 1
  {
    seq(|order|, i requires 0 <= i < |order| => if order[i] < p then order[i] else order[i] - 1)
  }

  /** Without its last position, renumbered around it, a permutation is a permutation of one fewer. */
  lemma RenumberPermutation(order: seq<nat>, p: nat)
    requires |order| > 0 && IsPermutation(order, |order|) && p == order[|order| - 1]
    ensures Avoids(order[..|order| - 1], p)
    ensures IsPermutation(Renumber(order[..|order| - 1], p), |order| - 1)
  {
  }

  /** The rearrangement ends with the element the last position names, after the rest rearranged. */
  lemma PermuteLast<T>(s: seq<T>, order: seq<nat>)
    requires |s| > 0 && IsPermutation(order, |s|)
    ensures var p := order[|s| - 1];
      IsPermutation(Renumber(order[..|s| - 1], p), |s| - 1) &&
      Permute(s, order) == Permute(s[..p] + s[p + 1..], Renumber(order[..|s| - 1], p)) + [s[p]]
  {
    RenumberPermutation(order, order[|s| - 1]);
  }

  /** `slice(0, limit)`. */
  function Take<T>(s: seq<T>, limit: int): (r: seq<T>)
    ensures |r| == if limit < 0 then 0 else if limit < |s| then limit else |s|
    ensures r == s[..|r|]
  {
    if limit <= 0 then [] else if limit < |s| then s[..limit] else s
  }

  /** The record of one question. */
  function Format(q: QuestionRow): (f: Formatted)
    ensures f.id == q.id && f.text == q.text && f.options == q.options
    ensures f.feedback == q.feedback && f.imagePath == q.quizImagePath
  {
    Formatted(q.id, q.text, q.options, q.feedback, q.quizImagePath)
  }

  /** The shuffle order fits the folder's questions. */
  predicate OrderFits(table: seq<QuestionRow>, folderId: Option<int>, order: seq<nat>) {
    folderId.Some? ==> IsPermutation(order, |InFolder(table, folderId.value)|)
  }

  /**
   * The route. Checks in order: the folder id (400), the limit (400),
   * some question in the folder (404); then the folder's questions are
   * shuffled, the first `limit` kept, and each formatted.
   */
  function Get(folderParam: Option<string>, limitParam: Option<string>, table: seq<QuestionRow>,
               order: seq<nat>): (r: Response)
    requires OrderFits(table, Param(folderParam), order)
    ensures !Positive(Param(folderParam)) ==> r == BadRequest
    ensures r == BadRequest <==> !Positive(Param(folderParam)) || !Positive(Param(limitParam))
    ensures r == NotFound <==>
      Positive(Param(folderParam)) && Positive(Param(limitParam)) && InFolder(table, Param(folderParam).value) == []
    ensures r.Questions? ==>
      var rows := InFolder(table, Param(folderParam).value);
      var limit := Param(limitParam).value;
      && |r.questions| == (if limit < |rows| then limit else |rows|)
      && r.questions == Pick(rows, order, limit)
  {
    var folderId := Param(folderParam);
    var limit := Param(limitParam);
    if !Positive(folderId) then BadRequest
    else if !Positive(limit) then BadRequest
    else
      var rows := InFolder(table, folderId.value);
      if rows == [] then NotFound
      else
        Questions(Pick(rows, order, limit.value))
  }

  /** The shuffled rows cut to `limit` and formatted. */
  function Pick(rows: seq<QuestionRow>, order: seq<nat>, limit: int): (r: seq<Formatted>)
    requires IsPermutation(order, |rows|)
    ensures |r| == if limit < 0 then 0 else if limit < |rows| then limit else |rows|
    ensures forall i :: 0 <= i < |r| ==> r[i] == Format(rows[order[i]])
  {
    var picked := Take(Permute(rows, order), limit);
    seq(|picked|, i requires 0 <= i < |picked| => Format(picked[i]))
  }

  /** A prefix of a rearrangement holds nothing more often than the original. */
  lemma PrefixOfPermute<T>(s: seq<T>, order: seq<nat>, k: nat)
    requires IsPermutation(order, |s|) && k <= |s|
    ensures multiset(Permute(s, order)[..k]) <= multiset(s)
  {
    var all := Permute(s, order);
    assert all == all[..k] + all[k..];
    PermutePreservesMultiset(s, order);
  }

  /**
   * The page gets a sub-multiset of the folder's records, so when the
   * folder's question ids are all different it never gets one question twice.
   */
  lemma PickWithoutRepeats(rows: seq<QuestionRow>, order: seq<nat>, limit: int)
    requires IsPermutation(order, |rows|)
    ensures multiset(Pick(rows, order, limit)) <= multiset(seq(|rows|, k requires 0 <= k < |rows| => Format(rows[k])))
    ensures (forall i, j :: 0 <= i < j < |rows| ==> rows[i].id != rows[j].id) ==>
      var qs := Pick(rows, order, limit);
      forall i, j :: 0 <= i < j < |qs| ==> qs[i].id != qs[j].id
  {
    var qs := Pick(rows, order, limit);
    var formatted := seq(|rows|, k requires 0 <= k < |rows| => Format(rows[k]));
    assert qs == Permute(formatted, order)[..|qs|];
    PrefixOfPermute(formatted, order, |qs|);
  }
}
