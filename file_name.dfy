/**
 * The upload-name sanitiser shared by the quiz and the boss creation routes:
 * `name.replace(/[^a-zA-Z0-9_.-]/g, "")` deletes every character outside
 * the ASCII letters, the digits, `_`, `.` and `-`; the result names the
 * upload under `uploads/`, after the upload time.
 */
module FileName {
  import JsText

  /** A character the sanitiser keeps. */
  predicate IsSafe(c: char) {
    ('a' <= c <= 'z') || ('A' <= c <= 'Z') || ('0' <= c <= '9') || c == '_' || c == '.' || c == '-'
  }

  /** The number of times `c` occurs in `s`. */
  function Count(s: string, c: char): (k: nat) {
    if s == [] then 0 else Count(s[..|s| - 1], c) + (if s[|s| - 1] == c then 1 else 0)
  }

  /** `s` is `t` with some characters deleted and the rest left in order. */
  predicate IsSubsequence(s: string, t: string) {
    if s == [] then true
    else if t == [] then false
    else if s[|s| - 1] == t[|t| - 1] then IsSubsequence(s[..|s| - 1], t[..|t| - 1])
    else IsSubsequence(s, t[..|t| - 1])
  }

  /** The sanitised file name. */
  function Sanitize(name: string): (r: string)
    ensures forall i :: 0 <= i < |r| ==> IsSafe(r[i])
    ensures |r| <= |name|
  {
    if name == [] then []
    else
      var last := name[|name| - 1];
      Sanitize(name[..|name| - 1]) + (if IsSafe(last) then [last] else [])
  }

  /**
   * The sanitised name keeps exactly the safe characters: every safe
   * character as often as in the original, every other character never.
   */
  lemma {:induction false} SanitizeCounts(name: string, c: char)
    ensures Count(Sanitize(name), c) == if IsSafe(c) then Count(name, c) else 0
  {
    if name != [] {
      var init := name[..|name| - 1];
      var last := name[|name| - 1];
      SanitizeCounts(init, c);
      var r := Sanitize(name);
      if IsSafe(last) {
        assert r[..|r| - 1] == Sanitize(init);
      } else {
        assert r == Sanitize(init);
      }
    }
  }

  /** The kept characters stay in their original order. */
  lemma {:induction false} SanitizeIsSubsequence(name: string)
    ensures IsSubsequence(Sanitize(name), name)
  {
    if name != [] {
      var init := name[..|name| - 1];
      var last := name[|name| - 1];
      SanitizeIsSubsequence(init);
      var r := Sanitize(name);
      if IsSafe(last) {
        assert r[..|r| - 1] == Sanitize(init);
      } else {
        assert r == Sanitize(init);
        SubsequenceOfLonger(r, init, last);
      }
    }
  }

  /** Appending to the longer string keeps a subsequence a subsequence. */
  lemma {:induction false} SubsequenceOfLonger(s: string, t: string, c: char)
    requires IsSubsequence(s, t)
    ensures IsSubsequence(s, t + [c])
    decreases |t|, 1
  {
    var t' := t + [c];
    assert t'[..|t'| - 1] == t;
    if s != [] && s[|s| - 1] == c {
      SubsequenceDropLast(s, t);
    }
  }

  /** Dropping the last character of a subsequence keeps it a subsequence. */
  lemma {:induction false} SubsequenceDropLast(s: string, t: string)
    requires s != [] && IsSubsequence(s, t)
    ensures IsSubsequence(s[..|s| - 1], t)
    decreases |t|, 0
  {
    var s', t' := s[..|s| - 1], t[..|t| - 1];
    if s[|s| - 1] != t[|t| - 1] {
      SubsequenceDropLast(s, t');
    }
    SubsequenceOfLonger(s', t', t[|t| - 1]);
    assert t' + [t[|t| - 1]] == t;
  }

  /** A name that is already safe comes through unchanged, so sanitising is idempotent. */
  lemma {:induction false} SanitizeSafe(name: string)
    requires forall i :: 0 <= i < |name| ==> IsSafe(name[i])
    ensures Sanitize(name) == name
  {
    if name != [] {
      SanitizeSafe(name[..|name| - 1]);
    }
  }

  /** Sanitising a sanitised name changes nothing. */
  lemma SanitizeIdempotent(name: string)
    ensures Sanitize(Sanitize(name)) == Sanitize(name)
  {
    SanitizeSafe(Sanitize(name));
  }

  /** The storage path of an upload: `uploads/<time>_<sanitised name>`. */
  function UploadPath(now: int, name: string): (path: string)
    ensures |path| > 8 && path[..8] == "uploads/"
    ensures var n := Sanitize(name);
      |n| < |path| && path[|path| - |n|..] == n && forall i :: |path| - |n| <= i < |path| ==> IsSafe(path[i])
  {
    "uploads/" + JsText.IntToString(now) + "_" + Sanitize(name)
  }
}
