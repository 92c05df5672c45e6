/**
 * The challenge mode selection: the user picks a folder, then a number of
 * questions among the game modes the folder has enough questions for, and
 * starts the challenge page for that folder and count. The selections live
 * in the shared quiz context; navigation becomes the `route` field.
 */
module QuizMode {
  import opened Wrappers
  import JsText

  /** A game mode: its name and its number of questions. */
  datatype GameMode = GameMode(name: string, questions: int)

  /** A folder with the number of questions it holds. */
  datatype Folder = Folder(id: int, name: string, questionCount: int)

  /** The game modes offered, in the configured order. */
  const ChallengeConfig: seq<GameMode> := [
    GameMode("テスト", 1),
    GameMode("テスト2", 2),
    GameMode("チャレンジ10", 10),
    GameMode("チャレンジ20", 20),
    GameMode("チャレンジ30", 30),
    GameMode("チャレンジ40", 40),
    GameMode("ライトチャレンジ", 50),
    GameMode("スタンダードモード", 100),
    GameMode("ハーフマラソン", 200),
    GameMode("マラソンモード", 300),
    GameMode("エキスパート", 400),
    GameMode("ウルトラマラソン", 500),
    GameMode("チャレンジ600", 600),
    GameMode("セブンハンドレッド", 700),
    GameMode("マスターズモード", 800),
    GameMode("グランドマスター", 900),
    GameMode("アルティメットチャレンジ", 1000)
  ]

  /** Question counts strictly increase along the list. */
  predicate Ascending(modes: seq<GameMode>) {
    forall i, j :: 0 <= i < j < |modes| ==> modes[i].questions < modes[j].questions
  }

  /** Each count is below the next one. */
  predicate StepsUp(modes: seq<GameMode>) {
    forall i :: 0 <= i < |modes| - 1 ==> modes[i].questions < modes[i + 1].questions
  }

  /** Counts that rise from each mode to the next rise along the whole list. */
  lemma {:induction false} StepsUpAscending(modes: seq<GameMode>)
    requires StepsUp(modes)
    ensures Ascending(modes)
    decreases |modes|
  {
    if |modes| > 1 {
      var init := modes[..|modes| - 1];
      assert StepsUp(init);
      StepsUpAscending(init);
      forall i | 0 <= i < |modes| - 1
        ensures modes[i].questions < modes[|modes| - 1].questions
      {
        assert init[i].questions <= init[|init| - 1].questions;
      }
    }
  }

  /** The configured modes are listed by increasing question count. */
  lemma ConfigAscending()
    ensures Ascending(ChallengeConfig)
  {
    StepsUpAscending(ChallengeConfig);
  }

  /** The modes with at most `count` questions, in list order. */
  function Filter(modes: seq<GameMode>, count: int): (r: seq<GameMode>)
    ensures |r| <= |modes|
  {
    if modes == [] then []
    else
      var init := modes[..|modes| - 1];
      var last := modes[|modes| - 1];
      assert modes == init + [last];
      Filter(init, count) + (if last.questions <= count then [last] else [])
  }

  /**
   * On a list by increasing count the filter keeps a prefix: every mode up
   * to the first one with more than `count` questions.
   */
  lemma {:induction false} FilterAscendingPrefix(modes: seq<GameMode>, count: int)
    requires Ascending(modes)
    ensures var r := Filter(modes, count);
      r == modes[..|r|] && (|r| < |modes| ==> modes[|r|].questions > count)
    decreases |modes|
  {
    if modes != [] {
      var init := modes[..|modes| - 1];
      assert Ascending(init) by {
        assert forall i :: 0 <= i < |init| ==> init[i] == modes[i];
      }
      FilterAscendingPrefix(init, count);
      if modes[|modes| - 1].questions <= count {
        FilterKeepsLast(modes, count);
      } else {
        FilterDropsLast(modes, count);
      }
    }
  }

  /** When the last of a list by increasing count is kept, so is the whole list. */
  lemma FilterKeepsLast(modes: seq<GameMode>, count: int)
    requires Ascending(modes) && modes != [] && modes[|modes| - 1].questions <= count
    ensures Filter(modes, count) == modes
  {
    forall i | 0 <= i < |modes|
      ensures modes[i].questions <= count
    {
      assert i < |modes| - 1 ==> modes[i].questions < modes[|modes| - 1].questions;
    }
    FilterKeepsAll(modes, count);
  }

  /** When the last mode is dropped, the prefix kept from the rest is the prefix kept from the list. */
  lemma FilterDropsLast(modes: seq<GameMode>, count: int)
    requires modes != [] && modes[|modes| - 1].questions > count
    requires var init := modes[..|modes| - 1]; var r := Filter(init, count);
      r == init[..|r|] && (|r| < |init| ==> init[|r|].questions > count)
    ensures var r := Filter(modes, count);
      r == modes[..|r|] && (|r| < |modes| ==> modes[|r|].questions > count)
  {
    var init := modes[..|modes| - 1];
    var k := |Filter(init, count)|;
    assert Filter(modes, count) == Filter(init, count);
    assert modes[..k] == init[..k];
  }

  /** The filter keeps exactly the modes with at most `count` questions. */
  lemma {:induction false} FilterMembers(modes: seq<GameMode>, count: int)
    ensures forall m :: m in Filter(modes, count) <==> m in modes && m.questions <= count
    decreases |modes|
  {
    if modes != [] {
      var init := modes[..|modes| - 1];
      var last := modes[|modes| - 1];
      assert modes == init + [last];
      FilterMembers(init, count);
    }
  }

  /** A list whose every mode has at most `count` questions is kept whole. */
  lemma {:induction false} FilterKeepsAll(modes: seq<GameMode>, count: int)
    requires forall i :: 0 <= i < |modes| ==> modes[i].questions <= count
    ensures Filter(modes, count) == modes
    decreases |modes|
  {
    if modes != [] {
      var init := modes[..|modes| - 1];
      FilterKeepsAll(init, count);
      assert Filter(modes, count) == Filter(init, count) + [modes[|modes| - 1]];
      assert init + [modes[|modes| - 1]] == modes;
    }
  }

  /** `availableGameModes`: no mode without a folder, else the modes the folder has enough questions for. */
  function AvailableGameModes(folder: Option<Folder>): (r: seq<GameMode>)
    ensures folder.None? ==> r == []
    ensures forall m :: m in r <==> folder.Some? && m in ChallengeConfig && m.questions <= folder.value.questionCount
  {
    if folder.None? then []
    else
      FilterMembers(ChallengeConfig, folder.value.questionCount);
      Filter(ChallengeConfig, folder.value.questionCount)
  }

  /** The modes offered for a folder are the first configured ones, up to the first that needs more questions than it has. */
  lemma AvailablePrefix(folder: Folder)
    ensures var r := AvailableGameModes(Some(folder));
      && r == ChallengeConfig[..|r|]
      && (|r| < |ChallengeConfig| ==> ChallengeConfig[|r|].questions > folder.questionCount)
  {
    ConfigAscending();
    FilterAscendingPrefix(ChallengeConfig, folder.questionCount);
  }

  /** The first folder with the id, if any (`find`). */
  function FindFolder(folders: seq<Folder>, id: int): (r: Option<Folder>)
    ensures r.Some? ==> r.value in folders && r.value.id == id
    ensures r.None? ==> forall f :: f in folders ==> f.id != id
    ensures r.Some? ==> exists k :: 0 <= k < |folders| && folders[k] == r.value && forall j :: 0 <= j < k ==> folders[j].id != id
  {
    if folders == [] then None
    else if folders[0].id == id then Some(folders[0])
    else
      var r := FindFolder(folders[1..], id);
      if r.Some? then
        var k :| 0 <= k < |folders[1..]| && folders[1..][k] == r.value && forall j :: 0 <= j < k ==> folders[1..][j].id != id;
        assert folders[k + 1] == r.value;
        r
      else r
  }

  /** The first mode with exactly `count` questions, if any (`find`). */
  function FindMode(modes: seq<GameMode>, count: int): (r: Option<GameMode>)
    ensures r.Some? ==> r.value in modes && r.value.questions == count
    ensures r.None? ==> forall m :: m in modes ==> m.questions != count
  {
    if modes == [] then None
    else if modes[0].questions == count then Some(modes[0])
    else FindMode(modes[1..], count)
  }

  /** `selectedMode?.name || null`: the name of the mode found, unless there is none or it is empty. */
  function ModeName(mode: Option<GameMode>): (name: Option<string>)
    ensures name.Some? <==> mode.Some? && mode.value.name != []
    ensures name.Some? ==> name.value == mode.value.name
  {
    if mode.Some? && mode.value.name != [] then Some(mode.value.name) else None
  }

  /** The path of the challenge page before the folder id. */
  const StartPrefix: string := "/dashboard/challenge/start?folderId="

  /** The text between the folder id and the question count. */
  const QuestionsKey: string := "&questions="

  /** The challenge page for a folder and a number of questions. */
  function ChallengeRoute(folderId: int, questions: int): (route: string)
    ensures |route| > |StartPrefix| && route[..|StartPrefix|] == StartPrefix
  {
    StartPrefix + JsText.IntToString(folderId) + QuestionsKey + JsText.IntToString(questions)
  }

  /** A number's text holds no `&`. */
  lemma NoAmpersand(n: int)
    ensures '&' !in JsText.IntToString(n)
  {
    var s := JsText.NatToString(if n < 0 then -n else n);
    assert forall i :: 0 <= i < |s| ==> s[i] != '&';
  }

  /** The position of the first `&`, or the length when there is none. */
  function AmpersandAt(s: string): (p: nat)
    ensures p <= |s| && (p < |s| ==> s[p] == '&')
    ensures forall i :: 0 <= i < p ==> s[i] != '&'
  {
    if s == [] || s[0] == '&' then 0 else 1 + AmpersandAt(s[1..])
  }

  /** Around the `&` of the key, two texts without `&` split the same way. */
  lemma SplitAtKey(s1: string, t1: string, s2: string, t2: string)
    requires '&' !in s1 && '&' !in s2
    requires s1 + QuestionsKey + t1 == s2 + QuestionsKey + t2
    ensures s1 == s2 && t1 == t2
  {
    var a := s1 + QuestionsKey + t1;
    assert AmpersandAt(a) == |s1| by {
      assert forall i :: 0 <= i < |s1| ==> a[i] == s1[i];
      assert a[|s1|] == '&';
    }
    assert AmpersandAt(a) == |s2| by {
      assert forall i :: 0 <= i < |s2| ==> a[i] == s2[i];
      assert a[|s2|] == '&';
    }
    assert s1 == a[..|s1|] && s2 == a[..|s2|];
    assert t1 == a[|s1| + |QuestionsKey|..] && t2 == a[|s2| + |QuestionsKey|..];
  }

  /** The challenge page determines both values: different choices lead to different pages. */
  lemma ChallengeRouteInjective(f1: int, q1: int, f2: int, q2: int)
    requires ChallengeRoute(f1, q1) == ChallengeRoute(f2, q2)
    ensures f1 == f2 && q1 == q2
  {
    var s1, t1 := JsText.IntToString(f1), JsText.IntToString(q1);
    var s2, t2 := JsText.IntToString(f2), JsText.IntToString(q2);
    var n := |StartPrefix|;
    assert s1 + QuestionsKey + t1 == ChallengeRoute(f1, q1)[n..];
    assert s2 + QuestionsKey + t2 == ChallengeRoute(f2, q2)[n..];
    NoAmpersand(f1);
    NoAmpersand(f2);
    SplitAtKey(s1, t1, s2, t2);
    JsText.ParseIntOfIntToString(f1);
    JsText.ParseIntOfIntToString(f2);
    JsText.ParseIntOfIntToString(q1);
    JsText.ParseIntOfIntToString(q2);
  }

  /** The selections of the shared quiz context and the page the screen went to. */
  class ModeSelection {
    const folders: seq<Folder>
    var selectedFolder: Option<Folder>
    var selectedQuestions: Option<int>
    var selectedMode: Option<string>
    var route: Option<string>

    /** A chosen folder is one of the folders listed. */
    ghost predicate Valid()
      reads this
    {
      selectedFolder.Some? ==> selectedFolder.value in folders
    }

    /** The context starts with nothing selected. */
    constructor(folders: seq<Folder>)
      ensures Valid() && this.folders == folders
      ensures selectedFolder == None && selectedQuestions == None && selectedMode == None && route == None
    {
      this.folders := folders;
      selectedFolder := None;
      selectedQuestions := None;
      selectedMode := None;
      route := None;
    }

    /** The start button is disabled without a folder or without a (non-zero) count. */
    function StartDisabled(): (disabled: bool)
      reads this
      ensures disabled <==> selectedFolder.None? || selectedQuestions.None? || selectedQuestions.value == 0
    {
      selectedFolder.None? || selectedQuestions.None? || selectedQuestions.value == 0
    }

    /** Choosing the folder with the given id (none when no folder has it) resets the count. */
    method OnFolderChange(id: int)
      requires Valid()
      modifies this`selectedFolder, this`selectedQuestions
      ensures Valid()
      ensures selectedFolder == FindFolder(folders, id) && selectedQuestions == None
    {
      selectedFolder := FindFolder(folders, id);
      selectedQuestions := None;
    }

    /** Choosing a count stores it and the name of the available mode with that count, or none. */
    method OnQuestionsChange(count: int)
      requires Valid()
      modifies this`selectedQuestions, this`selectedMode
      ensures Valid()
      ensures selectedQuestions == Some(count)
      ensures selectedMode == ModeName(FindMode(AvailableGameModes(selectedFolder), count))
      ensures selectedMode.Some? ==>
        exists m :: m in ChallengeConfig && m.questions == count && m.name == selectedMode.value
    {
      var mode := FindMode(AvailableGameModes(selectedFolder), count);
      selectedQuestions := Some(count);
      selectedMode := ModeName(mode);
    }

    /** `startChallenge`: go to the challenge page for the folder and count, unless the start button is disabled. */
    method StartChallenge() returns (started: bool)
      requires Valid()
      modifies this`route
      ensures Valid()
      ensures started <==> !StartDisabled()
      ensures !started ==> route == old(route)
      ensures started ==> route == Some(ChallengeRoute(selectedFolder.value.id, selectedQuestions.value))
    {
      if selectedFolder.Some? && selectedQuestions.Some? && selectedQuestions.value != 0 {
        route := Some(ChallengeRoute(selectedFolder.value.id, selectedQuestions.value));
        return true;
      }
      return false;
    }
  }
}
