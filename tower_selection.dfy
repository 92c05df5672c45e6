/**
 * The Battle Tower selection screen: the experience bar, the list of
 * floors the user may climb, the floor-to-difficulty rule, and the handlers
 * that pick a folder, files and quizzes before a battle starts. The screen
 * reads the selected floor and the setters for the floor, the difficulty
 * and the battle quizzes from the quiz context, whose provider does not
 * supply them; the model keeps these values as fields of the screen, the
 * state the handlers evidently mean to set, with `floor == None` standing
 * for `null`. Alerts and rendering are not modelled; navigation is the
 * route the screen pushes.
 */
module TowerSelection {
  import opened Wrappers
  import JsText
  import Progression

  /** A quiz row as the screen holds it. */
  datatype QuizItem = QuizItem(id: int, title: string)

  /** A file of a folder with its quizzes. */
  datatype FileEntry = FileEntry(id: int, name: string, quizzes: seq<QuizItem>)

  /** A folder with its files. */
  datatype Folder = Folder(id: int, name: string, files: seq<FileEntry>)

  /** `difficultyIncrementFloor`: each block of ten floors is one difficulty. */
  const DifficultyIncrementFloor := 10

  /** `levelUpMultiplier` in tenths of an experience point, as the progression stores it. */
  const LevelUpTenths := 150

  /** `nextLevelExp`: the experience that completes the user's level. */
  function NextLevelExp(userLevel: int): (e: int)
    ensures userLevel >= 1 ==> e >= LevelUpTenths
  {
    userLevel * LevelUpTenths
  }

  /** `remainingExp`: what is still missing to the next level. */
  function RemainingExp(userLevel: int, userExperience: int): (e: int)
    ensures e > 0 <==> userExperience < NextLevelExp(userLevel)
  {
    NextLevelExp(userLevel) - userExperience
  }

  /**
   * After a gain, the stored level and experience always leave a positive
   * remainder on the bar: the level-up loop stops under the threshold the
   * bar shows.
   */
  lemma RemainingExpAfterGain(level: int, total: int, delta: int)
    requires level >= 1 && delta > 0
    ensures var p := Progression.Settle(level, total, delta, LevelUpTenths);
      RemainingExp(p.level, p.experience) > 0
  {
    Progression.LevelUpSpec(total, level, LevelUpTenths);
  }

  /** `Math.ceil(floorLevel / 10)`, with the floor division written for every sign. */
  function CalculateDifficulty(floorLevel: int): (d: int)
    ensures DifficultyIncrementFloor * (d - 1) < floorLevel <= DifficultyIncrementFloor * d
  {
    -((-floorLevel) / DifficultyIncrementFloor)
  }

  /** Floors 1 to 10 are difficulty 1, 11 to 20 difficulty 2, and every floor from 1 up is at least 1. */
  lemma DifficultyBands(floorLevel: int)
    ensures 1 <= floorLevel <= 10 ==> CalculateDifficulty(floorLevel) == 1
    ensures 11 <= floorLevel <= 20 ==> CalculateDifficulty(floorLevel) == 2
    ensures floorLevel >= 1 ==> CalculateDifficulty(floorLevel) >= 1
  {
  }

  /** A higher floor is never an easier difficulty. */
  lemma DifficultyMonotone(low: int, high: int)
    requires low <= high
    ensures CalculateDifficulty(low) <= CalculateDifficulty(high)
  {
  }

  /** `Array.from({ length: userLevel }, (_, i) => i + 1)`: the floors `1..userLevel`. */
  function FloorLevels(userLevel: int): (floors: seq<int>)
    ensures |floors| == if userLevel < 0 then 0 else userLevel
    ensures forall i :: 0 <= i < |floors| ==> floors[i] == i + 1
  {
    seq(if userLevel < 0 then 0 else userLevel, i => i + 1)
  }

  /** The user may climb exactly the floors from 1 to their level, and none is harder than their top floor. */
  lemma FloorLevelsMembers(userLevel: int, f: int)
    ensures f in FloorLevels(userLevel) <==> 1 <= f <= userLevel
    ensures f in FloorLevels(userLevel) ==> 1 <= CalculateDifficulty(f) <= CalculateDifficulty(userLevel)
  {
    if 1 <= f <= userLevel {
      assert FloorLevels(userLevel)[f - 1] == f;
      DifficultyMonotone(f, userLevel);
    }
  }

  /** `ids.filter(x => x !== id)`. */
  function RemoveId(ids: seq<int>, id: int): (r: seq<int>)
    ensures forall x :: x in r <==> x in ids && x != id
    ensures |r| <= |ids|
  {
    if ids == [] then []
    else
      var last := ids[|ids| - 1];
      assert ids == ids[..|ids| - 1] + [last];
      RemoveId(ids[..|ids| - 1], id) + (if last == id then [] else [last])
  }

  /** No value occurs twice. */
  predicate Distinct(ids: seq<int>) {
    forall i, j :: 0 <= i < j < |ids| ==> ids[i] != ids[j]
  }

  /** The file toggle: remove the id when it is selected, append it otherwise. */
  function ToggleId(ids: seq<int>, id: int): (r: seq<int>)
    ensures id in r <==> id !in ids
    ensures forall x :: x != id ==> (x in r <==> x in ids)
  {
    if id in ids then RemoveId(ids, id) else ids + [id]
  }

  /** Removing a value not present changes nothing. */
  lemma {:induction false} RemoveAbsent(ids: seq<int>, id: int)
    requires id !in ids
    ensures RemoveId(ids, id) == ids
  {
    if ids != [] {
      RemoveAbsent(ids[..|ids| - 1], id);
    }
  }

  /** Removing keeps the values apart. */
  lemma {:induction false} RemoveIdDistinct(ids: seq<int>, id: int)
    requires Distinct(ids)
    ensures Distinct(RemoveId(ids, id))
  {
    if ids != [] {
      var init := ids[..|ids| - 1];
      RemoveIdDistinct(init, id);
      var r := RemoveId(ids, id);
      if ids[|ids| - 1] != id {
        forall i, j | 0 <= i < j < |r|
          ensures r[i] != r[j]
        {
          if j == |r| - 1 {
            assert r[i] in init;
          }
        }
      }
    }
  }

  /** Toggling an unselected file twice gives back the selection it started from. */
  lemma ToggleTwice(ids: seq<int>, id: int)
    requires id !in ids
    ensures ToggleId(ToggleId(ids, id), id) == ids
  {
    var once := ids + [id];
    assert id in once;
    RemoveAbsent(ids, id);
    assert once[..|once| - 1] == ids;
  }

  /** The toggle never selects a file twice. */
  lemma ToggleIdDistinct(ids: seq<int>, id: int)
    requires Distinct(ids)
    ensures Distinct(ToggleId(ids, id))
  {
    if id in ids {
      RemoveIdDistinct(ids, id);
    }
  }

  /** Some quiz of `quizzes` has the id `id`. */
  predicate HasId(quizzes: seq<QuizItem>, id: int) {
    exists q :: q in quizzes && q.id == id
  }

  /** No two quizzes share an id. */
  predicate DistinctIds(quizzes: seq<QuizItem>) {
    forall i, j :: 0 <= i < j < |quizzes| ==> quizzes[i].id != quizzes[j].id
  }

  /** `quizzes.filter(q => q.id !== id)`. */
  function RemoveQuiz(quizzes: seq<QuizItem>, id: int): (r: seq<QuizItem>)
    ensures forall q :: q in r <==> q in quizzes && q.id != id
  {
    if quizzes == [] then []
    else
      var last := quizzes[|quizzes| - 1];
      assert quizzes == quizzes[..|quizzes| - 1] + [last];
      RemoveQuiz(quizzes[..|quizzes| - 1], id) + (if last.id == id then [] else [last])
  }

  /** Removing quizzes keeps the ids apart. */
  lemma {:induction false} RemoveQuizDistinct(quizzes: seq<QuizItem>, id: int)
    requires DistinctIds(quizzes)
    ensures DistinctIds(RemoveQuiz(quizzes, id))
  {
    if quizzes != [] {
      var init := quizzes[..|quizzes| - 1];
      RemoveQuizDistinct(init, id);
      assert forall q :: q in RemoveQuiz(init, id) ==> q in init;
    }
  }

  /**
   * The quiz toggle: when a quiz with this id is selected, every quiz with
   * that id is removed; otherwise the quiz is appended.
   */
  function ToggleQuiz(quizzes: seq<QuizItem>, quiz: QuizItem): (r: seq<QuizItem>)
    ensures HasId(quizzes, quiz.id) ==> !HasId(r, quiz.id) && forall q: QuizItem :: q.id != quiz.id ==> (q in r <==> q in quizzes)
    ensures !HasId(quizzes, quiz.id) ==> r == quizzes + [quiz]
  {
    if HasId(quizzes, quiz.id) then RemoveQuiz(quizzes, quiz.id) else quizzes + [quiz]
  }

  /** The quiz toggle never selects two quizzes with one id. */
  lemma ToggleQuizDistinct(quizzes: seq<QuizItem>, quiz: QuizItem)
    requires DistinctIds(quizzes)
    ensures DistinctIds(ToggleQuiz(quizzes, quiz))
  {
    if HasId(quizzes, quiz.id) {
      RemoveQuizDistinct(quizzes, quiz.id);
    } else {
      var r := quizzes + [quiz];
      forall i, j | 0 <= i < j < |r|
        ensures r[i].id != r[j].id
      {
        if j == |r| - 1 {
          assert r[i] in quizzes;
        }
      }
    }
  }

  /**
   * `filter((quiz, index, self) => self.findIndex(q => q.id === quiz.id) === index)`:
   * keep a quiz only when no earlier quiz has its id.
   */
  function FirstById(quizzes: seq<QuizItem>): (r: seq<QuizItem>)
    ensures forall q :: q in r ==> q in quizzes
    ensures forall q :: q in quizzes ==> HasId(r, q.id)
    ensures |r| <= |quizzes|
  {
    if quizzes == [] then []
    else
      var init := quizzes[..|quizzes| - 1];
      var last := quizzes[|quizzes| - 1];
      assert quizzes == init + [last];
      FirstById(init) + (if HasId(init, last.id) then [] else [last])
  }

  /** The kept quizzes have distinct ids. */
  lemma {:induction false} FirstByIdDistinct(quizzes: seq<QuizItem>)
    ensures DistinctIds(FirstById(quizzes))
  {
    if quizzes != [] {
      var init := quizzes[..|quizzes| - 1];
      var last := quizzes[|quizzes| - 1];
      FirstByIdDistinct(init);
      var r := FirstById(quizzes);
      if !HasId(init, last.id) {
        forall i, j | 0 <= i < j < |r|
          ensures r[i].id != r[j].id
        {
          if j == |r| - 1 {
            assert r[i] in FirstById(init);
          }
        }
      }
    }
  }

  /** A list whose ids are already distinct passes through unchanged. */
  lemma {:induction false} FirstByIdOfDistinct(quizzes: seq<QuizItem>)
    requires DistinctIds(quizzes)
    ensures FirstById(quizzes) == quizzes
  {
    if quizzes != [] {
      var init := quizzes[..|quizzes| - 1];
      DistinctIdsOfInit(quizzes);
      FirstByIdOfDistinct(init);
      assert quizzes == init + [quizzes[|quizzes| - 1]];
    }
  }

  /** Dropping the last quiz keeps the ids distinct, and the last id is not among the others. */
  lemma DistinctIdsOfInit(quizzes: seq<QuizItem>)
    requires DistinctIds(quizzes) && quizzes != []
    ensures var init := quizzes[..|quizzes| - 1];
      DistinctIds(init) && !HasId(init, quizzes[|quizzes| - 1].id)
  {
    var init := quizzes[..|quizzes| - 1];
    var last := quizzes[|quizzes| - 1];
    forall i, j | 0 <= i < j < |init|
      ensures init[i].id != init[j].id
    {
      assert init[i] == quizzes[i] && init[j] == quizzes[j];
    }
    forall q | q in init
      ensures q.id != last.id
    {
      var i :| 0 <= i < |init| && init[i] == q;
      assert quizzes[i] == q;
    }
  }

  /** What is kept from `s` is kept, in place, at the start of what is kept from `s + t`. */
  lemma {:induction false} FirstByIdPrefix(s: seq<QuizItem>, t: seq<QuizItem>)
    ensures |FirstById(s)| <= |FirstById(s + t)|
    ensures FirstById(s + t)[..|FirstById(s)|] == FirstById(s)
  {
    if t != [] {
      var t' := t[..|t| - 1];
      FirstByIdPrefix(s, t');
      assert (s + t)[..|s + t| - 1] == s + t';
    } else {
      assert s + t == s;
    }
  }

  /** Every file of every folder, folder by folder: `folders.flatMap(f => f.files)`. */
  function AllFiles(folders: seq<Folder>): (files: seq<FileEntry>)
    ensures forall f :: f in files <==> exists d :: d in folders && f in d.files
  {
    if folders == [] then []
    else
      var init := folders[..|folders| - 1];
      assert folders == init + [folders[|folders| - 1]];
      AllFiles(init) + folders[|folders| - 1].files
  }

  /** The quizzes of the given files, file by file: `files.flatMap(f => f.quizzes)`. */
  function QuizzesOf(files: seq<FileEntry>): (quizzes: seq<QuizItem>)
    ensures forall q :: q in quizzes <==> exists f :: f in files && q in f.quizzes
  {
    if files == [] then []
    else
      var init := files[..|files| - 1];
      assert files == init + [files[|files| - 1]];
      QuizzesOf(init) + files[|files| - 1].quizzes
  }

  /**
   * `files.filter(f => ids.includes(f.id))` on the client's file list; the
   * routes' `id: { in: ids }` queries run on other tables and are modelled
   * beside them.
   */
  function SelectedFiles(files: seq<FileEntry>, ids: seq<int>): (r: seq<FileEntry>)
    ensures forall f :: f in r <==> f in files && f.id in ids
  {
    if files == [] then []
    else
      var init := files[..|files| - 1];
      var last := files[|files| - 1];
      assert files == init + [last];
      SelectedFiles(init, ids) + (if last.id in ids then [last] else [])
  }

  /** The quizzes select-all adds: those of every selected file in any folder. */
  function QuizzesToSelect(folders: seq<Folder>, fileIds: seq<int>): (quizzes: seq<QuizItem>)
    ensures forall q :: q in quizzes <==>
      exists d, f :: d in folders && f in d.files && f.id in fileIds && q in f.quizzes
  {
    var r := QuizzesOf(SelectedFiles(AllFiles(folders), fileIds));
    assert forall q :: q in r ==> exists d, f :: d in folders && f in d.files && f.id in fileIds && q in f.quizzes by {
      forall q | q in r
        ensures exists d, f :: d in folders && f in d.files && f.id in fileIds && q in f.quizzes
      {
        var f :| f in SelectedFiles(AllFiles(folders), fileIds) && q in f.quizzes;
        var d :| d in folders && f in d.files;
      }
    }
    r
  }

  /** Select-all: the selection so far, then the files' quizzes, with each id kept at its first occurrence. */
  function SelectAll(selected: seq<QuizItem>, folders: seq<Folder>, fileIds: seq<int>): (r: seq<QuizItem>)
  {
    FirstById(selected + QuizzesToSelect(folders, fileIds))
  }

  /**
   * Select-all keeps a duplicate-free selection as its first part, leaves no
   * id twice, and after it every quiz of a selected file has its id selected.
   */
  lemma SelectAllSpec(selected: seq<QuizItem>, folders: seq<Folder>, fileIds: seq<int>)
    requires DistinctIds(selected)
    ensures var r := SelectAll(selected, folders, fileIds);
      && |selected| <= |r| && r[..|selected|] == selected
      && DistinctIds(r)
      && (forall q :: q in r ==> q in selected || q in QuizzesToSelect(folders, fileIds))
      && (forall q :: q in QuizzesToSelect(folders, fileIds) ==> HasId(r, q.id))
  {
    var t := QuizzesToSelect(folders, fileIds);
    FirstByIdPrefix(selected, t);
    FirstByIdOfDistinct(selected);
    FirstByIdDistinct(selected + t);
    assert forall q :: q in t ==> q in selected + t;
  }

  /**
   * The screen's state. `floor`, `difficulty`, `battleQuizzes` and `route`
   * are what the screen hands on: the values it means to store in the
   * context, and the navigation.
   */
  class Screen {
    const userExperience: int
    const userLevel: int
    const folders: seq<Folder>
    var selectedQuizzes: seq<QuizItem>
    var selectedFolderId: Option<int>
    var selectedFileIds: seq<int>
    var floor: Option<int>
    var difficulty: Option<int>
    var battleQuizzes: seq<QuizItem>
    var route: Option<string>

    /** The handlers never select a file twice or two quizzes with one id. */
    ghost predicate Valid()
      reads this
    {
      Distinct(selectedFileIds) && DistinctIds(selectedQuizzes)
    }

    /** A fresh screen: nothing chosen yet; the floor is given. */
    constructor(userExperience: int, userLevel: int, folders: seq<Folder>, floor: Option<int>)
      ensures Valid()
      ensures this.userExperience == userExperience && this.userLevel == userLevel && this.folders == folders
      ensures selectedQuizzes == [] && selectedFolderId == None && selectedFileIds == []
      ensures this.floor == floor && difficulty == None && battleQuizzes == [] && route == None
    {
      this.userExperience := userExperience;
      this.userLevel := userLevel;
      this.folders := folders;
      selectedQuizzes := [];
      selectedFolderId := None;
      selectedFileIds := [];
      this.floor := floor;
      difficulty := None;
      battleQuizzes := [];
      route := None;
    }

    /** Choosing a folder forgets the chosen files. */
    method HandleFolderChange(folderId: int)
      requires Valid()
      modifies this`selectedFolderId, this`selectedFileIds
      ensures Valid()
      ensures selectedFolderId == Some(folderId) && selectedFileIds == []
    {
      selectedFolderId := Some(folderId);
      selectedFileIds := [];
    }

    /** Toggle one file in or out of the selection. */
    method HandleFileToggle(fileId: int)
      requires Valid()
      modifies this`selectedFileIds
      ensures Valid()
      ensures selectedFileIds == ToggleId(old(selectedFileIds), fileId)
    {
      ToggleIdDistinct(selectedFileIds, fileId);
      selectedFileIds := ToggleId(selectedFileIds, fileId);
    }

    /** Add every quiz of the chosen files to the chosen quizzes. */
    method HandleSelectAllQuizzes()
      requires Valid()
      modifies this`selectedQuizzes
      ensures Valid()
      ensures selectedQuizzes == SelectAll(old(selectedQuizzes), folders, selectedFileIds)
      ensures |old(selectedQuizzes)| <= |selectedQuizzes| && selectedQuizzes[..|old(selectedQuizzes)|] == old(selectedQuizzes)
    {
      SelectAllSpec(selectedQuizzes, folders, selectedFileIds);
      selectedQuizzes := SelectAll(selectedQuizzes, folders, selectedFileIds);
    }

    /** Forget the chosen quizzes. */
    method HandleClearQuizzes()
      requires Valid()
      modifies this`selectedQuizzes
      ensures Valid() && selectedQuizzes == []
    {
      selectedQuizzes := [];
    }

    /** Forget the chosen files, and with them the chosen quizzes. */
    method HandleClearFiles()
      requires Valid()
      modifies this`selectedFileIds, this`selectedQuizzes
      ensures Valid() && selectedFileIds == [] && selectedQuizzes == []
    {
      selectedFileIds := [];
      selectedQuizzes := [];
    }

    /** Choose the floor to climb. */
    method HandleFloorChange(floorLevel: int)
      requires Valid()
      modifies this`floor
      ensures Valid() && floor == Some(floorLevel)
    {
      floor := Some(floorLevel);
    }

    /** Toggle one quiz in or out of the selection. */
    method HandleQuizToggle(quiz: QuizItem)
      requires Valid()
      modifies this`selectedQuizzes
      ensures Valid()
      ensures selectedQuizzes == ToggleQuiz(old(selectedQuizzes), quiz)
    {
      ToggleQuizDistinct(selectedQuizzes, quiz);
      selectedQuizzes := ToggleQuiz(selectedQuizzes, quiz);
    }

    /**
     * Start the battle: refused, changing nothing, without a quiz or a
     * floor; otherwise hand on the floor's difficulty and the chosen quizzes
     * and go to the tower page named after the difficulty.
     */
    method HandleStartBattle() returns (started: bool)
      requires Valid()
      modifies this`difficulty, this`battleQuizzes, this`route
      ensures Valid()
      ensures started <==> selectedQuizzes != [] && floor.Some?
      ensures !started ==> difficulty == old(difficulty) && battleQuizzes == old(battleQuizzes) && route == old(route)
      ensures started ==>
        && difficulty == Some(CalculateDifficulty(floor.value))
        && battleQuizzes == selectedQuizzes
        && route == Some(TowerRoute(difficulty.value))
    {
      if selectedQuizzes == [] || floor.None? {
        return false;
      }
      var d := CalculateDifficulty(floor.value);
      difficulty := Some(d);
      battleQuizzes := selectedQuizzes;
      route := Some(TowerRoute(d));
      return true;
    }
  }

  /** The prefix of every tower page. */
  const TowerPrefix := "/dashboard/battletower/level-"

  /** The tower page for a difficulty. */
  function TowerRoute(difficulty: int): (route: string)
    ensures |route| > |TowerPrefix| && route[..|TowerPrefix|] == TowerPrefix
  {
    TowerPrefix + JsText.IntToString(difficulty)
  }

  /** The tower page names its difficulty: reading the number after the prefix gives it back. */
  lemma TowerRouteNamesDifficulty(difficulty: int)
    ensures JsText.ParseInt(TowerRoute(difficulty)[|TowerPrefix|..]) == Some(difficulty)
  {
    assert TowerRoute(difficulty)[|TowerPrefix|..] == JsText.IntToString(difficulty);
    JsText.ParseIntOfIntToString(difficulty);
  }
}
