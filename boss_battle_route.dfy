/**
 * `POST /api/boss/battle`: validate the request, look up the chosen
 * quizzes and the bosses of exactly the requested difficulty, and build a
 * roster of `selectedFloorLevel` bosses, each drawn independently (with
 * replacement) from those bosses. The database becomes tables passed in;
 * the random draws become the indices `picks`.
 */
module BossBattleRoute {
  import opened Wrappers
  import Combat

  /** A row of the boss table. */
  datatype BossRow = BossRow(
    id: int, name: string, maxHp: int, hp: int, attackPower: int, attackTurn: int,
    difficulty: int, imageUrl: Option<string>)

  /** The request body: `quizIds` is `None` when it is not an array; a missing difficulty is 0. */
  datatype Request = Request(quizIds: Option<seq<int>>, difficulty: int, selectedFloorLevel: nat)

  datatype Response =
    | Forbidden
    | BadRequest(message: string)
    | NotFound(message: string)
    | Battle(bosses: seq<BossRow>, quizzes: seq<Combat.Quiz>, user: Option<Combat.UserSnapshot>)

  /**
   * The quizzes whose id was requested, in table order (`id: { in: quizIds }`).
   * This is the quiz table's own query; it also bounds the result's length,
   * which the battle response relies on.
   */
  function QuizzesWithIds(table: seq<Combat.Quiz>, ids: seq<int>): (r: seq<Combat.Quiz>)
    ensures forall q :: q in r <==> q in table && q.id in ids
    ensures |r| <= |table|
  {
    if table == [] then []
    else
      var rest := QuizzesWithIds(table[..|table| - 1], ids);
      var last := table[|table| - 1];
      assert table == table[..|table| - 1] + [last];
      if last.id in ids then rest + [last] else rest
  }

  /** The bosses of exactly `difficulty` (`where: { difficulty }`), in table order. */
  function BossesOfDifficulty(table: seq<BossRow>, difficulty: int): (r: seq<BossRow>)
    ensures forall b :: b in r <==> b in table && b.difficulty == difficulty
    ensures |r| <= |table|
  {
    if table == [] then []
    else
      var rest := BossesOfDifficulty(table[..|table| - 1], difficulty);
      var last := table[|table| - 1];
      assert table == table[..|table| - 1] + [last];
      if last.difficulty == difficulty then rest + [last] else rest
  }

  /** `Array.from({ length: n }, draw)`: one boss per draw. */
  function Roster(pool: seq<BossRow>, picks: seq<nat>): (r: seq<BossRow>)
    requires forall i :: 0 <= i < |picks| ==> picks[i] < |pool|
    ensures |r| == |picks|
    ensures forall i :: 0 <= i < |r| ==> r[i] in pool
  {
    seq(|picks|, i requires 0 <= i < |picks| => pool[picks[i]])
  }

  /** The draws are usable: one per floor, each an index into the pool, whenever the pool is not empty. */
  predicate PicksFit(request: Request, bossTable: seq<BossRow>, picks: seq<nat>) {
    var pool := BossesOfDifficulty(bossTable, request.difficulty);
    pool != [] ==> |picks| == request.selectedFloorLevel && forall i :: 0 <= i < |picks| ==> picks[i] < |pool|
  }

  /**
   * The route. Checks run in this order: session (403), `quizIds` an
   * array and not empty (400), a truthy difficulty (400), some quiz found
   * (404), some boss of that difficulty (404). The response copies the
   * stored user fields unchanged (all missing when the user row is).
   */
  function Post(
    hasSession: bool, request: Request, quizTable: seq<Combat.Quiz>, bossTable: seq<BossRow>,
    user: Option<Combat.UserSnapshot>, picks: seq<nat>): (r: Response)
    requires PicksFit(request, bossTable, picks)
    ensures !hasSession <==> r == Forbidden
    ensures hasSession && (request.quizIds.None? || request.quizIds.value == []) ==>
      r == BadRequest("Quiz IDs are required")
    ensures hasSession && request.quizIds.Some? && request.quizIds.value != [] && request.difficulty == 0 ==>
      r == BadRequest("Difficulty is required")
    ensures hasSession && request.quizIds.Some? && request.quizIds.value != [] && request.difficulty != 0
            && QuizzesWithIds(quizTable, request.quizIds.value) == [] ==>
      r == NotFound("No quizzes found for the provided IDs")
    ensures hasSession && request.quizIds.Some? && request.quizIds.value != [] && request.difficulty != 0
            && QuizzesWithIds(quizTable, request.quizIds.value) != []
            && BossesOfDifficulty(bossTable, request.difficulty) == [] ==>
      r == NotFound("No bosses found for the provided difficulty")
    ensures r.Battle? <==>
      && hasSession && request.quizIds.Some? && request.quizIds.value != [] && request.difficulty != 0
      && QuizzesWithIds(quizTable, request.quizIds.value) != []
      && BossesOfDifficulty(bossTable, request.difficulty) != []
    ensures r.NotFound? ==> hasSession && request.quizIds.Some? && request.difficulty != 0
    ensures r.Battle? ==>
      && |r.bosses| == request.selectedFloorLevel
      && (forall i :: 0 <= i < |r.bosses| ==>
            r.bosses[i] in bossTable && r.bosses[i].difficulty == request.difficulty)
      && (forall q :: q in r.quizzes <==> q in quizTable && q.id in request.quizIds.value)
      && r.user == user
  {
    if !hasSession then Forbidden
    else if request.quizIds.None? || request.quizIds.value == [] then BadRequest("Quiz IDs are required")
    else if request.difficulty == 0 then BadRequest("Difficulty is required")
    else
      var quizzes := QuizzesWithIds(quizTable, request.quizIds.value);
      if quizzes == [] then NotFound("No quizzes found for the provided IDs")
      else
        var bosses := BossesOfDifficulty(bossTable, request.difficulty);
        if bosses == [] then NotFound("No bosses found for the provided difficulty")
        else Battle(Roster(bosses, picks), quizzes, user)
  }

  /**
   * The draws are independent, so a boss may come back on every floor: the
   * roster size is the floor level whatever the pool size, and a pool of
   * one boss gives a roster of that boss alone.
   */
  lemma RosterRepeats(pool: seq<BossRow>, floorLevel: nat)
    requires pool != []
    ensures var r := Roster(pool, seq(floorLevel, i => 0));
      |r| == floorLevel && forall i :: 0 <= i < floorLevel ==> r[i] == pool[0]
  {
  }

  /** The roster holds `selectedFloorLevel` bosses even when fewer distinct bosses exist. */
  lemma RosterIgnoresPoolSize(hasSession: bool, request: Request, quizTable: seq<Combat.Quiz>,
                              bossTable: seq<BossRow>, user: Option<Combat.UserSnapshot>, picks: seq<nat>)
    requires PicksFit(request, bossTable, picks)
    requires Post(hasSession, request, quizTable, bossTable, user, picks).Battle?
    ensures |Post(hasSession, request, quizTable, bossTable, user, picks).bosses| == request.selectedFloorLevel
    ensures request.selectedFloorLevel > |BossesOfDifficulty(bossTable, request.difficulty)| ==>
      var bosses := Post(hasSession, request, quizTable, bossTable, user, picks).bosses;
      exists i, j :: 0 <= i < j < |bosses| && bosses[i] == bosses[j]
  {
    var bosses := Post(hasSession, request, quizTable, bossTable, user, picks).bosses;
    var pool := BossesOfDifficulty(bossTable, request.difficulty);
    if request.selectedFloorLevel > |pool| {
      Pigeonhole(picks, |pool|);
      var i, j :| 0 <= i < j < |picks| && picks[i] == picks[j];
      assert bosses[i] == pool[picks[i]] == bosses[j];
    }
  }

  /** More draws than pool entries means some index is drawn twice. */
  lemma {:induction false} Pigeonhole(picks: seq<nat>, n: nat)
    requires forall i :: 0 <= i < |picks| ==> picks[i] < n
    requires |picks| > n
    ensures exists i, j :: 0 <= i < j < |picks| && picks[i] == picks[j]
    decreases n
  {
    var last := picks[|picks| - 1];
    var init := picks[..|picks| - 1];
    if exists i :: 0 <= i < |init| && init[i] == last {
      var i :| 0 <= i < |init| && init[i] == last;
      assert picks[i] == picks[|picks| - 1];
    } else if n > 0 {
      // Every other draw avoids `last`; renumber the indices above it one down.
      var squeezed := seq(|init|, k requires 0 <= k < |init| => if init[k] < last then init[k] else init[k] - 1);
      assert forall k :: 0 <= k < |init| ==> init[k] != last;
      Pigeonhole(squeezed, n - 1);
      var i, j :| 0 <= i < j < |squeezed| && squeezed[i] == squeezed[j];
      assert picks[i] == picks[j];
    }
  }
}
