/**
 * The Battle Tower combat screen. The React state of the component becomes
 * the fields of a `Battle` object; the two click handlers and the effects
 * that React runs after a render become methods that a caller invokes in
 * the order React would. Every random roll is a parameter.
 */
module Combat {
  import opened Wrappers

  /** The player's chosen action, carried by the question it draws. */
  datatype Mode = Attack | Heal

  /** The end of a battle. */
  datatype Outcome = Win | Lose

  datatype AnswerOption = AnswerOption(id: int, text: string, isCorrect: bool)

  datatype Question = Question(id: int, text: string, options: seq<AnswerOption>, feedback: Option<string>)

  datatype Quiz = Quiz(id: int, title: string, imagePath: Option<string>, questions: seq<Question>)

  datatype Boss = Boss(id: int, name: string, hp: int, attackPower: int, attackTurn: int)

  /** The user fields the battle request returns. */
  datatype UserSnapshot = UserSnapshot(
    hp: int, maxHp: int, experience: int, level: int, attackPower: int, healingPower: int)

  /** The response of the battle request. */
  datatype BattleData = BattleData(bosses: seq<Boss>, quizzes: seq<Quiz>, user: UserSnapshot)

  /**
   * The question on screen, tagged with the action that drew it. A quiz
   * with no questions yields the tag alone (`{...undefined, mode}`).
   */
  datatype PendingQuestion = PendingQuestion(question: Option<Question>, mode: Mode)

  /** Damage factor of a player's critical hit. */
  const PlayerCriticalHitMultiplier := 2
  /** Healing factor of a special heal. */
  const PlayerSpecialHealMultiplier := 2
  /** Damage factor of a boss's critical hit. */
  const BossCriticalHitMultiplier := 3
  /** A wrong attack answer hurts the player by attack power divided by this. */
  const DamageDivisor := 5
  /** The win reward factor 1.3, in tenths. */
  const LevelUpTenths := 13
  /** The loss penalty factor 1.2, in tenths. */
  const LevelDownTenths := 12

  /** JavaScript truthiness of a number that may be `null`. */
  predicate Truthy(x: Option<int>) {
    x.Some? && x.value != 0
  }

  function Max(a: int, b: int): (m: int) { if a >= b then a else b }
  function Min(a: int, b: int): (m: int) { if a <= b then a else b }

  /**
   * The two hit points after an answer: a correct attack hits the boss
   * (twice as hard on a critical hit), a correct heal heals the player up to
   * `maxHp` (twice as much on a special heal), a wrong attack hurts the
   * player by a fifth of the attack power, a wrong heal does nothing.
   */
  function Resolve(
    mode: Mode, isCorrect: bool, criticalHit: bool, specialHeal: bool,
    bossHp: int, userHp: int, maxHp: int, attackPower: int, healingPower: int): (int, int)
  {
    if isCorrect then
      match mode
      case Attack =>
        var damage := if criticalHit then attackPower * PlayerCriticalHitMultiplier else attackPower;
        (Max(0, bossHp - damage), userHp)
      case Heal =>
        var healAmount := if specialHeal then healingPower * PlayerSpecialHealMultiplier else healingPower;
        (bossHp, Min(maxHp, userHp + healAmount))
    else
      match mode
      case Attack => (bossHp, Max(0, userHp - attackPower / DamageDivisor))
      case Heal => (bossHp, userHp)
  }

  /**
   * What an answer does, stated as effects: a correct attack takes
   * `min(bossHp, damage)` from the boss and nothing else; a correct heal
   * gives the player `min(maxHp - userHp, amount)` and nothing else; a wrong
   * attack takes `min(userHp, floor(attackPower / 5))` from the player; a
   * wrong heal changes nothing. Both hit points stay in `[0, maxHp]`.
   */
  lemma ResolveEffects(
    mode: Mode, isCorrect: bool, criticalHit: bool, specialHeal: bool,
    bossHp: int, userHp: int, maxHp: int, attackPower: int, healingPower: int)
    requires 0 <= bossHp && 0 <= userHp <= maxHp && attackPower > 0 && healingPower > 0
    ensures var (b, u) := Resolve(mode, isCorrect, criticalHit, specialHeal, bossHp, userHp, maxHp, attackPower, healingPower);
      && 0 <= b <= bossHp && 0 <= u <= maxHp
      && (isCorrect && mode == Attack ==>
            u == userHp && bossHp - b == Min(bossHp, attackPower * (if criticalHit then 2 else 1)))
      && (isCorrect && mode == Heal ==>
            b == bossHp && u - userHp == Min(maxHp - userHp, healingPower * (if specialHeal then 2 else 1)))
      && (!isCorrect && mode == Attack ==>
            b == bossHp && userHp - u == Min(userHp, attackPower / 5) && u <= userHp)
      && (!isCorrect && mode == Heal ==> b == bossHp && u == userHp)
  {
  }

  /** A critical hit does exactly twice the normal damage until the boss's HP runs out. */
  lemma CriticalHitDoublesDamage(bossHp: int, userHp: int, maxHp: int, attackPower: int, healingPower: int)
    requires attackPower > 0 && 2 * attackPower <= bossHp
    ensures var (normal, _) := Resolve(Attack, true, false, false, bossHp, userHp, maxHp, attackPower, healingPower);
      var (critical, _) := Resolve(Attack, true, true, false, bossHp, userHp, maxHp, attackPower, healingPower);
      bossHp - critical == 2 * (bossHp - normal)
  {
  }

  /** The player's HP after a boss attack: three times the damage on a critical hit, floored at 0. */
  function BossStrike(userHp: int, bossAttackPower: int, criticalHit: bool): (hp: int)
    ensures hp >= 0
    ensures bossAttackPower >= 0 ==> hp <= Max(userHp, 0)
    ensures hp > 0 ==> hp == userHp - bossAttackPower * (if criticalHit then 3 else 1)
    ensures userHp - bossAttackPower * (if criticalHit then 3 else 1) > 0 ==>
      hp == userHp - bossAttackPower * (if criticalHit then 3 else 1)
    ensures userHp - bossAttackPower * (if criticalHit then 3 else 1) <= 0 ==> hp == 0
  {
    var damage := if criticalHit then bossAttackPower * BossCriticalHitMultiplier else bossAttackPower;
    Max(0, userHp - damage)
  }

  /** The experience a settled battle sends, in tenths: `+d*f*1.3` on a win, `-d*f*1.2` on a loss. */
  function SettlementExperience(outcome: Outcome, difficulty: int, floorLevel: int): (gained: int)
    ensures difficulty > 0 && floorLevel > 0 ==> (outcome == Win <==> gained > 0)
    ensures outcome == Win ==> gained == difficulty * floorLevel * 13
    ensures outcome == Lose ==> gained == -(difficulty * floorLevel * 12)
  {
    match outcome
    case Win => difficulty * floorLevel * LevelUpTenths
    case Lose => -(difficulty * floorLevel * LevelDownTenths)
  }

  /** The HP restored after a lost battle: the snapshot's `maxHp`, or 100 when that is missing or 0. */
  function RetryHp(battleData: Option<BattleData>): (hp: int)
    ensures battleData.Some? && battleData.value.user.maxHp != 0 ==> hp == battleData.value.user.maxHp
    ensures battleData.None? || battleData.value.user.maxHp == 0 ==> hp == 100
  {
    if battleData.Some? && battleData.value.user.maxHp != 0 then battleData.value.user.maxHp else 100
  }

  /** The state of the battle screen. */
  class Battle {
    /** The floor's difficulty and level, read from the surrounding context. */
    const difficulty: int
    const floorLevel: int

    var battleData: Option<BattleData>
    var currentBossIndex: nat
    var boss: Option<Boss>
    var bossHp: int
    var userHp: int
    var maxHp: Option<int>
    var attackPower: Option<int>
    var healingPower: Option<int>
    var currentQuiz: Option<Quiz>
    var currentQuestion: Option<PendingQuestion>
    var isAnswering: bool
    var turnCount: int
    var gameOver: Option<Outcome>
    var remainingBossTurns: int
    var lastFeedback: Option<string>

    /**
     * The invariant the handlers keep: the current boss is the roster entry
     * at the current index, which stays inside the roster; a question is on
     * screen exactly while an answer is awaited; the player's numbers are
     * loaded together.
     */
    ghost predicate Valid()
      reads this
    {
      && (battleData.None? ==> boss.None? && currentBossIndex == 0 && attackPower.None?)
      && (battleData.Some? ==>
            currentBossIndex < |battleData.value.bosses| || (battleData.value.bosses == [] && currentBossIndex == 0))
      && (boss.Some? ==>
            battleData.Some? && currentBossIndex < |battleData.value.bosses|
            && boss.value == battleData.value.bosses[currentBossIndex])
      && (isAnswering <==> currentQuestion.Some?)
      && (attackPower.Some? ==> maxHp.Some? && healingPower.Some? && boss.Some?)
    }

    /** The screen before the battle data arrives. */
    constructor (difficulty: int, floorLevel: int)
      ensures Valid()
      ensures this.difficulty == difficulty && this.floorLevel == floorLevel
      ensures battleData.None? && boss.None? && currentBossIndex == 0
      ensures bossHp == 100 && userHp == 100 && turnCount == 1 && remainingBossTurns == 0
      ensures maxHp.None? && attackPower.None? && healingPower.None?
      ensures currentQuiz.None? && currentQuestion.None? && !isAnswering
      ensures gameOver.None? && lastFeedback.None?
    {
      this.difficulty := difficulty;
      this.floorLevel := floorLevel;
      battleData := None;
      currentBossIndex := 0;
      boss := None;
      bossHp := 100;
      userHp := 100;
      maxHp := None;
      attackPower := None;
      healingPower := None;
      currentQuiz := None;
      currentQuestion := None;
      isAnswering := false;
      turnCount := 1;
      gameOver := None;
      remainingBossTurns := 0;
      lastFeedback := None;
    }

    /**
     * The battle data arrived: the first boss and the player's numbers are
     * loaded. An empty roster stores the data and no boss, and stops there
     * (reading the first boss's HP throws).
     */
    method Load(data: BattleData)
      requires Valid() && battleData.None?
      modifies this
      ensures Valid()
      ensures battleData == Some(data)
      ensures data.bosses == [] ==>
        boss.None? && bossHp == old(bossHp) && userHp == old(userHp) && attackPower.None?
        && maxHp == old(maxHp) && healingPower == old(healingPower)
        && remainingBossTurns == old(remainingBossTurns)
      ensures data.bosses != [] ==>
        && boss == Some(data.bosses[0]) && bossHp == data.bosses[0].hp
        && remainingBossTurns == data.bosses[0].attackTurn
        && userHp == data.user.hp && maxHp == Some(data.user.maxHp)
        && attackPower == Some(data.user.attackPower) && healingPower == Some(data.user.healingPower)
      ensures currentBossIndex == 0 && turnCount == old(turnCount) && gameOver == old(gameOver)
      ensures currentQuestion == old(currentQuestion) && isAnswering == old(isAnswering)
      ensures currentQuiz == old(currentQuiz) && lastFeedback == old(lastFeedback)
    {
      battleData := Some(data);
      if data.bosses == [] {
        boss := None;
        return;
      }
      boss := Some(data.bosses[0]);
      bossHp := data.bosses[0].hp;
      userHp := data.user.hp;
      maxHp := Some(data.user.maxHp);
      attackPower := Some(data.user.attackPower);
      healingPower := Some(data.user.healingPower);
      remainingBossTurns := data.bosses[0].attackTurn;
    }

    /**
     * `handleAction`: ignored once the game is over, while a question is on
     * screen, or when the boss is due to attack; otherwise it draws quiz
     * `quizIndex` and its question `questionIndex`, tags it with `mode` and
     * waits for the answer. Without battle data or quizzes nothing happens.
     */
    method HandleAction(mode: Mode, quizIndex: nat, questionIndex: nat)
      requires Valid()
      requires battleData.Some? && battleData.value.quizzes != [] ==> quizIndex < |battleData.value.quizzes|
      requires battleData.Some? && quizIndex < |battleData.value.quizzes|
               && battleData.value.quizzes[quizIndex].questions != []
               ==> questionIndex < |battleData.value.quizzes[quizIndex].questions|
      modifies this
      ensures Valid()
      ensures var refused := old(gameOver.Some? || isAnswering || remainingBossTurns == 0);
        var noQuiz := old(battleData.None? || battleData.value.quizzes == []);
        if refused || noQuiz then
          currentQuestion == old(currentQuestion) && isAnswering == old(isAnswering)
          && currentQuiz == old(currentQuiz) && lastFeedback == old(lastFeedback)
        else
          var quiz := old(battleData.value.quizzes[quizIndex]);
          && currentQuiz == Some(quiz)
          && currentQuestion == Some(PendingQuestion(
               if quiz.questions == [] then None else Some(quiz.questions[questionIndex]), mode))
          && isAnswering && lastFeedback.None?
      ensures bossHp == old(bossHp) && userHp == old(userHp) && turnCount == old(turnCount)
      ensures remainingBossTurns == old(remainingBossTurns) && gameOver == old(gameOver)
      ensures battleData == old(battleData) && boss == old(boss) && currentBossIndex == old(currentBossIndex)
      ensures maxHp == old(maxHp) && attackPower == old(attackPower) && healingPower == old(healingPower)
    {
      if gameOver.Some? || isAnswering || remainingBossTurns == 0 {
        return;
      }
      if battleData.Some? && |battleData.value.quizzes| > 0 {
        var randomQuiz := battleData.value.quizzes[quizIndex];
        var randomQuestion := if randomQuiz.questions == [] then None else Some(randomQuiz.questions[questionIndex]);
        currentQuiz := Some(randomQuiz);
        currentQuestion := Some(PendingQuestion(randomQuestion, mode));
        isAnswering := true;
        lastFeedback := None;
      }
    }

    /**
     * `handleAnswer`: with a question on screen and non-zero attack and
     * healing power, resolves the answer, clears the question, counts one
     * more turn and one turn less before the boss attacks. Otherwise nothing
     * changes.
     */
    method HandleAnswer(isCorrect: bool, criticalHit: bool, specialHeal: bool)
      requires Valid()
      modifies this
      ensures Valid()
      ensures if old(currentQuestion.None? || !Truthy(attackPower) || !Truthy(healingPower)) then
          bossHp == old(bossHp) && userHp == old(userHp) && turnCount == old(turnCount)
          && remainingBossTurns == old(remainingBossTurns) && currentQuestion == old(currentQuestion)
          && isAnswering == old(isAnswering) && lastFeedback == old(lastFeedback)
        else
          var q := old(currentQuestion.value);
          && (bossHp, userHp) == old(Resolve(q.mode, isCorrect, criticalHit, specialHeal,
                                             bossHp, userHp, maxHp.value, attackPower.value, healingPower.value))
          && turnCount == old(turnCount) + 1 && remainingBossTurns == old(remainingBossTurns) - 1
          && currentQuestion.None? && !isAnswering
          && lastFeedback == (if q.question.Some? && q.question.value.feedback != Some("")
                              then q.question.value.feedback else None)
      ensures gameOver == old(gameOver) && battleData == old(battleData) && boss == old(boss)
      ensures currentBossIndex == old(currentBossIndex) && currentQuiz == old(currentQuiz)
      ensures maxHp == old(maxHp) && attackPower == old(attackPower) && healingPower == old(healingPower)
    {
      if currentQuestion.Some? && Truthy(attackPower) && Truthy(healingPower) {
        var q := currentQuestion.value;
        var hits := Resolve(q.mode, isCorrect, criticalHit, specialHeal,
                            bossHp, userHp, maxHp.value, attackPower.value, healingPower.value);
        bossHp, userHp := hits.0, hits.1;
        lastFeedback := if q.question.Some? && q.question.value.feedback != Some("")
                        then q.question.value.feedback else None;
        currentQuestion := None;
        isAnswering := false;
        turnCount := turnCount + 1;
        remainingBossTurns := remainingBossTurns - 1;
      }
    }

    /**
     * The boss-attack effect: while the game is on, a boss is loaded and its
     * countdown has run out, the boss hits the player, the countdown restarts
     * at the boss's attack interval and one more turn is counted.
     */
    method BossAttack(criticalHit: bool)
      requires Valid()
      modifies this
      ensures Valid()
      ensures if old(gameOver.None? && boss.Some? && remainingBossTurns <= 0) then
          && userHp == BossStrike(old(userHp), old(boss.value.attackPower), criticalHit)
          && remainingBossTurns == old(boss.value.attackTurn)
          && turnCount == old(turnCount) + 1
        else
          userHp == old(userHp) && remainingBossTurns == old(remainingBossTurns) && turnCount == old(turnCount)
      ensures bossHp == old(bossHp) && gameOver == old(gameOver) && boss == old(boss)
      ensures battleData == old(battleData) && currentBossIndex == old(currentBossIndex)
      ensures currentQuestion == old(currentQuestion) && isAnswering == old(isAnswering)
      ensures maxHp == old(maxHp) && attackPower == old(attackPower) && healingPower == old(healingPower)
      ensures currentQuiz == old(currentQuiz) && lastFeedback == old(lastFeedback)
    {
      if gameOver.Some? || boss.None? || remainingBossTurns > 0 {
        return;
      }
      var b := boss.value;
      userHp := BossStrike(userHp, b.attackPower, criticalHit);
      remainingBossTurns := b.attackTurn;
      turnCount := turnCount + 1;
    }

    /**
     * The boss-defeat effect: once the boss's HP is exactly 0, the next boss
     * of the roster comes in with its own HP and countdown and the turn count
     * restarts at 1; after the last boss the battle is won.
     */
    method DefeatBoss()
      requires Valid()
      modifies this
      ensures Valid()
      ensures old(bossHp != 0 || battleData.None?) ==>
        currentBossIndex == old(currentBossIndex) && boss == old(boss) && bossHp == old(bossHp)
        && remainingBossTurns == old(remainingBossTurns) && turnCount == old(turnCount) && gameOver == old(gameOver)
      ensures old(bossHp == 0 && battleData.Some?) ==>
        var bosses := old(battleData.value.bosses);
        if old(currentBossIndex) + 1 < |bosses| then
          && currentBossIndex == old(currentBossIndex) + 1
          && boss == Some(bosses[currentBossIndex])
          && bossHp == bosses[currentBossIndex].hp
          && remainingBossTurns == bosses[currentBossIndex].attackTurn
          && turnCount == 1 && gameOver == old(gameOver)
        else
          && gameOver == Some(Win)
          && currentBossIndex == old(currentBossIndex) && boss == old(boss) && bossHp == old(bossHp)
          && remainingBossTurns == old(remainingBossTurns) && turnCount == old(turnCount)
      ensures userHp == old(userHp) && battleData == old(battleData)
      ensures currentQuestion == old(currentQuestion) && isAnswering == old(isAnswering)
      ensures maxHp == old(maxHp) && attackPower == old(attackPower) && healingPower == old(healingPower)
      ensures currentQuiz == old(currentQuiz) && lastFeedback == old(lastFeedback)
    {
      if bossHp == 0 && battleData.Some? {
        var bosses := battleData.value.bosses;
        if currentBossIndex < |bosses| - 1 {
          var nextBossIndex := currentBossIndex + 1;
          currentBossIndex := nextBossIndex;
          boss := Some(bosses[nextBossIndex]);
          bossHp := bosses[nextBossIndex].hp;
          remainingBossTurns := bosses[nextBossIndex].attackTurn;
          turnCount := 1;
        } else {
          gameOver := Some(Win);
        }
      }
    }

    /** The lose effect: HP at or below 0 ends the battle as lost. */
    method CheckLose()
      requires Valid()
      modifies this`gameOver
      ensures Valid()
      ensures gameOver == if userHp <= 0 then Some(Lose) else old(gameOver)
    {
      if userHp <= 0 {
        gameOver := Some(Lose);
      }
    }

    /**
     * The effects React runs after a render that changed the HPs, in their
     * declaration order: boss defeat, then the lose check. A player at 0 HP
     * has lost even if the same answer also finished the last boss.
     */
    method AfterRender()
      requires Valid()
      modifies this
      ensures Valid()
      ensures gameOver ==
        if old(userHp) <= 0 then Some(Lose)
        else if old(bossHp == 0 && battleData.Some? && currentBossIndex + 1 >= |battleData.value.bosses|) then Some(Win)
        else old(gameOver)
      ensures old(bossHp == 0 && battleData.Some? && currentBossIndex + 1 < |battleData.value.bosses|) ==>
        var next := old(battleData.value.bosses[currentBossIndex + 1]);
        && currentBossIndex == old(currentBossIndex) + 1 && boss == Some(next)
        && bossHp == next.hp && remainingBossTurns == next.attackTurn && turnCount == 1
      ensures !old(bossHp == 0 && battleData.Some? && currentBossIndex + 1 < |battleData.value.bosses|) ==>
        && currentBossIndex == old(currentBossIndex) && boss == old(boss) && bossHp == old(bossHp)
        && remainingBossTurns == old(remainingBossTurns) && turnCount == old(turnCount)
      ensures userHp == old(userHp) && battleData == old(battleData)
      ensures currentQuestion == old(currentQuestion) && isAnswering == old(isAnswering)
      ensures maxHp == old(maxHp) && attackPower == old(attackPower) && healingPower == old(healingPower)
      ensures currentQuiz == old(currentQuiz) && lastFeedback == old(lastFeedback)
    {
      DefeatBoss();
      CheckLose();
    }

    /**
     * The settlement effect. A won battle sends `+difficulty * floor * 1.3`
     * and, when the request succeeds, leaves the screen. A lost battle sends
     * `-difficulty * floor * 1.2` and, when the request succeeds, restarts
     * in place: full HP, turn count 1, no outcome, the same boss with the HP
     * it had. A failed request changes nothing.
     */
    method Settle(requestSucceeds: bool) returns (experienceGained: Option<int>, leave: bool)
      requires Valid()
      modifies this
      ensures Valid()
      ensures experienceGained == if old(gameOver).Some?
        then Some(SettlementExperience(old(gameOver).value, difficulty, floorLevel)) else None
      ensures leave <==> old(gameOver) == Some(Win) && requestSucceeds
      ensures if old(gameOver) == Some(Lose) && requestSucceeds then
          userHp == RetryHp(battleData) && turnCount == 1 && gameOver.None?
        else
          userHp == old(userHp) && turnCount == old(turnCount) && gameOver == old(gameOver)
      ensures bossHp == old(bossHp) && currentBossIndex == old(currentBossIndex) && boss == old(boss)
      ensures remainingBossTurns == old(remainingBossTurns) && battleData == old(battleData)
      ensures currentQuestion == old(currentQuestion) && isAnswering == old(isAnswering)
      ensures maxHp == old(maxHp) && attackPower == old(attackPower) && healingPower == old(healingPower)
      ensures currentQuiz == old(currentQuiz) && lastFeedback == old(lastFeedback)
    {
      experienceGained, leave := None, false;
      if gameOver == Some(Win) {
        experienceGained := Some(SettlementExperience(Win, difficulty, floorLevel));
        leave := requestSucceeds;
      } else if gameOver == Some(Lose) {
        experienceGained := Some(SettlementExperience(Lose, difficulty, floorLevel));
        if requestSucceeds {
          userHp := RetryHp(battleData);
          turnCount := 1;
          gameOver := None;
        }
      }
    }
  }

  /** Fisher–Yates as a function: swap position `i` with `picks[i]` for `i` from `top` down to 1. */
  function ShuffleFrom<T>(s: seq<T>, picks: seq<int>, top: int): (shuffled: seq<T>)
    requires top < |s| && |picks| == |s|
    requires forall i :: 0 <= i < |picks| ==> 0 <= picks[i] <= i
    decreases top
  {
    if top <= 0 then s
    else ShuffleFrom(s[top := s[picks[top]]][picks[top] := s[top]], picks, top - 1)
  }

  /** Shuffling only swaps, so it keeps every element as often as it was. */
  lemma {:induction false} ShuffleFromPermutes<T>(s: seq<T>, picks: seq<int>, top: int)
    requires top < |s| && |picks| == |s|
    requires forall i :: 0 <= i < |picks| ==> 0 <= picks[i] <= i
    ensures |ShuffleFrom(s, picks, top)| == |s|
    ensures multiset(ShuffleFrom(s, picks, top)) == multiset(s)
    decreases top
  {
    if top > 0 {
      var t := s[top := s[picks[top]]][picks[top] := s[top]];
      SwapPermutes(s, top, picks[top]);
      ShuffleFromPermutes(t, picks, top - 1);
    }
  }

  /** Swapping two positions keeps the multiset of elements. */
  lemma SwapPermutes<T>(s: seq<T>, i: int, j: int)
    requires 0 <= i < |s| && 0 <= j < |s|
    ensures multiset(s[i := s[j]][j := s[i]]) == multiset(s)
  {
    if i != j {
      var t := s[i := s[j]];
      assert multiset(t) == multiset(s) - multiset{s[i]} + multiset{s[j]};
      assert t[j] == s[j];
      assert multiset(t[j := s[i]]) == multiset(t) - multiset{t[j]} + multiset{s[i]};
    }
  }

  /**
   * `shuffleArray` of the battle screen: a copy of the options, shuffled in
   * place by Fisher–Yates with `picks[i]` as the draw in `[0, i]`; the
   * input array is left as it was.
   */
  method ShuffleArray<T>(input: array<T>, picks: seq<int>) returns (shuffled: array<T>)
    requires |picks| == input.Length
    requires forall i :: 0 <= i < |picks| ==> 0 <= picks[i] <= i
    ensures fresh(shuffled)
    ensures shuffled.Length == input.Length
    ensures multiset(shuffled[..]) == multiset(input[..])
    ensures input.Length > 0 ==> shuffled[..] == ShuffleFrom(input[..], picks, input.Length - 1)
  {
    shuffled := new T[input.Length](k reads input requires 0 <= k < input.Length => input[k]);
    assert shuffled[..] == input[..];
    if shuffled.Length == 0 {
      return;
    }
    var i := shuffled.Length - 1;
    while i > 0
      invariant 0 <= i < shuffled.Length == input.Length
      invariant ShuffleFrom(shuffled[..], picks, i) == ShuffleFrom(input[..], picks, input.Length - 1)
      decreases i
    {
      var j := picks[i];
      ghost var before := shuffled[..];
      shuffled[i], shuffled[j] := shuffled[j], shuffled[i];
      assert shuffled[..] == before[i := before[j]][j := before[i]];
      i := i - 1;
    }
    ShuffleFromPermutes(input[..], picks, input.Length - 1);
  }
}
