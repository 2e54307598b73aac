/**
 * Join and round bookkeeping (Assets/Scripts/_Base/GameManager.cs).
 *
 * Each coroutine is a stage (the point at which it is suspended) and a pure
 * function giving, for a stage, the messages raised before the next
 * suspension and the stage reached there. The engine's waits are not timed:
 * the scheduler resumes a suspended routine whenever it likes.
 */
module Manager {
  import opened Wrappers
  import opened GlobalData
  import opened EngineTypes
  import opened GameEvents
  import opened Text

  // ---------------------------------------------------------------------------
  // The join routine (`StartJoinProcess`)

  /**
   * Where the join routine stands: `Counting(s)` is at the loop test with
   * `seconds == s` (the routine starts as `Counting(0)`), `Grace` waits out
   * the second after "Game Starting!", `Instruction` shows the instruction,
   * `Finished` has returned.
   */
  datatype JoinStage = Counting(seconds: int) | Grace | Instruction | Finished

  /** The countdown text raised after `seconds` has been incremented. */
  function CountdownText(waitTime: int, seconds: int): Event {
    PlayerSelectTextUpdated("Time Till Start: " + IntToString(waitTime - seconds))
  }

  /** A measure that every segment of the routine decreases. */
  function JoinRank(stage: JoinStage, waitTime: int): nat {
    match stage
    case Counting(s) => 3 + (if s < waitTime then waitTime - s else 0)
    case Grace => 2
    case Instruction => 1
    case Finished => 0
  }

  /**
   * One segment of the join routine: from `stage` to the next suspension.
   * The player count is read once, after joining has been disabled.
   */
  function JoinSegment(stage: JoinStage, waitTime: int, playerCount: int, instruction: string): (r: (JoinStage, seq<Event>))
    ensures stage != Finished ==> JoinRank(r.0, waitTime) < JoinRank(stage, waitTime)
    ensures stage == Finished ==> r == (Finished, [])
  {
    match stage
    case Counting(s) =>
      if s < waitTime then (Counting(s + 1), [CountdownText(waitTime, s + 1)])
      else (Grace, [PlayerSelectTextUpdated("Game Starting!")])
    case Grace =>
      (Instruction,
       [DisableJoining, GameStarted]
       + (if playerCount <= 0 then [LoadScene(0)] else [])
       + [InstructionalTextUpdated(instruction)])
    case Instruction => (Finished, [InstructionalTextUpdated("")])
    case Finished => (Finished, [])
  }

  /** Everything the join routine raises from `stage` until it returns. */
  function JoinRemainder(stage: JoinStage, waitTime: int, playerCount: int, instruction: string): seq<Event>
    decreases JoinRank(stage, waitTime)
  {
    if stage == Finished then []
    else
      var (next, emitted) := JoinSegment(stage, waitTime, playerCount, instruction);
      emitted + JoinRemainder(next, waitTime, playerCount, instruction)
  }

  /** The remainder from an unfinished stage is its segment followed by the remainder from where the segment stops. */
  lemma RemainderUnfolds(stage: JoinStage, waitTime: int, playerCount: int, instruction: string)
    requires stage != Finished
    ensures var r := JoinSegment(stage, waitTime, playerCount, instruction);
      JoinRemainder(stage, waitTime, playerCount, instruction) == r.1 + JoinRemainder(r.0, waitTime, playerCount, instruction)
  {
  }

  /** The countdown texts for the seconds after `seconds` up to the wait time. */
  function Countdown(seconds: int, waitTime: int): seq<Event>
    decreases if seconds < waitTime then waitTime - seconds else 0
  {
    if seconds < waitTime then [CountdownText(waitTime, seconds + 1)] + Countdown(seconds + 1, waitTime) else []
  }

  /** The countdown texts are "Time Till Start: " followed by W - s for s = 1..W, in order. */
  lemma {:induction false} CountdownShape(seconds: nat, waitTime: int)
    ensures |Countdown(seconds, waitTime)| == if seconds < waitTime then waitTime - seconds else 0
    ensures forall i :: 0 <= i < |Countdown(seconds, waitTime)| ==>
      Countdown(seconds, waitTime)[i] == PlayerSelectTextUpdated("Time Till Start: " + IntToString(waitTime - (seconds + i + 1)))
    decreases if seconds < waitTime then waitTime - seconds else 0
  {
    if seconds < waitTime {
      CountdownShape(seconds + 1, waitTime);
    }
  }

  /** The messages from the grace wait on: start, the scene load when nobody joined, the instruction shown and hidden. */
  function StartMessages(playerCount: int, instruction: string): seq<Event> {
    [DisableJoining, GameStarted]
    + (if playerCount <= 0 then [LoadScene(0)] else [])
    + [InstructionalTextUpdated(instruction), InstructionalTextUpdated("")]
  }

  /** The whole join routine as written: countdown, "Game Starting!", then the start messages. */
  function JoinScript(waitTime: int, playerCount: int, instruction: string): seq<Event> {
    Countdown(0, waitTime) + [PlayerSelectTextUpdated("Game Starting!")] + StartMessages(playerCount, instruction)
  }

  /** From the grace wait on, the routine raises the start messages. */
  lemma RemainderFromGrace(waitTime: int, playerCount: int, instruction: string)
    ensures JoinRemainder(Grace, waitTime, playerCount, instruction) == StartMessages(playerCount, instruction)
  {
    RemainderUnfolds(Grace, waitTime, playerCount, instruction);
    RemainderUnfolds(Instruction, waitTime, playerCount, instruction);
  }

  /** From the loop test with `seconds`, the routine raises the remaining countdown, "Game Starting!" and the start messages. */
  lemma {:induction false} RemainderFromCounting(seconds: int, waitTime: int, playerCount: int, instruction: string)
    ensures JoinRemainder(Counting(seconds), waitTime, playerCount, instruction)
      == Countdown(seconds, waitTime) + [PlayerSelectTextUpdated("Game Starting!")] + StartMessages(playerCount, instruction)
    decreases if seconds < waitTime then waitTime - seconds else 0
  {
    RemainderUnfolds(Counting(seconds), waitTime, playerCount, instruction);
    if seconds < waitTime {
      RemainderFromCounting(seconds + 1, waitTime, playerCount, instruction);
    } else {
      RemainderFromGrace(waitTime, playerCount, instruction);
    }
  }

  /** Run from its start, the join routine raises exactly the script. */
  lemma JoinRoutineRaisesScript(waitTime: int, playerCount: int, instruction: string)
    ensures JoinRemainder(Counting(0), waitTime, playerCount, instruction) == JoinScript(waitTime, playerCount, instruction)
  {
    RemainderFromCounting(0, waitTime, playerCount, instruction);
  }

  /**
   * After the grace wait, joining is disabled and the game started; the scene
   * load, exactly when nobody joined, follows the start and does not end the
   * routine: both instruction texts still follow.
   */
  lemma StartMessagesOrder(playerCount: int, instruction: string)
    ensures var m := StartMessages(playerCount, instruction);
      && |m| == (if playerCount <= 0 then 5 else 4)
      && m[0] == DisableJoining && m[1] == GameStarted
      && (playerCount <= 0 ==> m[2] == LoadScene(0))
      && (LoadScene(0) in m <==> playerCount <= 0)
      && m[|m| - 2] == InstructionalTextUpdated(instruction)
      && m[|m| - 1] == InstructionalTextUpdated("")
  {
  }

  /** The countdown only updates the player-select text. */
  lemma {:induction false} CountdownOnlyTexts(seconds: int, waitTime: int)
    ensures forall e :: e in Countdown(seconds, waitTime) ==> e.PlayerSelectTextUpdated?
    decreases if seconds < waitTime then waitTime - seconds else 0
  {
    if seconds < waitTime {
      CountdownOnlyTexts(seconds + 1, waitTime);
    }
  }

  /** The script: W countdown texts, then "Game Starting!", then the start messages; the menu is loaded exactly when nobody joined. */
  lemma JoinScriptOrder(waitTime: int, playerCount: int, instruction: string)
    ensures var script := JoinScript(waitTime, playerCount, instruction);
      var n := if waitTime > 0 then waitTime else 0;
      && |script| == n + 1 + |StartMessages(playerCount, instruction)|
      && script[n] == PlayerSelectTextUpdated("Game Starting!")
      && script[n + 1..] == StartMessages(playerCount, instruction)
      && (LoadScene(0) in script <==> playerCount <= 0)
  {
    CountdownShape(0, waitTime);
    CountdownOnlyTexts(0, waitTime);
    StartMessagesOrder(playerCount, instruction);
    var front := Countdown(0, waitTime) + [PlayerSelectTextUpdated("Game Starting!")];
    var start := StartMessages(playerCount, instruction);
    assert JoinScript(waitTime, playerCount, instruction) == front + start;
    assert LoadScene(0) !in front;
  }

  // ---------------------------------------------------------------------------
  // The game-over routine (`GameOverProcess`)

  /** `AwaitAnnounce`: waiting the first second; `AwaitReturn`: waiting the five seconds before the menu. */
  datatype GameOverStage = AwaitAnnounce | AwaitReturn

  /** One segment of the game-over routine; `None` when it has returned. */
  function GameOverSegment(stage: GameOverStage): (Option<GameOverStage>, seq<Event>) {
    match stage
    case AwaitAnnounce => (Some(AwaitReturn), [GameOver])
    case AwaitReturn => (None, [LoadScene(0)])
  }

  /** Everything the game-over routine raises from `stage` until it returns. */
  function GameOverRemainder(stage: GameOverStage): seq<Event>
    decreases if stage == AwaitAnnounce then 1 else 0
  {
    var (next, emitted) := GameOverSegment(stage);
    match next
    case None => emitted
    case Some(n) => emitted + GameOverRemainder(n)
  }

  /** A game-over routine announces the game over strictly before it loads the menu, and raises nothing else. */
  lemma GameOverOrder()
    ensures GameOverRemainder(AwaitAnnounce) == [GameOver, LoadScene(0)]
  {
  }

  // ---------------------------------------------------------------------------
  // The component

  class GameManager {
    const playerSelectWaitTime: int
    const playerInstructionalMessageTime: int
    const playerInstruction: string

    /** The positions of the spawn points not yet used. */
    var spawnPoints: seq<Vector2>
    var maxNumberOfPlayers: int
    var allPlayers: seq<PlayerId>
    var joinStage: JoinStage
    /** The players whose deferred numbering step (`WaitForJoin`) has not run yet. */
    var pendingJoins: seq<PlayerId>
    /** The game-over routines started and not yet returned. */
    var gameOverRoutines: seq<GameOverStage>
    /** The numbers handed out by completed numbering steps, in completion order. */
    ghost var numbered: seq<int>

    ghost predicate Valid()
      reads this
    {
      && maxNumberOfPlayers == |spawnPoints| + |numbered|
      && (forall k :: 0 <= k < |numbered| ==> numbered[k] == k + 1)
    }

    /** `Awake`: the number of players is the number of spawn points; the join routine is about to start. */
    constructor (spawnPoints: seq<Vector2>, playerSelectWaitTime: int, playerInstructionalMessageTime: int, playerInstruction: string)
      ensures Valid()
      ensures this.spawnPoints == spawnPoints && maxNumberOfPlayers == |spawnPoints|
      ensures this.playerSelectWaitTime == playerSelectWaitTime
      ensures this.playerInstructionalMessageTime == playerInstructionalMessageTime
      ensures this.playerInstruction == playerInstruction
      ensures allPlayers == [] && pendingJoins == [] && gameOverRoutines == [] && numbered == []
      ensures joinStage == Counting(0)
    {
      this.playerSelectWaitTime := playerSelectWaitTime;
      this.playerInstructionalMessageTime := playerInstructionalMessageTime;
      this.playerInstruction := playerInstruction;
      this.spawnPoints := spawnPoints;
      maxNumberOfPlayers := |spawnPoints|;
      allPlayers := [];
      joinStage := Counting(0);
      pendingJoins := [];
      gameOverRoutines := [];
      numbered := [];
    }

    /** The number of players whose numbering step has completed: the occupied slots. */
    function Occupied(): int
      reads this
    {
      maxNumberOfPlayers - |spawnPoints|
    }

    /**
     * Resumes the join routine for one segment (`Start` runs the first one).
     * `playerCount` is the player-input manager's count of joined players.
     */
    method ResumeJoinProcess(playerCount: int) returns (emitted: seq<Event>)
      modifies this`joinStage
      ensures joinStage == JoinSegment(old(joinStage), playerSelectWaitTime, playerCount, playerInstruction).0
      ensures emitted == JoinSegment(old(joinStage), playerSelectWaitTime, playerCount, playerInstruction).1
    {
      emitted := [];
      match joinStage {
        case Counting(seconds) =>
          if seconds < playerSelectWaitTime {
            var s := seconds + 1;
            emitted := [CountdownText(playerSelectWaitTime, s)];
            joinStage := Counting(s);
          } else {
            emitted := [PlayerSelectTextUpdated("Game Starting!")];
            joinStage := Grace;
          }
        case Grace =>
          emitted := [DisableJoining, GameStarted];
          if playerCount <= 0 {
            emitted := emitted + [LoadScene(0)];
          }
          emitted := emitted + [InstructionalTextUpdated(playerInstruction)];
          joinStage := Instruction;
        case Instruction =>
          emitted := [InstructionalTextUpdated("")];
          joinStage := Finished;
        case Finished =>
      }
    }

    /**
     * Resumes the join routine until it returns, with no join in between;
     * from its start this raises the whole script.
     */
    method RunJoinProcess(playerCount: int) returns (emitted: seq<Event>)
      modifies this`joinStage
      ensures joinStage == Finished
      ensures emitted == JoinRemainder(old(joinStage), playerSelectWaitTime, playerCount, playerInstruction)
      ensures old(joinStage) == Counting(0) ==> emitted == JoinScript(playerSelectWaitTime, playerCount, playerInstruction)
    {
      ghost var start := joinStage;
      emitted := [];
      while joinStage != Finished
        invariant emitted + JoinRemainder(joinStage, playerSelectWaitTime, playerCount, playerInstruction)
          == JoinRemainder(start, playerSelectWaitTime, playerCount, playerInstruction)
        decreases JoinRank(joinStage, playerSelectWaitTime)
      {
        RemainderUnfolds(joinStage, playerSelectWaitTime, playerCount, playerInstruction);
        ghost var rest := JoinRemainder(joinStage, playerSelectWaitTime, playerCount, playerInstruction);
        var more := ResumeJoinProcess(playerCount);
        assert rest == more + JoinRemainder(joinStage, playerSelectWaitTime, playerCount, playerInstruction);
        emitted := emitted + more;
      }
      if start == Counting(0) {
        JoinRoutineRaisesScript(playerSelectWaitTime, playerCount, playerInstruction);
      }
    }

    /**
     * `Manager_onPlayerJoined`: the player is placed at the first remaining
     * spawn point, recorded, and its numbering step is scheduled; the spawn
     * point stays. With no spawn point left the lookup throws, `placedAt` is
     * None and nothing changes.
     */
    method OnPlayerJoined(player: PlayerId) returns (placedAt: Option<Vector2>)
      requires Valid()
      modifies this`allPlayers, this`pendingJoins
      ensures Valid()
      ensures placedAt == if old(spawnPoints) == [] then None else Some(old(spawnPoints)[0])
      ensures allPlayers == if placedAt.None? then old(allPlayers) else old(allPlayers) + [player]
      ensures pendingJoins == if placedAt.None? then old(pendingJoins) else old(pendingJoins) + [player]
    {
      if |spawnPoints| == 0 {
        return None;
      }
      placedAt := Some(spawnPoints[0]);
      allPlayers := allPlayers + [player];
      pendingJoins := pendingJoins + [player];
    }

    /**
     * `WaitForJoin`, resumed after its one-frame wait, for the `i`-th pending
     * player. The number handed out is one more than the number of completed
     * steps; the first spawn point is then removed. `handlersOk` says whether
     * every subscriber of the join message returned normally: an exception in
     * one of them (a character's unchecked tint lookup) propagates out of the
     * message and the removal is skipped. When none is left the removal throws
     * after the join message was raised. In both cases `ok` is false and the
     * step is abandoned with the spawn points as they were.
     */
    method CompleteJoin(i: nat, handlersOk: bool) returns (emitted: seq<Event>, ok: bool)
      requires Valid()
      requires i < |pendingJoins|
      modifies this`spawnPoints, this`pendingJoins, this`numbered
      ensures Valid()
      ensures emitted == [OnPlayerJoin(|old(numbered)| + 1, old(pendingJoins)[i])]
      ensures ok == (handlersOk && old(spawnPoints) != [])
      ensures pendingJoins == old(pendingJoins)[..i] + old(pendingJoins)[i + 1..]
      ensures ok ==> spawnPoints == old(spawnPoints)[1..] && numbered == old(numbered) + [|old(numbered)| + 1]
      ensures !ok ==> spawnPoints == old(spawnPoints) && numbered == old(numbered)
      ensures ok && maxNumberOfPlayers <= 4 ==> FromValue(|old(numbered)| + 1).Some?
    {
      var player := pendingJoins[i];
      pendingJoins := pendingJoins[..i] + pendingJoins[i + 1..];
      var getPlayerNumber := (maxNumberOfPlayers - |spawnPoints|) + 1;
      emitted := [OnPlayerJoin(getPlayerNumber, player)];
      if !handlersOk || |spawnPoints| == 0 {
        return emitted, false;
      }
      spawnPoints := spawnPoints[1..];
      numbered := numbered + [getPlayerNumber];
      ok := true;
    }

    /**
     * `GoalAchieved`: a game-over routine is started exactly when the placing
     * equals the number of occupied slots; any other placing changes nothing.
     */
    method GoalAchieved(player: PlayerId, placed: int)
      requires Valid()
      modifies this`gameOverRoutines
      ensures Valid()
      ensures placed == Occupied() ==> gameOverRoutines == old(gameOverRoutines) + [AwaitAnnounce]
      ensures placed != Occupied() ==> gameOverRoutines == old(gameOverRoutines)
      ensures Occupied() == |numbered|
    {
      if placed == maxNumberOfPlayers - |spawnPoints| {
        gameOverRoutines := gameOverRoutines + [AwaitAnnounce];
      }
    }

    /** Resumes the `i`-th running game-over routine for one segment. */
    method ResumeGameOver(i: nat) returns (emitted: seq<Event>)
      requires i < |gameOverRoutines|
      modifies this`gameOverRoutines
      ensures emitted == GameOverSegment(old(gameOverRoutines)[i]).1
      ensures gameOverRoutines == match GameOverSegment(old(gameOverRoutines)[i]).0
        case Some(next) => old(gameOverRoutines)[i := next]
        case None => old(gameOverRoutines)[..i] + old(gameOverRoutines)[i + 1..]
    {
      match gameOverRoutines[i] {
        case AwaitAnnounce =>
          emitted := [GameOver];
          gameOverRoutines := gameOverRoutines[i := AwaitReturn];
        case AwaitReturn =>
          emitted := [LoadScene(0)];
          gameOverRoutines := gameOverRoutines[..i] + gameOverRoutines[i + 1..];
      }
    }
  }

  /**
   * A numbering step abandoned because a subscriber threw does not use up its
   * number: with one spawn point and two joins, the abandoned first step and
   * the completed second step both hand out number 1.
   */
  method AbandonedStepReusesNumber(point: Vector2, first: PlayerId, second: PlayerId)
    returns (firstMessages: seq<Event>, secondMessages: seq<Event>)
    ensures firstMessages == [OnPlayerJoin(1, first)]
    ensures secondMessages == [OnPlayerJoin(1, second)]
  {
    var m := new GameManager([point], 0, 0, "");
    var placedFirst := m.OnPlayerJoined(first);
    var placedSecond := m.OnPlayerJoined(second);
    var ok;
    firstMessages, ok := m.CompleteJoin(0, false);
    secondMessages, ok := m.CompleteJoin(0, true);
  }

  /** The number of occupied slots stays between 0 and the number of players, and equals the completed numbering steps. */
  lemma OccupiedInRange(m: GameManager)
    requires m.Valid()
    ensures 0 <= m.Occupied() <= m.maxNumberOfPlayers
    ensures m.Occupied() == |m.numbered|
  {
  }

  /** The numbers handed out are distinct and are 1, 2, ... in completion order. */
  lemma NumbersDistinct(m: GameManager, j: int, k: int)
    requires m.Valid()
    requires 0 <= j < k < |m.numbered|
    ensures m.numbered[j] != m.numbered[k]
    ensures m.numbered[j] == j + 1
  {
  }
}
