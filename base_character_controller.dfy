/**
 * The per-character state machine shared by the minigames
 * (Assets/Scripts/_Base/BaseCharacterController.cs).
 *
 * The fields the handlers and ticks change are gathered in `Fields`; each
 * method of the class is specified by a function from the fields before it
 * to the fields after it, and the lemmas of this module are about those
 * functions.
 */
module Character {
  import opened Wrappers
  import opened GlobalData
  import opened EngineTypes
  import opened GameEvents
  import opened Animation
  import opened Input

  /** The fields of a character that change while the game runs. */
  datatype Fields = Fields(
    playerNumber: int,
    endOfGamePlacing: int,
    enableInput: bool,
    moveVector: Vector2,
    moveSpeed: real,
    hit: bool,
    position: Vector2,
    color: Color,
    flipX: bool,
    knockbackDirection: Vector2,
    startPosition: Vector2,
    runningKnockbacks: nat)

  /** The fixed set-up of a character: its own transform and its configured values. */
  datatype Config = Config(
    self: PlayerId,
    hasSpriteRenderer: bool,
    playerSpriteTints: seq<Color>,
    enemyTags: seq<string>,
    knockbackDuration: real,
    knockbackDistance: real)

  // ---------------------------------------------------------------------------
  // The four game events

  /** `StartGame`: input is enabled. */
  function AfterStartGame(s: Fields): Fields {
    s.(enableInput := true)
  }

  /** The tint lookup `playerSpriteTints[playerNumber - 1]` is unchecked: it throws outside 1..|tints|. */
  predicate JoinThrows(c: Config, number: int, player: PlayerId) {
    player == c.self && c.hasSpriteRenderer && !(1 <= number <= |c.playerSpriteTints|)
  }

  /**
   * `OnPlayerJoined`: for this character the number is stored, the sprite is
   * tinted when there is a sprite, and input is disabled. When the tint lookup
   * throws, the number is already stored and nothing after it happens.
   */
  function AfterPlayerJoined(c: Config, s: Fields, number: int, player: PlayerId): Fields {
    if player != c.self then s
    else if !c.hasSpriteRenderer then s.(playerNumber := number, enableInput := false)
    else if 1 <= number <= |c.playerSpriteTints| then
      s.(playerNumber := number, color := c.playerSpriteTints[number - 1], enableInput := false)
    else s.(playerNumber := number)
  }

  /** `DeclarePlace`: for this character movement stops, input is disabled and the placing is stored. */
  function AfterDeclarePlace(c: Config, s: Fields, player: PlayerId, placed: int): Fields {
    if player != c.self then s
    else s.(moveSpeed := 0.0, enableInput := false, endOfGamePlacing := placed)
  }

  /** `GameOver`: the winner message for this character's number exactly when it placed first. */
  function WinnerMessages(s: Fields): seq<Event> {
    if s.endOfGamePlacing == 1 then [ShowWinner(s.playerNumber)] else []
  }

  // ---------------------------------------------------------------------------
  // Per-tick input, movement and visuals

  /** Reading the axis of a missing move button dereferences null and throws. */
  predicate MoveInputThrows(s: Fields, moveAxis: Option<Vector2>) {
    !s.hit && moveAxis.None?
  }

  /** `GetMoveInput`: unless the character is hit, the move vector becomes the move button's axis. */
  function AfterGetMoveInput(s: Fields, moveAxis: Option<Vector2>): Fields {
    if s.hit || moveAxis.None? then s else s.(moveVector := moveAxis.value)
  }

  /** `Update`: reads the move input only while input is enabled. */
  function AfterUpdate(s: Fields, moveAxis: Option<Vector2>): Fields {
    if !s.enableInput then s else AfterGetMoveInput(s, moveAxis)
  }

  predicate UpdateThrows(s: Fields, moveAxis: Option<Vector2>) {
    s.enableInput && MoveInputThrows(s, moveAxis)
  }

  /** `Move`: unless the character is hit, it moves by its move vector times speed times the time step. */
  function AfterMove(s: Fields, deltaTime: real): Fields {
    if s.hit then s else s.(position := s.position.Plus(s.moveVector.Scaled(s.moveSpeed * deltaTime)))
  }

  /** `FixedUpdate`: moves only while input is enabled. */
  function AfterFixedUpdate(s: Fields, deltaTime: real): Fields {
    if !s.enableInput then s else AfterMove(s, deltaTime)
  }

  /** The sprite faces right for a positive x, left for a negative x, and keeps its facing at zero. */
  function FlipAfter(flipX: bool, x: real): (r: bool)
    ensures x > 0.0 ==> !r
    ensures x < 0.0 ==> r
    ensures x == 0.0 ==> r == flipX
  {
    if x > 0.0 then false else if x < 0.0 then true else flipX
  }

  /** Writing the flip of a missing sprite renderer throws; at x == 0 it is not touched. */
  predicate VisualsThrow(c: Config, s: Fields) {
    !c.hasSpriteRenderer && s.moveVector.x != 0.0
  }

  /** `UpdateVisuals`, as far as the character's own fields go: the sprite flip. */
  function AfterUpdateVisuals(c: Config, s: Fields): Fields {
    if VisualsThrow(c, s) then s else s.(flipX := FlipAfter(s.flipX, s.moveVector.x))
  }

  /** `UpdateAnimationState`: Hit while hit, else Running while moving, else Idle; never Crouch. */
  function ChooseAnimationState(hit: bool, moveVector: Vector2): (r: AnimationStates)
    ensures r == Hit <==> hit
    ensures r == Running <==> !hit && moveVector.IsNonZero()
    ensures r == Idle <==> !hit && !moveVector.IsNonZero()
    ensures r != Crouch
  {
    if hit then Hit
    else if moveVector.IsNonZero() && !hit then Running
    else Idle
  }

  // ---------------------------------------------------------------------------
  // Collisions and knockback

  /**
   * `OnCollisionEnter2D`: a hazard (a collider whose tag is an enemy tag)
   * starts a knockback whose direction is the negated contact normal. The knockback routine
   * marks the character hit; with a non-positive duration its loop never runs
   * and it clears the mark in the same step.
   */
  function AfterCollisionEnter(c: Config, s: Fields, tag: string, normal: Vector2): Fields {
    if tag !in c.enemyTags then s
    else
      var started := s.(knockbackDirection := normal.Negated(), startPosition := s.position);
      if c.knockbackDuration <= 0.0 then started.(hit := false)
      else started.(hit := true, runningKnockbacks := s.runningKnockbacks + 1)
  }

  /**
   * One frame of a running knockback routine, `elapsed` seconds after it
   * began: the position is set to the point that fraction of the duration of
   * the way from the start point to the start point minus the direction times
   * the distance.
   */
  function AfterKnockbackFrame(c: Config, s: Fields, elapsed: real): Fields {
    if s.runningKnockbacks == 0 || c.knockbackDuration <= 0.0 then s
    else
      var target := s.startPosition.Plus(s.knockbackDirection.Scaled(-c.knockbackDistance));
      s.(position := Lerp(s.startPosition, target, elapsed / c.knockbackDuration))
  }

  /** One running knockback routine reaches its end and clears the hit mark. */
  function AfterKnockbackFinished(s: Fields): Fields {
    if s.runningKnockbacks == 0 then s
    else s.(hit := false, runningKnockbacks := s.runningKnockbacks - 1)
  }

  // ---------------------------------------------------------------------------
  // Everything that can happen to a character, in sequence

  datatype Stimulus =
    | GameStartedSignal
    | PlayerJoinedSignal(number: int, player: PlayerId)
    | GoalAchievedSignal(player: PlayerId, placed: int)
    | GameOverSignal
    | UpdateTick(moveAxis: Option<Vector2>)
    | FixedUpdateTick(deltaTime: real)
    | LateUpdateTick
    | CollisionEnter(tag: string, normal: Vector2)
    | KnockbackFrame(elapsed: real)
    | KnockbackFinished

  function Step(c: Config, s: Fields, e: Stimulus): Fields {
    match e
    case GameStartedSignal => AfterStartGame(s)
    case PlayerJoinedSignal(number, player) => AfterPlayerJoined(c, s, number, player)
    case GoalAchievedSignal(player, placed) => AfterDeclarePlace(c, s, player, placed)
    case GameOverSignal => s
    case UpdateTick(moveAxis) => AfterUpdate(s, moveAxis)
    case FixedUpdateTick(deltaTime) => AfterFixedUpdate(s, deltaTime)
    case LateUpdateTick => AfterUpdateVisuals(c, s)
    case CollisionEnter(tag, normal) => AfterCollisionEnter(c, s, tag, normal)
    case KnockbackFrame(elapsed) => AfterKnockbackFrame(c, s, elapsed)
    case KnockbackFinished => AfterKnockbackFinished(s)
  }

  function Run(c: Config, s: Fields, es: seq<Stimulus>): Fields
    decreases |es|
  {
    if es == [] then s else Run(c, Step(c, s, es[0]), es[1..])
  }

  // ---------------------------------------------------------------------------
  // Properties

  /** A join or goal message addressed to another transform changes nothing. */
  lemma OthersIgnored(c: Config, s: Fields, player: PlayerId, number: int, placed: int)
    requires player != c.self
    ensures AfterPlayerJoined(c, s, number, player) == s
    ensures AfterDeclarePlace(c, s, player, placed) == s
    ensures !JoinThrows(c, number, player)
  {
  }

  /** A join message for this character: the number is stored and, unless the tint lookup throws, input is disabled. */
  lemma JoinEffects(c: Config, s: Fields, number: int)
    ensures var r := AfterPlayerJoined(c, s, number, c.self);
      && r.playerNumber == number
      && (!JoinThrows(c, number, c.self) ==> !r.enableInput)
      && (JoinThrows(c, number, c.self) ==> r.enableInput == s.enableInput && r.color == s.color)
      && (c.hasSpriteRenderer && !JoinThrows(c, number, c.self) ==> r.color == c.playerSpriteTints[number - 1])
      && (!c.hasSpriteRenderer ==> r.color == s.color)
      && r.(playerNumber := s.playerNumber, enableInput := s.enableInput, color := s.color) == s
  {
  }

  /** A goal message for this character stops it and stores the placing; repeating it changes nothing more. */
  lemma DeclarePlaceEffects(c: Config, s: Fields, placed: int)
    ensures var r := AfterDeclarePlace(c, s, c.self, placed);
      && r.moveSpeed == 0.0 && !r.enableInput && r.endOfGamePlacing == placed
      && r.(moveSpeed := s.moveSpeed, enableInput := s.enableInput, endOfGamePlacing := s.endOfGamePlacing) == s
      && AfterDeclarePlace(c, r, c.self, placed) == r
  {
  }

  /** While input is disabled the ticks change neither the move vector nor the position, and cannot throw. */
  lemma DisabledTicksChangeNothing(s: Fields, moveAxis: Option<Vector2>, deltaTime: real)
    requires !s.enableInput
    ensures AfterUpdate(s, moveAxis) == s && AfterFixedUpdate(s, deltaTime) == s
    ensures !UpdateThrows(s, moveAxis)
  {
  }

  /** While hit, input reading keeps the move vector and moving keeps the position. */
  lemma HitFreezesMovement(s: Fields, moveAxis: Option<Vector2>, deltaTime: real)
    requires s.hit
    ensures AfterGetMoveInput(s, moveAxis) == s && AfterMove(s, deltaTime) == s
    ensures !MoveInputThrows(s, moveAxis)
  {
  }

  /**
   * Only a collider with an enemy tag starts a knockback; any other collider
   * changes nothing. A hazard records the negated normal and the position at
   * impact, and marks the character hit unless the duration is non-positive.
   */
  lemma KnockbackOnlyFromHazards(c: Config, s: Fields, tag: string, normal: Vector2)
    ensures tag !in c.enemyTags ==> AfterCollisionEnter(c, s, tag, normal) == s
    ensures tag in c.enemyTags ==>
      AfterCollisionEnter(c, s, tag, normal).knockbackDirection == normal.Negated() &&
      AfterCollisionEnter(c, s, tag, normal).startPosition == s.position
    ensures tag in c.enemyTags ==> (AfterCollisionEnter(c, s, tag, normal).hit <==> c.knockbackDuration > 0.0)
  {
  }

  /**
   * A frame of the knockback that a hazard started moves the character from
   * where it was along the contact normal, by the distance times the fraction
   * of the duration elapsed; this holds whatever its speed or input flag.
   */
  lemma KnockbackPushesAlongNormal(c: Config, s: Fields, tag: string, normal: Vector2, elapsed: real)
    requires tag in c.enemyTags && c.knockbackDuration > 0.0
    ensures var r := AfterKnockbackFrame(c, AfterCollisionEnter(c, s, tag, normal), elapsed);
      r.position == s.position.Plus(normal.Scaled(c.knockbackDistance * Clamp01(elapsed / c.knockbackDuration)))
  {
  }

  /** A stimulus that starts a knockback routine whose frames move the character. */
  predicate StartsKnockback(c: Config, e: Stimulus) {
    e.CollisionEnter? && e.tag in c.enemyTags && c.knockbackDuration > 0.0
  }

  /**
   * A stopped character (speed zero, as placing leaves it) with no knockback
   * running is never moved again, unless a hazard starts a knockback.
   */
  lemma {:induction false} StoppedStaysPut(c: Config, s: Fields, es: seq<Stimulus>)
    requires s.moveSpeed == 0.0 && s.runningKnockbacks == 0
    requires forall i :: 0 <= i < |es| ==> !StartsKnockback(c, es[i])
    ensures Run(c, s, es).position == s.position
    ensures Run(c, s, es).moveSpeed == 0.0
    ensures Run(c, s, es).runningKnockbacks == 0
    decreases |es|
  {
    if es != [] {
      var next := Step(c, s, es[0]);
      assert !StartsKnockback(c, es[0]);
      assert next.position == s.position && next.moveSpeed == 0.0 && next.runningKnockbacks == 0 by {
        if es[0].FixedUpdateTick? && s.enableInput && !s.hit {
          assert s.moveVector.Scaled(s.moveSpeed * es[0].deltaTime) == Zero;
        }
      }
      StoppedStaysPut(c, next, es[1..]);
    }
  }

  /**
   * Until the game-started message arrives, a character with input disabled
   * never reads input, and it is not moved unless a hazard starts a knockback.
   */
  lemma {:induction false} FrozenUntilStarted(c: Config, s: Fields, es: seq<Stimulus>)
    requires !s.enableInput && s.runningKnockbacks == 0
    requires forall i :: 0 <= i < |es| ==> !es[i].GameStartedSignal? && !StartsKnockback(c, es[i])
    ensures !Run(c, s, es).enableInput
    ensures Run(c, s, es).position == s.position
    ensures Run(c, s, es).moveVector == s.moveVector
    ensures Run(c, s, es).runningKnockbacks == 0
    decreases |es|
  {
    if es != [] {
      var next := Step(c, s, es[0]);
      assert !StartsKnockback(c, es[0]);
      assert !next.enableInput && next.position == s.position && next.moveVector == s.moveVector && next.runningKnockbacks == 0;
      FrozenUntilStarted(c, next, es[1..]);
    }
  }

  predicate IsGoalFor(c: Config, e: Stimulus) {
    e.GoalAchievedSignal? && e.player == c.self
  }

  /** The placing changes only on a goal message for this character. */
  lemma {:induction false} PlacingKept(c: Config, s: Fields, es: seq<Stimulus>)
    requires forall i :: 0 <= i < |es| ==> !IsGoalFor(c, es[i])
    ensures Run(c, s, es).endOfGamePlacing == s.endOfGamePlacing
    decreases |es|
  {
    if es != [] {
      PlacingKept(c, Step(c, s, es[0]), es[1..]);
    }
  }

  predicate IsJoinFor(c: Config, e: Stimulus) {
    e.PlayerJoinedSignal? && e.player == c.self
  }

  /** The player number changes only on a join message for this character. */
  lemma {:induction false} NumberKept(c: Config, s: Fields, es: seq<Stimulus>)
    requires forall i :: 0 <= i < |es| ==> !IsJoinFor(c, es[i])
    ensures Run(c, s, es).playerNumber == s.playerNumber
    decreases |es|
  {
    if es != [] {
      NumberKept(c, Step(c, s, es[0]), es[1..]);
    }
  }

  /**
   * A character that joined as number n and then placed first announces n as
   * the winner at game over, provided no later join or goal message concerns it.
   */
  lemma WinnerIsFirstPlaced(c: Config, s: Fields, number: int, es: seq<Stimulus>)
    requires forall i :: 0 <= i < |es| ==> !IsGoalFor(c, es[i]) && !IsJoinFor(c, es[i])
    ensures var joined := AfterPlayerJoined(c, s, number, c.self);
      WinnerMessages(Run(c, AfterDeclarePlace(c, joined, c.self, 1), es)) == [ShowWinner(number)]
  {
    var placed := AfterDeclarePlace(c, AfterPlayerJoined(c, s, number, c.self), c.self, 1);
    PlacingKept(c, placed, es);
    NumberKept(c, placed, es);
  }

  // ---------------------------------------------------------------------------
  // The component

  /** The axis value the move input reads: that of the first button bound to Move, if there is one. */
  function MoveAxis(router: InputRouter): Option<Vector2>
    reads router, set b | b in router.inputs
  {
    var b := Lookup(router.inputs, InputActions.Move);
    if b == null then None else Some(b.axisInputValue)
  }

  class BaseCharacterController {
    /** The transform of this character. */
    const self: PlayerId
    /** Whether a sprite renderer is assigned. */
    const hasSpriteRenderer: bool
    const playerSpriteTints: seq<Color>
    const enemyTags: seq<string>
    const knockbackDuration: real
    const knockbackDistance: real
    const input: InputRouter
    const characterAnimator: CharacterAnimator

    var playerNumber: int
    var endOfGamePlacing: int
    var enableInput: bool
    var moveVector: Vector2
    var moveSpeed: real
    var hit: bool
    var position: Vector2
    var color: Color
    var flipX: bool
    var knockbackDirection: Vector2
    var startPosition: Vector2
    var runningKnockbacks: nat

    function Cfg(): Config {
      Config(self, hasSpriteRenderer, playerSpriteTints, enemyTags, knockbackDuration, knockbackDistance)
    }

    function Snapshot(): Fields
      reads this
    {
      Fields(playerNumber, endOfGamePlacing, enableInput, moveVector, moveSpeed, hit,
             position, color, flipX, knockbackDirection, startPosition, runningKnockbacks)
    }

    /** A character as configured, with the sprite renderer's colour and flip: not hit, not moving, not placed. */
    constructor (self: PlayerId, hasSpriteRenderer: bool, playerSpriteTints: seq<Color>, enemyTags: seq<string>,
                 knockbackDuration: real, knockbackDistance: real, input: InputRouter, characterAnimator: CharacterAnimator,
                 playerNumber: int, enableInput: bool, moveSpeed: real, position: Vector2, color: Color, flipX: bool)
      ensures Cfg() == Config(self, hasSpriteRenderer, playerSpriteTints, enemyTags, knockbackDuration, knockbackDistance)
      ensures this.input == input && this.characterAnimator == characterAnimator
      ensures Snapshot() == Fields(playerNumber, 0, enableInput, Zero, moveSpeed, false,
                                   position, color, flipX, Zero, Zero, 0)
    {
      this.self := self;
      this.hasSpriteRenderer := hasSpriteRenderer;
      this.playerSpriteTints := playerSpriteTints;
      this.enemyTags := enemyTags;
      this.knockbackDuration := knockbackDuration;
      this.knockbackDistance := knockbackDistance;
      this.input := input;
      this.characterAnimator := characterAnimator;
      this.playerNumber := playerNumber;
      endOfGamePlacing := 0;
      this.enableInput := enableInput;
      moveVector := Zero;
      this.moveSpeed := moveSpeed;
      hit := false;
      this.position := position;
      this.color := color;
      this.flipX := flipX;
      knockbackDirection := Zero;
      startPosition := Zero;
      runningKnockbacks := 0;
    }

    /** `StartGame`: enables input and changes nothing else. */
    method StartGame()
      modifies this
      ensures Snapshot() == AfterStartGame(old(Snapshot()))
    {
      enableInput := true;
    }

    /** `OnPlayerJoined`; `ok` is false when the unchecked tint lookup throws. */
    method OnPlayerJoined(playerNumberToSet: int, player: PlayerId) returns (ok: bool)
      modifies this
      ensures ok == !JoinThrows(Cfg(), playerNumberToSet, player)
      ensures Snapshot() == AfterPlayerJoined(Cfg(), old(Snapshot()), playerNumberToSet, player)
    {
      if player != self {
        return true;
      }
      playerNumber := playerNumberToSet;
      if hasSpriteRenderer {
        if !(0 <= playerNumber - 1 < |playerSpriteTints|) {
          return false;
        }
        color := playerSpriteTints[playerNumber - 1];
      }
      enableInput := false;
      ok := true;
    }

    /** `DeclarePlace`. */
    method DeclarePlace(player: PlayerId, placed: int)
      modifies this
      ensures Snapshot() == AfterDeclarePlace(Cfg(), old(Snapshot()), player, placed)
    {
      if player != self {
        return;
      }
      moveSpeed := 0.0;
      enableInput := false;
      endOfGamePlacing := placed;
    }

    /** `GameOver`: raises the winner message exactly when this character placed first. */
    method GameOver() returns (emitted: seq<Event>)
      ensures emitted == WinnerMessages(Snapshot())
      ensures |emitted| <= 1
    {
      emitted := [];
      if endOfGamePlacing == 1 {
        emitted := [ShowWinner(playerNumber)];
      }
    }

    /** `GetMoveInput`; `ok` is false when there is no move button to read. */
    method GetMoveInput() returns (ok: bool)
      modifies this
      ensures ok == !MoveInputThrows(old(Snapshot()), MoveAxis(input))
      ensures Snapshot() == AfterGetMoveInput(old(Snapshot()), MoveAxis(input))
    {
      if hit {
        return true;
      }
      var button := input.FindAndReturnButton(InputActions.Move);
      if button == null {
        return false;
      }
      moveVector := button.axisInputValue;
      ok := true;
    }

    /** `Update`. */
    method Update() returns (ok: bool)
      modifies this
      ensures ok == !UpdateThrows(old(Snapshot()), MoveAxis(input))
      ensures Snapshot() == AfterUpdate(old(Snapshot()), MoveAxis(input))
    {
      if !enableInput {
        return true;
      }
      ok := GetMoveInput();
    }

    /** `Move`, with the physics step's duration as a parameter. */
    method Move(deltaTime: real)
      modifies this
      ensures Snapshot() == AfterMove(old(Snapshot()), deltaTime)
    {
      if hit {
        return;
      }
      position := position.Plus(moveVector.Scaled(moveSpeed * deltaTime));
    }

    /** `FixedUpdate`. */
    method FixedUpdate(deltaTime: real)
      modifies this
      ensures Snapshot() == AfterFixedUpdate(old(Snapshot()), deltaTime)
    {
      if !enableInput {
        return;
      }
      Move(deltaTime);
    }

    /** `UpdateAnimationState`: writes the chosen state into the animator. */
    method UpdateAnimationState()
      modifies characterAnimator
      ensures characterAnimator.CurrentState() == ChooseAnimationState(hit, moveVector)
      ensures characterAnimator.Flags() == FlagsFor(ChooseAnimationState(hit, moveVector))
    {
      if hit {
        characterAnimator.SetCurrentState(AnimationStates.Hit);
      } else if moveVector.IsNonZero() && !hit {
        characterAnimator.SetCurrentState(AnimationStates.Running);
      } else if !hit {
        characterAnimator.SetCurrentState(AnimationStates.Idle);
      }
    }

    /** `UpdateVisuals` (run by `LateUpdate`); `ok` is false when the missing sprite renderer is written. */
    method UpdateVisuals() returns (ok: bool)
      modifies this, characterAnimator
      ensures ok == !VisualsThrow(Cfg(), old(Snapshot()))
      ensures Snapshot() == AfterUpdateVisuals(Cfg(), old(Snapshot()))
      ensures ok ==> characterAnimator.CurrentState() == ChooseAnimationState(hit, moveVector)
      ensures ok ==> characterAnimator.Flags() == FlagsFor(ChooseAnimationState(hit, moveVector))
      ensures !ok ==> unchanged(characterAnimator)
    {
      if moveVector.x > 0.0 {
        if !hasSpriteRenderer {
          return false;
        }
        flipX := false;
      } else if moveVector.x < 0.0 {
        if !hasSpriteRenderer {
          return false;
        }
        flipX := true;
      }
      UpdateAnimationState();
      ok := true;
    }

    /** `OnCollisionEnter2D` with the collider's tag and the first contact's normal, and the first step of the knockback routine. */
    method OnCollisionEnter2D(tag: string, normal: Vector2)
      modifies this
      ensures Snapshot() == AfterCollisionEnter(Cfg(), old(Snapshot()), tag, normal)
    {
      if tag in enemyTags {
        knockbackDirection := normal.Negated();
        startPosition := position;
        hit := true;
        if knockbackDuration <= 0.0 {
          hit := false;
        } else {
          runningKnockbacks := runningKnockbacks + 1;
        }
      }
    }

    /** One frame of a running knockback routine, `elapsed` seconds after it began. */
    method KnockbackFrame(elapsed: real)
      modifies this
      ensures Snapshot() == AfterKnockbackFrame(Cfg(), old(Snapshot()), elapsed)
    {
      if runningKnockbacks > 0 && knockbackDuration > 0.0 {
        var target := startPosition.Plus(knockbackDirection.Scaled(-knockbackDistance));
        position := Lerp(startPosition, target, elapsed / knockbackDuration);
      }
    }

    /** The last step of a running knockback routine. */
    method FinishKnockback()
      modifies this
      ensures Snapshot() == AfterKnockbackFinished(old(Snapshot()))
    {
      if runningKnockbacks > 0 {
        runningKnockbacks := runningKnockbacks - 1;
        hit := false;
      }
    }
  }
}
