# Party-game control logic in Dafny

This project models the discrete control logic of a small party game: players
join, each gets a player number, a countdown starts the round, and each
character reacts to the game's global events. When a character reaches the
goal it is given a placing, and once every occupied slot has placed the game
is over and the menu is loaded. Five components are modelled:

- the game manager (`Manager.GameManager`):
  - join bookkeeping over the spawn points;
  - the join countdown routine and the game-over routine;
  - the end-of-round test.
- the base character controller (`Character.BaseCharacterController`):
  - how its fields change on the start, join, placing and game-over messages;
  - per-tick input and movement, gated on `enableInput` and `hit`;
  - the sprite flip and the animation state;
  - the knockback when it hits a hazard: its start, its frames and its end.
- the character animator (`Animation.CharacterAnimator`): an animation state
  mapped to three animator flags.
- the placing text above a character (`Placing.CharacterUI`).
- the input router's button lookup and debug switch (`Input.InputRouter`).

The engine is abstracted away as follows:

- A transform is an opaque player id (`PlayerId`).
- An event-bus message is a value of `GameEvents.Event`. A handler or routine
  step returns the messages it raises, in order.
- A coroutine is a stage datatype plus a pure "segment" function. A segment
  gives the messages raised up to the next suspension and the stage reached
  there. Methods resume one segment at a time. The engine's waits are not
  timed: a suspended routine resumes whenever the caller chooses.
- An exception the source can throw becomes an `ok` result that is false. The
  fields are left as they were when the exception was thrown. This covers the
  unchecked tint index, removing a spawn point from an empty list, a missing
  move button, and a missing sprite renderer.
- Floating-point values are `real`.

Some behaviour of the code is easy to miss; the model follows the code:

- When nobody joined, the join routine raises the scene load right after the
  game-started message. It does not stop there: both instruction texts still
  follow (`Manager.StartMessagesOrder`).
- The tint lookup `playerSpriteTints[playerNumber - 1]` is not bounds-checked.
  An out-of-range number throws after the number has been stored, and input
  is left as it was (`Character.JoinEffects`). The exception also propagates
  out of the join message into the manager's numbering step, so that step
  does not remove its spawn point and the next join gets the same number
  (`Manager.GameManager.CompleteJoin` with `handlersOk` false).
- The player number is handed out one frame after the join, by a separate
  step (`Manager.GameManager.CompleteJoin`), and that step removes the spawn
  point. If two players join in the same frame with only one spawn point left,
  both are placed at that point. The second step then raises its join message
  with number `maxNumberOfPlayers + 1`, and the step is then abandoned, because
  a subscriber's unchecked lookup or the removal throws.
- A placed character is not locked for good. A later game-started message
  enables its input again. Its speed stays 0, so its own movement never
  changes its position again (`Character.StoppedStaysPut`), but its move
  vector still follows the stick.
- Collisions are not gated on input or speed. A hazard still knocks back a
  placed character, or one whose game has not started, along the contact
  normal (`Character.KnockbackPushesAlongNormal`).
- The winner is not chosen by the manager. Each character announces itself at
  game over if its placing is 1 (`Character.WinnerIsFirstPlaced`).

## Model

| member | source | states |
|---|---|---|
| GlobalData.FromValue | Assets/Scripts/_Base/GlobalData.cs:9 | an integer names a player exactly when it is 1..4, and the named player has that value |
| GlobalData.FromValueOfValue | Assets/Scripts/_Base/GlobalData.cs:9 | value and back gives the same named player |
| Text.NatToString | Assets/Scripts/_Base/GameManager.cs:57 | a natural number renders as a non-empty string of decimal digits with no leading zero |
| Text.IntToString | Assets/Scripts/_Base/GameManager.cs:57 | the rendering starts with '-' exactly for negative numbers and is all digits otherwise |
| Text.ParseNatToString | Assets/Scripts/_Base/CharacterUI.cs:48 | reading back the rendering of a natural number gives the number |
| Text.ParseIntToString | Assets/Scripts/_Base/GameManager.cs:57 | reading back the rendering of an integer gives the integer |
| Text.IntToStringInjective | Assets/Scripts/_Base/GameManager.cs:57 | different numbers have different texts |
| Animation.FlagsFor | Assets/Scripts/_Base/CharacterAnimator.cs:23-53 | Idle clears all three flags; Running, Crouch and Hit each set exactly their own flag; at most one flag is on |
| Animation.StateShownOfFlagsFor | Assets/Scripts/_Base/CharacterAnimator.cs:23-53 | the flags written for a state determine the state |
| Animation.CharacterAnimator.constructor | Assets/Scripts/_Base/CharacterAnimator.cs:10 | the animator starts with the configured state and animator parameters |
| Animation.CharacterAnimator.SetCurrentState | Assets/Scripts/_Base/CharacterAnimator.cs:14-54 | after setting s the getter returns s and the animator parameters are exactly the flags written for s, at most one of them on |
| Placing.PlacingText | Assets/Scripts/_Base/CharacterUI.cs:44-66 | places 1..4 give "1ST", "2ND", "3RD", "4TH"; every other place gives no text |
| Placing.TextAfterPlacedCases | Assets/Scripts/_Base/CharacterUI.cs:36-67 | a message for nobody or for another player, or a place outside 1..4, leaves the text; for this player a place in 1..4 sets the number and its suffix |
| Placing.TextAfterPlacedIdempotent | Assets/Scripts/_Base/CharacterUI.cs:36-67 | repeating the same message changes nothing more |
| Placing.CharacterUI.Start | Assets/Scripts/_Base/CharacterUI.cs:26-29 | the placing text becomes empty |
| Placing.CharacterUI.Placed | Assets/Scripts/_Base/CharacterUI.cs:36-67 | the new text is the text after the message, as above |
| Input.InputButton.SetDebugging | Assets/Scripts/_Base/InputButton.cs:77-80 | sets the debug flag and nothing else |
| Input.FirstIndex | Assets/Scripts/_Base/InputRouter.cs:35-43 | the index found is the lowest one whose button equals the action; there is none exactly when no button matches |
| Input.FirstIndexAt | Assets/Scripts/_Base/InputRouter.cs:37-42 | a match with no match before it is the index found |
| Input.Lookup | Assets/Scripts/_Base/InputRouter.cs:35-50 | null exactly when no button matches; otherwise a listed button bound to the action |
| Input.InputRouter.FindAndReturnButton | Assets/Scripts/_Base/InputRouter.cs:35-51 | returns the lookup result without changing anything |
| Input.InputRouter.EnableDebuggingOnButtons | Assets/Scripts/_Base/InputRouter.cs:53-62 | with true every listed button ends up debugging; with false nothing changes; only debug flags change |
| Character.FlipAfter | Assets/Scripts/_Base/BaseCharacterController.cs:148-158 | positive x faces right, negative x faces left, zero keeps the facing |
| Character.ChooseAnimationState | Assets/Scripts/_Base/BaseCharacterController.cs:166-181 | Hit exactly when hit, else Running exactly when the move vector is non-zero, else Idle; never Crouch |
| Character.OthersIgnored | Assets/Scripts/_Base/BaseCharacterController.cs:217-241 | join and goal messages for another transform change nothing and cannot throw |
| Character.JoinEffects | Assets/Scripts/_Base/BaseCharacterController.cs:236-255 | a join for this character stores the number; without a throw it disables input and with a sprite it takes tint number-1; a throw leaves input and colour; a missing sprite renderer leaves the colour; nothing else changes |
| Character.DeclarePlaceEffects | Assets/Scripts/_Base/BaseCharacterController.cs:217-229 | a goal for this character sets speed 0, disables input and stores the placing, nothing else; repeating it is idempotent |
| Character.DisabledTicksChangeNothing | Assets/Scripts/_Base/BaseCharacterController.cs:65-81 | with input disabled Update and FixedUpdate change nothing, so neither move vector nor position |
| Character.HitFreezesMovement | Assets/Scripts/_Base/BaseCharacterController.cs:122-143 | while hit, input reading keeps the move vector and moving keeps the position |
| Character.KnockbackOnlyFromHazards | Assets/Scripts/_Base/BaseCharacterController.cs:88-94 | only a collider with an enemy tag starts a knockback; it records the negated contact normal as the direction and the position at impact as the start point, and marks the character hit exactly when the duration is positive |
| Character.KnockbackPushesAlongNormal | Assets/Scripts/_Base/BaseCharacterController.cs:187-206 | a frame of a hazard's knockback puts the character at its position at impact plus the contact normal times the distance times the clamped elapsed fraction of the duration, whatever its speed or input flag |
| Character.StoppedStaysPut | Assets/Scripts/_Base/BaseCharacterController.cs:224 | once placing has set the speed to 0, and with no knockback running, no sequence of messages and ticks without a hazard collision moves the character |
| Character.FrozenUntilStarted | Assets/Scripts/_Base/BaseCharacterController.cs:65-116 | with input disabled, no knockback running, and no game-started message or hazard collision, input stays disabled and neither move vector nor position changes |
| Character.PlacingKept | Assets/Scripts/_Base/BaseCharacterController.cs:217-229 | the placing changes only on a goal message for this character |
| Character.NumberKept | Assets/Scripts/_Base/BaseCharacterController.cs:236-255 | the player number changes only on a join message for this character |
| Character.WinnerIsFirstPlaced | Assets/Scripts/_Base/BaseCharacterController.cs:260-267 | a character that joined as n, even when its tint lookup then threw, and then placed first announces n as the winner at game over |
| Character.BaseCharacterController.constructor | Assets/Scripts/_Base/BaseCharacterController.cs:12-34 | a character starts as configured (number, input flag, speed, position, and the sprite renderer's colour and flip): not placed, not hit, not moving, no knockback |
| Character.BaseCharacterController.StartGame | Assets/Scripts/_Base/BaseCharacterController.cs:113-116 | enables input and nothing else |
| Character.BaseCharacterController.OnPlayerJoined | Assets/Scripts/_Base/BaseCharacterController.cs:236-255 | the join effects above; ok is false exactly when the unchecked tint index is out of range |
| Character.BaseCharacterController.DeclarePlace | Assets/Scripts/_Base/BaseCharacterController.cs:217-229 | the placing effects above |
| Character.BaseCharacterController.GameOver | Assets/Scripts/_Base/BaseCharacterController.cs:260-267 | raises ShowWinner(playerNumber) exactly when the placing is 1, and nothing otherwise |
| Character.BaseCharacterController.GetMoveInput | Assets/Scripts/_Base/BaseCharacterController.cs:122-130 | unless hit, the move vector becomes the first Move button's axis; ok is false when there is no such button |
| Character.BaseCharacterController.Update | Assets/Scripts/_Base/BaseCharacterController.cs:65-72 | reads move input only while input is enabled |
| Character.BaseCharacterController.Move | Assets/Scripts/_Base/BaseCharacterController.cs:135-143 | unless hit, moves by move vector times speed times the time step |
| Character.BaseCharacterController.FixedUpdate | Assets/Scripts/_Base/BaseCharacterController.cs:74-81 | moves only while input is enabled |
| Character.BaseCharacterController.UpdateAnimationState | Assets/Scripts/_Base/BaseCharacterController.cs:166-181 | the animator shows the chosen state with its flags |
| Character.BaseCharacterController.UpdateVisuals | Assets/Scripts/_Base/BaseCharacterController.cs:148-161 | sets the flip and then the animation state; throws only when the missing sprite renderer would be written |
| Character.BaseCharacterController.OnCollisionEnter2D | Assets/Scripts/_Base/BaseCharacterController.cs:88-94 | a hazard records the knockback direction and start point and marks the character hit; a non-positive duration clears the mark at once |
| Character.BaseCharacterController.KnockbackFrame | Assets/Scripts/_Base/BaseCharacterController.cs:202-207 | while a knockback runs, the position is the lerp from the start point towards start minus direction times distance, at elapsed over duration |
| Character.BaseCharacterController.FinishKnockback | Assets/Scripts/_Base/BaseCharacterController.cs:209 | a running knockback ends and clears the hit mark |
| Manager.JoinSegment | Assets/Scripts/_Base/GameManager.cs:46-82 | every segment of the join routine brings it closer to its end |
| Manager.CountdownShape | Assets/Scripts/_Base/GameManager.cs:51-59 | the countdown raises "Time Till Start: " + (W-s) for s = 1..W, in order, and nothing for W <= 0 |
| Manager.CountdownOnlyTexts | Assets/Scripts/_Base/GameManager.cs:51-59 | the countdown raises only player-select texts |
| Manager.RemainderFromGrace | Assets/Scripts/_Base/GameManager.cs:62-79 | after the grace second the routine raises the start messages |
| Manager.RemainderFromCounting | Assets/Scripts/_Base/GameManager.cs:51-79 | from the loop test the routine raises the rest of the countdown, "Game Starting!" and the start messages |
| Manager.JoinRoutineRaisesScript | Assets/Scripts/_Base/GameManager.cs:46-82 | run from its start, the join routine raises exactly the script |
| Manager.StartMessagesOrder | Assets/Scripts/_Base/GameManager.cs:64-79 | joining is disabled, then the game starts; the menu is loaded exactly when player count <= 0; both instruction texts follow in either case |
| Manager.JoinScriptOrder | Assets/Scripts/_Base/GameManager.cs:46-82 | W countdown texts, then "Game Starting!", then the start messages; the menu is loaded exactly when nobody joined |
| Manager.GameOverOrder | Assets/Scripts/_Base/GameManager.cs:90-103 | the game-over routine raises GameOver strictly before LoadScene(0), and nothing else |
| Manager.GameManager.constructor | Assets/Scripts/_Base/GameManager.cs:36-39 | the number of players is fixed at the initial spawn-point count |
| Manager.GameManager.ResumeJoinProcess | Assets/Scripts/_Base/GameManager.cs:46-82 | one segment of the join routine |
| Manager.GameManager.RunJoinProcess | Assets/Scripts/_Base/GameManager.cs:46-82 | run to its end from its start, the routine raises exactly the script |
| Manager.GameManager.OnPlayerJoined | Assets/Scripts/_Base/GameManager.cs:105-117 | the player is placed at the first spawn point, appended once to the players and scheduled for numbering; the spawn point stays; with none left it throws and nothing changes |
| Manager.GameManager.CompleteJoin | Assets/Scripts/_Base/GameManager.cs:119-142 | the k-th completed numbering step gives number k and removes exactly one spawn point; when a subscriber of the join message throws, or the list is empty, the message is raised and no spawn point is removed |
| Manager.GameManager.GoalAchieved | Assets/Scripts/_Base/GameManager.cs:144-153 | the game-over routine starts exactly when the placing equals the occupied slots; otherwise nothing changes |
| Manager.GameManager.ResumeGameOver | Assets/Scripts/_Base/GameManager.cs:84-103 | one segment of a game-over routine: first GameOver, then LoadScene(0) and the routine ends |
| Manager.OccupiedInRange | Assets/Scripts/_Base/GameManager.cs:126 | max minus the remaining spawn points is the number of completed joins, within 0..max |
| Manager.NumbersDistinct | Assets/Scripts/_Base/GameManager.cs:119-142 | the numbers handed out by completed numbering steps are distinct and 1, 2, ... in completion order; a step abandoned by a throwing subscriber hands its number out again |
| Manager.AbandonedStepReusesNumber | Assets/Scripts/_Base/GameManager.cs:105-142 | with one spawn point and two joins, an abandoned first numbering step and a completed second one both raise number 1 |

## Left out

- Character.BaseCharacterController.KnockbackFrame: the routine's elapsed time is an input of each frame, and the loop's test `elapsedTime < knockbackDuration` is the caller's choice of when to send `FinishKnockback`. The accumulation of `Time.deltaTime` is not modelled.
- Manager.GameManager.CompleteJoin: whether a subscriber of the join message throws is an input (`handlersOk`). It is not derived from the characters, because delivery of bus messages is not modelled.
- Character.StoppedStaysPut and Character.FrozenUntilStarted speak only of the scripts' own writes to the position. The physics engine's own motion of the body is not modelled: gravity, forces such as those a minigame character adds, and contact response.
- Character.BaseCharacterController.Move: the position is computed in real arithmetic. Float rounding, and how the physics engine carries out `MovePosition` at its next step, are not modelled.
- Character.ChooseAnimationState: "magnitude > 0" is modelled as "some component is non-zero". A float vector whose squared components underflow to zero is not modelled.
- Coroutine timing (`WaitForSeconds`, `WaitForEndOfFrame`, the knockback's elapsed time) is left out. Only the order of segments and of the messages they raise is kept.
- The player-input manager is a foreign library. Its `playerCount` and its join events are inputs. `DisableJoining` is recorded as a message in order.
- Delivery of bus messages to their subscribers is left out. Each handler is modelled on its own, with the payload as parameters, and the manager and characters are not composed into one system.
- Logging (`Debug.LogError`, and the effect of the buttons' debug flag on logging) is left out. It has no effect on state.
- The coroutine handle fields (`startJoinRoutine`, `gameOverRoutine`, `waitingForJoinRoutine`) and the unused `winningPlayer` are left out. They are stored but never read.
- Missing references set in the editor (the input router, the animator, the placing text) are assumed to be assigned. Only the sprite renderer is modelled as possibly missing, because the code tests it.
- InputButton.cs is not part of this model beyond `SetDebugging`, `Button` and the axis value. Its callback set-up and tear-down, with float clamping, are engine input-system wiring.
- InputRouter `SetUpButtons`/`TearDownButtons` are left out. They instantiate and destroy engine assets.
- InGameUi.cs, SceneLoader.cs and MainMenu.cs are left out: widget visibility, scene loading and quitting are engine I/O.
- The minigame characters (DuckCharacter.cs, PlayerCharacter.cs) are not part of this model. Their crouch override and forced running are not modelled.
- The transform position the manager writes on join is returned as `placedAt`. The model does not store it in the character.
