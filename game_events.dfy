/**
 * The messages the game's components raise on the global event bus
 * (Assets/Scripts/_Base/GameEvents.cs). A component's handler or coroutine
 * step returns the messages it raises, in order.
 */
module GameEvents {
  import opened GlobalData

  datatype Event =
    | GameStarted
    | GameOver
    | GoalAchieved(player: PlayerId, placed: int)
    | OnPlayerJoin(playerNumber: int, player: PlayerId)
    | LoadScene(scene: int)
    | PlayerSelectTextUpdated(text: string)
    | InstructionalTextUpdated(text: string)
    | ShowWinner(playerNumber: int)
      /** Not a bus message: the call that closes joining on the player-input manager, kept in order with the rest. */
    | DisableJoining
}
