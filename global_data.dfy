/** The game-wide enumerations (Assets/Scripts/_Base/GlobalData.cs). */
module GlobalData {
  import opened Wrappers

  /** The logical input actions a player's controller can be bound to. */
  datatype InputActions =
    | ActionOne | ActionTwo | ActionThree | ActionFour
    | ActionFive | ActionSix | ActionSeven | ActionEight
    | Move | Look | Start | Select

  /**
   * The four named player numbers. The game carries a player number as the
   * enumeration's underlying integer, because converting an integer to the
   * enumeration accepts any value; these are the values that have a name.
   */
  datatype PlayerNumbers = PlayerOne | PlayerTwo | PlayerThree | PlayerFour {
    function Value(): (n: int)
      ensures 1 <= n <= 4
    {
      match this
      case PlayerOne => 1
      case PlayerTwo => 2
      case PlayerThree => 3
      case PlayerFour => 4
    }
  }

  /** The named player number whose underlying value is `n`, if there is one. */
  function FromValue(n: int): (r: Option<PlayerNumbers>)
    ensures r.Some? <==> 1 <= n <= 4
    ensures r.Some? ==> r.value.Value() == n
  {
    if n == 1 then Some(PlayerOne)
    else if n == 2 then Some(PlayerTwo)
    else if n == 3 then Some(PlayerThree)
    else if n == 4 then Some(PlayerFour)
    else None
  }

  /** Converting a named player number to its value and back gives it again. */
  lemma FromValueOfValue(p: PlayerNumbers)
    ensures FromValue(p.Value()) == Some(p)
  {
    match p
    case PlayerOne =>
    case PlayerTwo =>
    case PlayerThree =>
    case PlayerFour =>
  }

  /** The identity of a player's transform: handlers compare these, never their contents. */
  type PlayerId = int
}
