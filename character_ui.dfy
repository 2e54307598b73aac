/**
 * The text shown above a character with its placing at the end of a game
 * (Assets/Scripts/_Base/CharacterUI.cs).
 */
module Placing {
  import opened Wrappers
  import opened GlobalData
  import opened Text

  /** The text for a placing: places 1 to 4 have one, any other place has none. */
  function PlacingText(place: int): (r: Option<string>)
    ensures r.Some? <==> 1 <= place <= 4
    ensures place == 1 ==> r == Some("1ST")
    ensures place == 2 ==> r == Some("2ND")
    ensures place == 3 ==> r == Some("3RD")
    ensures place == 4 ==> r == Some("4TH")
  {
    if place == 1 then assert IntToString(place) == "1"; assert "1" + "ST" == "1ST"; Some(IntToString(place) + "ST")
    else if place == 2 then assert IntToString(place) == "2"; assert "2" + "ND" == "2ND"; Some(IntToString(place) + "ND")
    else if place == 3 then assert IntToString(place) == "3"; assert "3" + "RD" == "3RD"; Some(IntToString(place) + "RD")
    else if place == 4 then assert IntToString(place) == "4"; assert "4" + "TH" == "4TH"; Some(IntToString(place) + "TH")
    else None
  }

  /**
   * The text after a goal-achieved message reaches the UI of player `self`
   * that showed `text`: a message for nobody or for another player, or a place
   * with no text, leaves it as it was.
   */
  function TextAfterPlaced(text: string, self: PlayerId, player: Option<PlayerId>, place: int): string {
    if player == None || player.value != self then text
    else match PlacingText(place)
      case Some(t) => t
      case None => text
  }

  /** What a message does to the text, in every case. */
  lemma TextAfterPlacedCases(text: string, self: PlayerId, player: Option<PlayerId>, place: int)
    ensures player != Some(self) ==> TextAfterPlaced(text, self, player, place) == text
    ensures player == Some(self) && !(1 <= place <= 4) ==> TextAfterPlaced(text, self, player, place) == text
    ensures player == Some(self) && 1 <= place <= 4 ==>
      TextAfterPlaced(text, self, player, place) == IntToString(place) + ["ST", "ND", "RD", "TH"][place - 1]
  {
  }

  /** The text after a message depends only on the place, so the same message twice is the same as once. */
  lemma TextAfterPlacedIdempotent(text: string, self: PlayerId, player: Option<PlayerId>, place: int)
    ensures var once := TextAfterPlaced(text, self, player, place);
      TextAfterPlaced(once, self, player, place) == once
  {
  }

  class CharacterUI {
    /** The transform of the character this UI belongs to. */
    const self: PlayerId
    var placingText: string

    constructor (self: PlayerId, initialText: string)
      ensures this.self == self && placingText == initialText
    {
      this.self := self;
      placingText := initialText;
    }

    /** `Start`: clears the placing text. */
    method Start()
      modifies this
      ensures placingText == ""
    {
      placingText := "";
    }

    /** `Placed`: the handler of the goal-achieved message. */
    method Placed(player: Option<PlayerId>, place: int)
      modifies this
      ensures placingText == TextAfterPlaced(old(placingText), self, player, place)
    {
      if player == None || player.value != self {
        return;
      }
      var text := PlacingText(place);
      if text.Some? {
        placingText := text.value;
      }
    }
  }
}
