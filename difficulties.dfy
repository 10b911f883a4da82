/** The fixed catalog of difficulty presets and the menu selector that picks one. */
module Difficulties {

  datatype Option<+T> = None | Some(value: T)

  /** The three presets; each fixes an inclusive guess range and an attempt budget. */
  datatype Difficulty = Easy | Medium | Hard
  {
    function LowerBound(): int {
      match this
      case Easy => 1
      case Medium => 1
      case Hard => 1
    }

    function UpperBound(): int {
      match this
      case Easy => 50
      case Medium => 100
      case Hard => 200
    }

    function NumberOfAttempts(): int {
      match this
      case Easy => 10
      case Medium => 10
      case Hard => 5
    }

    /** The number the difficulty menu shows next to this preset. */
    function Selector(): int {
      match this
      case Easy => 1
      case Medium => 2
      case Hard => 3
    }
  }

  /** Every preset has a non-empty range and a positive budget. */
  lemma PresetWellFormed(d: Difficulty)
    ensures d.LowerBound() <= d.UpperBound()
    ensures 0 < d.NumberOfAttempts()
  {
  }

  /** The constants of the catalog, one preset per line. */
  lemma CatalogValues()
    ensures (Easy.LowerBound(), Easy.UpperBound(), Easy.NumberOfAttempts()) == (1, 50, 10)
    ensures (Medium.LowerBound(), Medium.UpperBound(), Medium.NumberOfAttempts()) == (1, 100, 10)
    ensures (Hard.LowerBound(), Hard.UpperBound(), Hard.NumberOfAttempts()) == (1, 200, 5)
  {
  }

  /** The difficulty switch of the menu: 1, 2 and 3 pick a preset, any other integer picks none. */
  function Select(choice: int): (r: Option<Difficulty>)
    ensures r.Some? <==> 1 <= choice <= 3
    ensures r.Some? ==> r.value.Selector() == choice
  {
    match choice
    case 1 => Some(Easy)
    case 2 => Some(Medium)
    case 3 => Some(Hard)
    case _ => None
  }

  /** Selecting the number the menu shows for a preset gives back that preset. */
  lemma SelectorRoundTrip(d: Difficulty)
    ensures Select(d.Selector()) == Some(d)
  {
  }
}
