/**
 * The three fixed behaviour categories and a record holding one value per
 * category. Both the scorer's result (`{"grammar": …, "friendliness": …,
 * "humor": …}`) and a user's running totals are such records.
 */
module Categories {

  datatype Category = Grammar | Friendliness | Humor

  /** The dictionary key the source uses for a category. */
  function Label(c: Category): string {
    match c
    case Grammar => "grammar"
    case Friendliness => "friendliness"
    case Humor => "humor"
  }

  /** One value per category; field order is the source's key order. */
  datatype ByCategory<T> = ByCategory(grammar: T, friendliness: T, humor: T) {

    function Get(c: Category): T {
      match c
      case Grammar => grammar
      case Friendliness => friendliness
      case Humor => humor
    }
  }

  /** Integer per category: normalised scores, increments or running totals. */
  type Scores = ByCategory<int>

  /** Category-wise sum, as the three `+=` lines apply it. */
  function Plus(a: Scores, b: Scores): (r: Scores)
    ensures forall c :: r.Get(c) == a.Get(c) + b.Get(c)
  {
    ByCategory(a.grammar + b.grammar, a.friendliness + b.friendliness, a.humor + b.humor)
  }
}
