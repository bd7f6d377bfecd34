/**
 * The `OptimizeBudgets` panel of the Optimize tab: a total budget and a list
 * of trips whose costs make up the spending. Remaining is clamped at zero and
 * the share used picks the suggestion list.
 */
module OptimizeBudgets {
  import opened Options
  import Rounding
  import Folds
  import Text

  /** A trip of the list; the map coordinates are not modelled. */
  datatype Trip = Trip(id: int, title: string, cost: int, date: string)

  /** Which list of smart suggestions is shown. */
  datatype Suggestions = HighSpend | LowSpend

  const InitialBudget := 150000
  const SeedTitle := "Bengaluru → Mumbai"
  const SeedCost := 7000

  function IdOf(t: Trip): int { t.id }
  function CostOf(t: Trip): int { t.cost }
  function SetTitle(t: Trip, title: string): Trip { t.(title := title) }

  /** `trips.reduce((s, t) => s + Number(t.cost || 0), 0)`. */
  function Spent(trips: seq<Trip>): int {
    Folds.Sum(trips, CostOf)
  }

  function Max(a: int, b: int): int { if a >= b then a else b }

  /** `Math.max(0, budget - spent)`. */
  function Remaining(budget: int, spent: int): (r: int)
    ensures r >= 0 && r >= budget - spent
    ensures spent <= budget ==> r == budget - spent
    ensures spent >= budget ==> r == 0
  {
    Max(0, budget - spent)
  }

  /** `Math.round(spent / Math.max(1, budget) * 100)`: defined for every budget. */
  function UsagePercent(spent: int, budget: int): (p: int)
    ensures var w := Max(1, budget); 2 * w * p - w <= 200 * spent < 2 * w * p + w
  {
    Rounding.RoundPercent(spent, Max(1, budget))
  }

  function SuggestionsFor(pct: int): Suggestions {
    if pct >= 80 then HighSpend else LowSpend
  }

  /** The high-spend suggestions show exactly from 79.5% of the budget spent. */
  lemma HighSpendThreshold(spent: int, budget: int)
    requires budget > 0
    ensures SuggestionsFor(UsagePercent(spent, budget)) == HighSpend <==> 200 * spent >= 159 * budget
  {
    Rounding.RoundPercentAtLeast(spent, budget, 80);
  }

  /** `trips.filter(t => t.id !== id)`. */
  function WithoutTrip(trips: seq<Trip>, id: int): seq<Trip> {
    Folds.Without(trips, IdOf, id)
  }

  /** `trips.map(x => x.id === id ? { ...x, title } : x)`. */
  function Retitled(trips: seq<Trip>, id: int, title: string): seq<Trip> {
    Folds.Update(trips, IdOf, id, SetTitle, title)
  }

  /** The trips whose id is `id`. */
  function WithId(trips: seq<Trip>, id: int): seq<Trip> {
    Folds.Only(trips, IdOf, id)
  }

  /** Whether `addTrip` accepts the form: a title and a cost above zero. */
  predicate Accepts(title: string, cost: Option<int>) {
    title != [] && cost.Some? && cost.value > 0
  }

  /** An accepted trip adds exactly its cost to the spending. */
  lemma SpentAfterAdd(trips: seq<Trip>, t: Trip)
    ensures Spent(trips + [t]) == Spent(trips) + t.cost
  {
    Folds.SumAppend(trips, [t], CostOf);
    assert [t][..0] == [];
  }

  /**
   * Deleting by id removes every trip with that id, keeps every other trip,
   * and lowers the spending by the costs of the removed trips.
   */
  lemma DeleteEffect(trips: seq<Trip>, id: int)
    ensures forall j :: 0 <= j < |WithoutTrip(trips, id)| ==> WithoutTrip(trips, id)[j].id != id
    ensures forall i :: 0 <= i < |trips| && trips[i].id != id ==> trips[i] in WithoutTrip(trips, id)
    ensures Spent(WithoutTrip(trips, id)) == Spent(trips) - Spent(WithId(trips, id))
  {
    Folds.WithoutMembers(trips, IdOf, id);
    Folds.SumSplit(trips, IdOf, id, CostOf);
  }

  /** Deleting keeps the order of the remaining trips: it distributes over any split of the list. */
  lemma DeleteKeepsOrder(front: seq<Trip>, back: seq<Trip>, id: int)
    ensures WithoutTrip(front + back, id) == WithoutTrip(front, id) + WithoutTrip(back, id)
  {
    Folds.WithoutAppend(front, back, IdOf, id);
  }

  /** Deleting an id no trip has leaves the list as it was. */
  lemma DeleteAbsent(trips: seq<Trip>, id: int)
    requires forall i :: 0 <= i < |trips| ==> trips[i].id != id
    ensures WithoutTrip(trips, id) == trips
  {
    Folds.WithoutNoMatch(trips, IdOf, id);
  }

  /** A title edit touches only titles: ids, costs and so the spending stay. */
  lemma RetitleKeepsCosts(trips: seq<Trip>, id: int, title: string)
    ensures |Retitled(trips, id, title)| == |trips|
    ensures forall i :: 0 <= i < |trips| ==>
      Retitled(trips, id, title)[i] == if trips[i].id == id then trips[i].(title := title) else trips[i]
    ensures Spent(Retitled(trips, id, title)) == Spent(trips)
  {
    Folds.SumUpdate(trips, IdOf, id, SetTitle, title, CostOf);
  }

  /**
   * The form check runs on the untrimmed title, so a title of blanks passes it
   * and the trip is stored with an empty title.
   */
  lemma BlankTitleStoredEmpty()
    ensures Accepts("  ", Some(500)) && Text.Trim("  ") == []
  {
  }

  /** The panel's state: the `budget` and `trips` fields and their handlers. */
  class Panel {
    var budget: int
    var trips: seq<Trip>

    ghost predicate Valid()
      reads this
    {
      budget > 0
    }

    /** The seed trip takes the mount time as id and the current day as date. */
    constructor (seedId: int, today: string)
      ensures Valid() && budget == InitialBudget
      ensures trips == [Trip(seedId, SeedTitle, SeedCost, today)]
    {
      budget := InitialBudget;
      trips := [Trip(seedId, SeedTitle, SeedCost, today)];
    }

    /**
     * `addTrip`: `cost` is the number in the cost field (`None` when it is
     * empty); `id` and `today` stand for `Date.now()` and the current date.
     */
    method AddTrip(title: string, cost: Option<int>, id: int, today: string)
      requires Valid()
      modifies this
      ensures Valid() && budget == old(budget)
      ensures Accepts(title, cost) ==> trips == old(trips) + [Trip(id, Text.Trim(title), cost.value, today)]
      ensures !Accepts(title, cost) ==> trips == old(trips)
    {
      if title == [] || cost.None? || cost.value <= 0 {
        return;
      }
      trips := trips + [Trip(id, Text.Trim(title), cost.value, today)];
    }

    method DeleteTrip(id: int)
      requires Valid()
      modifies this
      ensures Valid() && budget == old(budget)
      ensures trips == WithoutTrip(old(trips), id)
    {
      trips := WithoutTrip(trips, id);
    }

    /** The edit button: `reply` is the prompt's answer, `None` when it was dismissed. */
    method EditTitle(id: int, reply: Option<string>)
      requires Valid()
      modifies this
      ensures Valid() && budget == old(budget)
      ensures reply.Some? && reply.value != [] ==> trips == Retitled(old(trips), id, reply.value)
      ensures !(reply.Some? && reply.value != []) ==> trips == old(trips)
    {
      if reply.Some? && reply.value != [] {
        trips := Retitled(trips, id, reply.value);
      }
    }

    /** `updateBudget`: `reply` is `Number(answer)`, `None` when that is NaN. */
    method UpdateBudget(reply: Option<int>)
      requires Valid()
      modifies this
      ensures Valid() && trips == old(trips)
      ensures budget == if reply.Some? && reply.value > 0 then reply.value else old(budget)
    {
      if reply.Some? && reply.value > 0 {
        budget := reply.value;
      }
    }

    function SpentNow(): int
      reads this
    {
      Spent(trips)
    }

    function RemainingNow(): int
      reads this
    {
      Remaining(budget, Spent(trips))
    }

    function PercentNow(): int
      reads this
    {
      UsagePercent(Spent(trips), budget)
    }
  }
}
