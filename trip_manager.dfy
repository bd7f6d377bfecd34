/**
 * The `TripManager` widget: a list of trips with a status each, added from
 * a form, deleted by id and moved between statuses, with the total cost and
 * the cost of the booked trips.
 */
module TripManager {
  import opened Options
  import Folds

  datatype TripKind = Flight | Hotel | Car | Train

  datatype TripStatus = Planned | Booked | Completed

  datatype Trip = Trip(id: string, destination: string, purpose: string, cost: int, date: string, kind: TripKind, status: TripStatus)

  const DefaultPurpose := "Business Travel"

  /** The three trips the widget starts with. */
  const InitialTrips: seq<Trip> := [
    Trip("1", "Mumbai → Delhi", "Client Meeting", 8500, "2024-02-15", Flight, Booked),
    Trip("2", "Delhi Business Hotel", "2 nights accommodation", 6000, "2024-02-15", Hotel, Booked),
    Trip("3", "Bangalore → Chennai", "Product Launch", 12000, "2024-03-10", Flight, Planned)
  ]

  function IdOf(t: Trip): string { t.id }
  function CostOf(t: Trip): int { t.cost }
  function StatusOf(t: Trip): TripStatus { t.status }
  function SetStatus(t: Trip, status: TripStatus): Trip { t.(status := status) }

  /** `trips.reduce((sum, trip) => sum + trip.cost, 0)`. */
  function TotalCost(trips: seq<Trip>): int {
    Folds.Sum(trips, CostOf)
  }

  /** The same sum over the trips whose status is booked. */
  function BookedCost(trips: seq<Trip>): int {
    Folds.Sum(Folds.Only(trips, StatusOf, Booked), CostOf)
  }

  function WithoutTrip(trips: seq<Trip>, id: string): seq<Trip> {
    Folds.Without(trips, IdOf, id)
  }

  function WithId(trips: seq<Trip>, id: string): seq<Trip> {
    Folds.Only(trips, IdOf, id)
  }

  function WithStatus(trips: seq<Trip>, id: string, status: TripStatus): seq<Trip> {
    Folds.Update(trips, IdOf, id, SetStatus, status)
  }

  /** The trip `addTrip` builds: a missing purpose becomes "Business Travel", the status is planned. */
  function NewTrip(id: string, destination: string, purpose: string, cost: int, date: string, kind: TripKind): (t: Trip)
    ensures t.status == Planned && t.cost == cost && t.id == id
    ensures t.purpose == if purpose == [] then DefaultPurpose else purpose
  {
    Trip(id, destination, if purpose != [] then purpose else DefaultPurpose, cost, date, kind, Planned)
  }

  /** Whether `addTrip` accepts the form: destination, cost and date filled in; any cost is allowed. */
  predicate Accepts(destination: string, cost: Option<int>, date: string) {
    destination != [] && cost.Some? && date != []
  }

  /** The booked trips never cost more than all trips, when no cost is negative. */
  lemma BookedAtMostTotal(trips: seq<Trip>)
    requires forall i :: 0 <= i < |trips| ==> trips[i].cost >= 0
    ensures 0 <= BookedCost(trips) <= TotalCost(trips)
  {
    Folds.OnlySumAtMost(trips, StatusOf, Booked, CostOf);
    var b := Folds.Only(trips, StatusOf, Booked);
    forall i | 0 <= i < |b| ensures CostOf(b[i]) >= 0 {
      var j :| 0 <= j < |trips| && trips[j] == b[i];
    }
    Folds.SumNonNegative(b, CostOf);
  }

  /** A negative cost, which the form lets through, can make the total smaller than the booked cost. */
  lemma NegativeCostBreaksBound()
    ensures var trips := InitialTrips + [NewTrip("4", "Refund", "", -20000, "2024-04-01", Car)];
      TotalCost(trips) == 6500 && BookedCost(trips) == 14500
  {
    var t := NewTrip("4", "Refund", "", -20000, "2024-04-01", Car);
    var s := InitialTrips + [t];
    InitialTotals();
    TotalAfterAdd(InitialTrips, t);
    assert s[..|s| - 1] == InitialTrips;
    assert Folds.Only(s, StatusOf, Booked) == Folds.Only(InitialTrips, StatusOf, Booked);
  }

  /** The seed list totals 26500, of which 14500 is booked. */
  lemma InitialTotals()
    ensures TotalCost(InitialTrips) == 26500 && BookedCost(InitialTrips) == 14500
  {
    var s := InitialTrips;
    var s1, s2 := s[..1], s[..2];
    assert s2[..1] == s1 && s1[..0] == [] && s[..|s| - 1] == s2 && s2[..|s2| - 1] == s1 ;
    assert Folds.Sum(s1, CostOf) == 8500;
    assert Folds.Sum(s2, CostOf) == 14500;
    assert Folds.Sum(s, CostOf) == 26500;
    var b1 := Folds.Only(s1, StatusOf, Booked);
    assert b1 == [s[0]];
    var b2 := Folds.Only(s2, StatusOf, Booked);
    assert b2 == b1 + [s[1]];
    assert Folds.Only(s, StatusOf, Booked) == b2;
    assert b2[..1] == b1 && b1[..0] == [];
    assert Folds.Sum(b2, CostOf) == 14500;
  }

  /** Adding a trip raises the total by its cost. */
  lemma TotalAfterAdd(trips: seq<Trip>, t: Trip)
    ensures TotalCost(trips + [t]) == TotalCost(trips) + t.cost
  {
    Folds.SumAppend(trips, [t], CostOf);
    assert [t][..0] == [];
  }

  /**
   * Deleting by id removes every trip with that id, keeps every other trip,
   * and lowers the total by the costs of the removed trips.
   */
  lemma DeleteEffect(trips: seq<Trip>, id: string)
    ensures forall j :: 0 <= j < |WithoutTrip(trips, id)| ==> WithoutTrip(trips, id)[j].id != id
    ensures forall i :: 0 <= i < |trips| && trips[i].id != id ==> trips[i] in WithoutTrip(trips, id)
    ensures TotalCost(WithoutTrip(trips, id)) == TotalCost(trips) - TotalCost(WithId(trips, id))
  {
    Folds.WithoutMembers(trips, IdOf, id);
    Folds.SumSplit(trips, IdOf, id, CostOf);
  }

  /**
   * A status change, from any status to any status, rewrites only the status
   * of the matching trips: length, ids, costs and the total stay.
   */
  lemma StatusChangeKeepsTotal(trips: seq<Trip>, id: string, status: TripStatus)
    ensures |WithStatus(trips, id, status)| == |trips|
    ensures forall i :: 0 <= i < |trips| ==>
      var r := WithStatus(trips, id, status)[i];
      r == (if trips[i].id == id then trips[i].(status := status) else trips[i])
    ensures TotalCost(WithStatus(trips, id, status)) == TotalCost(trips)
  {
    Folds.SumUpdate(trips, IdOf, id, SetStatus, status, CostOf);
  }

  /** Adding an 8500 trip to an empty list gives a total of 8500; deleting it again gives 0. */
  lemma AddThenDelete()
    ensures var t := NewTrip("t", "Mumbai→Delhi", "", 8500, "2024-02-15", Flight);
      TotalCost([t]) == 8500 && WithoutTrip([t], "t") == [] && TotalCost(WithoutTrip([t], "t")) == 0
  {
    var t := NewTrip("t", "Mumbai→Delhi", "", 8500, "2024-02-15", Flight);
    assert [t][..0] == [];
  }

  /** The widget's `trips` field and its handlers. */
  class Manager {
    var trips: seq<Trip>

    constructor ()
      ensures trips == InitialTrips
    {
      trips := InitialTrips;
    }

    /**
     * `addTrip` with the form's fields: `cost` is the number in the cost field
     * (`None` when it is empty) and `id` stands for `Date.now().toString()`.
     */
    method AddTrip(destination: string, purpose: string, cost: Option<int>, date: string, kind: TripKind, id: string)
      modifies this
      ensures Accepts(destination, cost, date) ==>
        trips == old(trips) + [NewTrip(id, destination, purpose, cost.value, date, kind)]
      ensures !Accepts(destination, cost, date) ==> trips == old(trips)
    {
      if destination == [] || cost.None? || date == [] {
        return;
      }
      var trip := Trip(id, destination, if purpose != [] then purpose else DefaultPurpose, cost.value, date, kind, Planned);
      trips := trips + [trip];
    }

    method DeleteTrip(id: string)
      modifies this
      ensures trips == WithoutTrip(old(trips), id)
    {
      trips := WithoutTrip(trips, id);
    }

    method UpdateTripStatus(id: string, status: TripStatus)
      modifies this
      ensures trips == WithStatus(old(trips), id, status)
    {
      trips := WithStatus(trips, id, status);
    }

    function Total(): int
      reads this
    {
      TotalCost(trips)
    }

    function Booked(): int
      reads this
    {
      BookedCost(trips)
    }
  }
}
