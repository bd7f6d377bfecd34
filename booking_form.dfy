/**
 * The price estimate of the booking forms: the number of nights between the
 * chosen dates, at least one charged, times a per-mode rate and the party
 * size. Dates are instants in milliseconds.
 */
module BookingForm {
  import opened Options

  datatype BookingMode = Flight | Hotel | Car | Train

  /** The form values the estimate reads; a field the form left empty is `None`. */
  datatype BookingValues = BookingValues(
    passengers: Option<int>, rooms: Option<int>, drivers: Option<int>,
    dateFrom: Option<int>, dateTo: Option<int>)

  /** `1000 * 60 * 60 * 24`. */
  const DayMs := 86400000

  /** `nightsBetween(from, to)`: 0 without both dates, else the whole days begun, rounded up. */
  function NightsBetween(from: Option<int>, to: Option<int>): (n: nat)
    ensures from.None? || to.None? ==> n == 0
    ensures from.Some? && to.Some? ==>
      var ms := to.value - from.value;
      && (n == 0 <==> ms <= 0)
      && (ms > 0 ==> (n - 1) * DayMs < ms <= n * DayMs)
  {
    if from.None? || to.None? then 0
    else
      var ms := if to.value - from.value >= 0 then to.value - from.value else 0;
      var n := (ms + DayMs - 1) / DayMs;
      assert ms + DayMs - 1 == DayMs * n + (ms + DayMs - 1) % DayMs;
      n
  }

  /** `nightsBetween(...) || 1`: at least one night is charged. */
  function ChargedNights(v: BookingValues): (n: nat)
    ensures n >= 1
    ensures NightsBetween(v.dateFrom, v.dateTo) > 0 ==> n == NightsBetween(v.dateFrom, v.dateTo)
  {
    var nights := NightsBetween(v.dateFrom, v.dateTo);
    if nights != 0 then nights else 1
  }

  /** The per-night rate of each mode. */
  function Rate(mode: BookingMode): (r: int)
    ensures r > 0
  {
    match mode
    case Flight => 200
    case Train => 80
    case Hotel => 150
    case Car => 70
  }

  /** The party-size field each mode multiplies: passengers, rooms or drivers. */
  function PartyField(mode: BookingMode, v: BookingValues): Option<int> {
    match mode
    case Flight => v.passengers
    case Train => v.passengers
    case Hotel => v.rooms
    case Car => v.drivers
  }

  /** `(field || 1)`: a missing or zero field counts as one. */
  function PartySize(field: Option<int>): (k: int)
    ensures field.None? || field.value == 0 ==> k == 1
    ensures field.Some? && field.value != 0 ==> k == field.value
  {
    if field.Some? && field.value != 0 then field.value else 1
  }

  /** `estimatePrice(mode, values)`, before the display conversion. */
  function EstimatePrice(mode: BookingMode, v: BookingValues): (p: int)
    ensures mode == Flight ==> p == 200 * PartySize(v.passengers) * ChargedNights(v)
    ensures mode == Train ==> p == 80 * PartySize(v.passengers) * ChargedNights(v)
    ensures mode == Hotel ==> p == 150 * PartySize(v.rooms) * ChargedNights(v)
    ensures mode == Car ==> p == 70 * PartySize(v.drivers) * ChargedNights(v)
  {
    var n := ChargedNights(v);
    Rate(mode) * PartySize(PartyField(mode, v)) * n
  }

  /** What the form's schema guarantees before it estimates: both dates and a party size of at least one. */
  predicate SchemaValid(mode: BookingMode, v: BookingValues) {
    v.dateFrom.Some? && v.dateTo.Some? && PartyField(mode, v).Some? && PartyField(mode, v).value >= 1
  }

  lemma MulPositive(a: int, b: int)
    requires a > 0 && b > 0
    ensures a * b > 0
  {
  }

  /** The estimate is positive unless the party field holds a negative number, which the schema rules out. */
  lemma EstimatePositive(mode: BookingMode, v: BookingValues)
    requires PartyField(mode, v).None? || PartyField(mode, v).value >= 0
    ensures EstimatePrice(mode, v) >= Rate(mode) > 0
  {
    var r, k, n := Rate(mode), PartySize(PartyField(mode, v)), ChargedNights(v);
    assert k >= 1;
    assert r * k >= r by {
      assert r * k == r + r * (k - 1);
      MulPositive(r, k);
    }
    assert r * k * n >= r * k by {
      assert r * k * n == r * k + r * k * (n - 1);
      if n > 1 {
        MulPositive(r * k, n - 1);
      }
    }
  }

  /** Every schema-valid form gets a positive estimate. */
  lemma SchemaValidEstimatePositive(mode: BookingMode, v: BookingValues)
    requires SchemaValid(mode, v)
    ensures EstimatePrice(mode, v) > 0
  {
    EstimatePositive(mode, v);
  }

  lemma ScaleMonotone(c: int, a: int, b: int)
    requires c >= 0 && a <= b
    ensures c * a <= c * b
  {
    assert c * b - c * a == c * (b - a);
    if b > a && c > 0 {
      MulPositive(c, b - a);
    }
  }

  /** A later return date never gives fewer nights. */
  lemma NightsMonotone(from: int, to: int, laterTo: int)
    requires to <= laterTo
    ensures NightsBetween(Some(from), Some(to)) <= NightsBetween(Some(from), Some(laterTo))
  {
  }

  /** A later return date never lowers the estimate. */
  lemma EstimateMonotone(mode: BookingMode, v: BookingValues, laterTo: int)
    requires v.dateFrom.Some? && v.dateTo.Some? && v.dateTo.value <= laterTo
    requires PartyField(mode, v).None? || PartyField(mode, v).value >= 0
    ensures EstimatePrice(mode, v) <= EstimatePrice(mode, v.(dateTo := Some(laterTo)))
  {
    var w := v.(dateTo := Some(laterTo));
    NightsMonotone(v.dateFrom.value, v.dateTo.value, laterTo);
    var c := Rate(mode) * PartySize(PartyField(mode, v));
    MulPositive(Rate(mode), PartySize(PartyField(mode, v)));
    ScaleMonotone(c, ChargedNights(v), ChargedNights(w));
  }

  /** A hotel stay of two rooms over three days is estimated at 900. */
  lemma HotelExample()
    ensures EstimatePrice(Hotel, BookingValues(None, Some(2), None, Some(0), Some(3 * DayMs))) == 900
  {
    var v := BookingValues(None, Some(2), None, Some(0), Some(3 * DayMs));
    assert NightsBetween(v.dateFrom, v.dateTo) == 3;
  }

  /** Without dates one night is charged, so a two-passenger flight is 400. */
  lemma MissingDatesChargeOneNight()
    ensures EstimatePrice(Flight, BookingValues(Some(2), None, None, None, None)) == 400
  {
  }
}
