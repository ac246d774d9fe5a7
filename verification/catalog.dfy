/** The constant tables the booking page offers: services, visit frequencies,
    time slots and payment choices (src/pages/Book.tsx lines 11-31, 393-412). */
module Catalog {
  import opened Wrappers

  /** One bookable service. The price is a display string such as "From $75",
      never a number the page computes with. */
  datatype Service = Service(id: string, name: string, price: string)

  /** One visit frequency offered at step 2. */
  datatype Frequency = Frequency(id: string, name: string, description: string, recommended: bool)

  const Services: seq<Service> := [
    Service("windows", "Window Cleaning", "From $75"),
    Service("pressure", "Pressure Washing", "From $150"),
    Service("roof", "Roof Washing", "From $200"),
    Service("gutters", "Gutter Cleaning", "From $100"),
    Service("snow", "Snow Removal", "From $75"),
    Service("checkins", "Property Check-ins", "From $50")
  ]

  const Frequencies: seq<Frequency> := [
    Frequency("once", "One-Time Service", "Single service visit", false),
    Frequency("monthly", "Monthly (Recommended)", "Best value, consistent care", true),
    Frequency("bimonthly", "Bi-Monthly", "Every other month", false),
    Frequency("quarterly", "Quarterly", "Every 3 months", false)
  ]

  const TimeSlots: seq<string> := [
    "Morning (8am - 12pm)",
    "Afternoon (12pm - 4pm)",
    "Flexible (Any time)"
  ]

  /** Values the preferred-time select can take: its empty placeholder option
      followed by one option per time slot. */
  const TimeOptions: seq<string> := [""] + TimeSlots

  /** The `value` attributes of the two payment radio buttons. */
  const PaymentOptions: seq<string> := ["online", "invoice"]

  /** The ids of the service cards, in table order: a string is a card id
      exactly when some service of the table carries it. */
  function ServiceIds(): (ids: seq<string>)
    ensures forall id :: id in ids <==> exists k :: 0 <= k < |Services| && Services[k].id == id
  {
    var ids := seq(|Services|, i requires 0 <= i < |Services| => Services[i].id);
    assert forall id :: id in ids ==> exists k :: 0 <= k < |Services| && Services[k].id == id by {
      forall id | id in ids
        ensures exists k :: 0 <= k < |Services| && Services[k].id == id
      {
        var k :| 0 <= k < |ids| && ids[k] == id;
        assert Services[k].id == id;
      }
    }
    assert forall k :: 0 <= k < |Services| ==> ids[k] == Services[k].id;
    ids
  }

  /** The ids of the frequency cards, in table order: a string is a card id
      exactly when some frequency of the table carries it. */
  function FrequencyIds(): (ids: seq<string>)
    ensures forall id :: id in ids <==> exists k :: 0 <= k < |Frequencies| && Frequencies[k].id == id
  {
    var ids := seq(|Frequencies|, i requires 0 <= i < |Frequencies| => Frequencies[i].id);
    assert forall id :: id in ids ==> exists k :: 0 <= k < |Frequencies| && Frequencies[k].id == id by {
      forall id | id in ids
        ensures exists k :: 0 <= k < |Frequencies| && Frequencies[k].id == id
      {
        var k :| 0 <= k < |ids| && ids[k] == id;
        assert Frequencies[k].id == id;
      }
    }
    assert forall k :: 0 <= k < |Frequencies| ==> ids[k] == Frequencies[k].id;
    ids
  }

  function ServiceId(s: Service): string { s.id }

  function FrequencyId(f: Frequency): string { f.id }

  /** `table.find(x => idOf(x) === id)`: the first entry whose id is `id`, or
      None (JavaScript's `undefined`) when there is none. The page uses it as
      `services.find` (line 354) and `frequencies.find` (line 365). */
  function Find<T>(table: seq<T>, idOf: T -> string, id: string): (r: Option<T>)
    ensures r.Some? <==> exists i :: 0 <= i < |table| && idOf(table[i]) == id
    ensures r.Some? ==> idOf(r.value) == id
    ensures r.Some? ==> exists i :: 0 <= i < |table| && table[i] == r.value
                                 && forall j :: 0 <= j < i ==> idOf(table[j]) != id
  {
    if |table| == 0 then None
    else if idOf(table[0]) == id then Some(table[0])
    else
      var r := Find(table[1..], idOf, id);
      assert r.Some? ==> exists i :: 1 <= i < |table| && table[i] == r.value
                                 && forall j :: 0 <= j < i ==> idOf(table[j]) != id by {
        if r.Some? {
          var k :| 0 <= k < |table[1..]| && table[1..][k] == r.value
                   && forall j :: 0 <= j < k ==> idOf(table[1..][j]) != id;
          assert table[k + 1] == r.value;
        }
      }
      r
  }

  /** Every id of the service table is a known id, so its lookup succeeds. */
  lemma ServiceIdsResolve(id: string)
    ensures id in ServiceIds() <==> Find(Services, ServiceId, id).Some?
  {
    if id in ServiceIds() {
      var k :| 0 <= k < |Services| && Services[k].id == id;
      assert ServiceId(Services[k]) == id;
    }
  }

  /** Every id of the frequency table resolves to its entry. */
  lemma FrequencyIdsResolve(id: string)
    ensures id in FrequencyIds() <==> Find(Frequencies, FrequencyId, id).Some?
  {
    if id in FrequencyIds() {
      var k :| 0 <= k < |Frequencies| && Frequencies[k].id == id;
      assert FrequencyId(Frequencies[k]) == id;
    }
  }

  /** No table id is the empty string, so a selected frequency is never
      mistaken for "no frequency yet", and every table id is distinct. */
  lemma TableIdsWellFormed()
    ensures "" !in FrequencyIds()
    ensures "" !in ServiceIds()
    ensures forall i, j :: 0 <= i < j < |Services| ==> Services[i].id != Services[j].id
    ensures forall i, j :: 0 <= i < j < |Frequencies| ==> Frequencies[i].id != Frequencies[j].id
  {
  }
}
