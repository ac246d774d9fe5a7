/** The review step's summary (src/pages/Book.tsx lines 353-365): each
    selected id and the chosen frequency are looked up in their tables and
    shown by name; a failed lookup would show nothing (`undefined`). */
module Confirm {
  import opened Wrappers
  import opened Catalog
  import opened Wizard
  import opened Reachability

  /** `services.find(s => s.id === id)?.name` for each selected id. */
  function ServiceLabels(selected: seq<string>): (labels: seq<Option<string>>)
    ensures |labels| == |selected|
    ensures forall i :: 0 <= i < |selected| ==>
              (labels[i].Some? <==> selected[i] in ServiceIds())
    ensures forall i :: 0 <= i < |selected| && labels[i].Some? ==>
              exists k :: 0 <= k < |Services| && Services[k].id == selected[i]
                          && Services[k].name == labels[i].value
  {
    seq(|selected|, i requires 0 <= i < |selected| => Label(selected[i]))
  }

  /** The name shown for one selected id. */
  function Label(id: string): (r: Option<string>)
    ensures r.Some? <==> id in ServiceIds()
    ensures r.Some? ==> exists k :: 0 <= k < |Services| && Services[k].id == id
                                    && Services[k].name == r.value
  {
    ServiceIdsResolve(id);
    match Find(Services, ServiceId, id)
    case Some(s) => Some(s.name)
    case None => None
  }

  /** `frequencies.find(f => f.id === frequency)?.name`. */
  function FrequencyLabel(frequency: string): (r: Option<string>)
    ensures r.Some? <==> frequency in FrequencyIds()
    ensures r.Some? ==> exists k :: 0 <= k < |Frequencies| && Frequencies[k].id == frequency
                                    && Frequencies[k].name == r.value
  {
    FrequencyIdsResolve(frequency);
    match Find(Frequencies, FrequencyId, frequency)
    case Some(f) =>
      assert exists k :: 0 <= k < |Frequencies| && Frequencies[k] == f;
      Some(f.name)
    case None => None
  }

  /** Whenever the review step is on screen, every selected service and the
      chosen frequency resolve to a name: the summary never shows a blank
      where a choice was made, and it lists at least one service. */
  lemma ReviewShowsEveryName(events: seq<Event>)
    ensures var t := Run(Initial, events);
            t.step == 4 ==>
              && |ServiceLabels(t.selected)| > 0
              && (forall i :: 0 <= i < |t.selected| ==> ServiceLabels(t.selected)[i].Some?)
              && FrequencyLabel(t.frequency).Some?
  {
    InitialIsConsistent();
    RunKeepsConsistent(Initial, events);
  }
}
