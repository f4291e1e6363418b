/** The cached schedule that the router and the consumer share. */
module ScheduleCache {
  import opened Wrappers
  import opened RequestPlan
  import TrafficSchedule

  /** The flag as the consumer reads it: present under its own key and zero, or else on. */
  predicate ConsumptionEnabled(doc: Document) {
    doc.consumption_enabled.GetOr(1) != 0
  }

  class Manager {
    var current: Document

    constructor ()
      ensures current == DEFAULT_SCHEDULE
    {
      current := DEFAULT_SCHEDULE;
    }

    /** `obj.get("status", {})` replaces the whole document, here and for each event of the watch. A
        failed read raises before that. */
    method LoadOnce(fetched: Option<Option<Document>>) returns (raised: bool)
      modifies this
      ensures raised <==> fetched.None?
      ensures current == if raised then old(current) else fetched.value.GetOr(EMPTY)
    {
      if fetched.None? {
        return true;
      }
      current := fetched.value.GetOr(EMPTY);
      raised := false;
    }
  }

  /** The resource promises to pause consumption when its flag is false. The code keeps that promise
      exactly for the resources that do not ask for a pause, because it looks under another key. */
  lemma PauseFlagIsHonouredOnlyWhenTrue(st: TrafficSchedule.Status)
    requires Servable(st)
    ensures ConsumptionEnabled(Serve(st))
    ensures ConsumptionEnabled(Serve(st)) == st.consumptionEnabled <==> st.consumptionEnabled
  {
  }

  /** Consumption pauses exactly for a document that holds 0 under the consumer's own key. */
  lemma PausesExactlyForZero(doc: Document)
    ensures !ConsumptionEnabled(doc) <==> doc.consumption_enabled == Some(0)
  {
  }
}
