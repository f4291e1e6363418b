/** The operator's half of the schedule pipeline: the engine's maps become a sorted rule list in
    the status of the TrafficSchedule resource. */
module TrafficSchedule {
  import opened Wrappers
  import Text
  import DecisionEngine

  /** Durations and instants are nanoseconds, as in Go's `time`. */
  const SECOND: int := 1_000_000_000
  const POLL_INTERVAL: int := 60 * SECOND

  datatype FlavourRule = FlavourRule(flavourName: string, weight: int, deadlineSec: int)

  /** `validUntil` is `None` for Go's zero time. */
  datatype Status = Status(
    flavourRules: seq<FlavourRule>, directWeight: int, queueWeight: int,
    consumptionEnabled: bool, validUntil: Option<int>)

  datatype Error = FetchFailed | UpdateFailed

  // ---------------------------------------------------------------- the rule list

  /** Go's map lookup: the zero value for a missing key. */
  function DeadlineFor(deadlines: map<string, int>, flavour: string): int {
    if flavour in deadlines then deadlines[flavour] else 0
  }

  ghost predicate NamesAscend(rules: seq<FlavourRule>) {
    forall i, j :: 0 <= i < j < |rules| ==> Text.Less(rules[i].flavourName, rules[j].flavourName)
  }

  /** The rule carries the flavour's weight and its deadline, 0 if it has none. */
  ghost predicate IsRuleOf(r: FlavourRule, weights: map<string, int>, deadlines: map<string, int>) {
    && r.flavourName in weights && r.weight == weights[r.flavourName]
    && (r.flavourName in deadlines ==> r.deadlineSec == deadlines[r.flavourName])
    && (r.flavourName !in deadlines ==> r.deadlineSec == 0)
  }

  ghost predicate HoldsRulesOf(rules: seq<FlavourRule>, weights: map<string, int>, deadlines: map<string, int>) {
    forall r :: r in rules <==> IsRuleOf(r, weights, deadlines)
  }

  ghost predicate IsRuleList(rules: seq<FlavourRule>, weights: map<string, int>, deadlines: map<string, int>) {
    NamesAscend(rules) && HoldsRulesOf(rules, weights, deadlines)
  }

  /** `sort.Slice` by name, for names that all differ. */
  function SortByName(rules: seq<FlavourRule>): (sorted: seq<FlavourRule>)
    requires forall i, j :: 0 <= i < j < |rules| ==> rules[i].flavourName != rules[j].flavourName
    ensures NamesAscend(sorted)
    ensures forall r :: r in sorted <==> r in rules
  {
    if rules == [] then []
    else
      assert forall r :: r in rules <==> r == rules[0] || r in rules[1..];
      var rest := SortByName(rules[1..]);
      assert forall i :: 0 <= i < |rest| ==> rest[i] in rules[1..];
      InsertByName(rules[0], rest)
  }

  function InsertByName(rule: FlavourRule, sorted: seq<FlavourRule>): (r: seq<FlavourRule>)
    requires NamesAscend(sorted)
    requires forall i :: 0 <= i < |sorted| ==> sorted[i].flavourName != rule.flavourName
    ensures NamesAscend(r)
    ensures forall x :: x in r <==> x == rule || x in sorted
  {
    if sorted == [] then [rule]
    else if Text.Less(rule.flavourName, sorted[0].flavourName) then
      InsertAtFront(rule, sorted);
      [rule] + sorted
    else
      Text.LessTotal(rule.flavourName, sorted[0].flavourName);
      var rest := InsertByName(rule, sorted[1..]);
      assert forall i :: 0 <= i < |rest| ==> rest[i] in rest;
      assert forall x :: x in sorted <==> x == sorted[0] || x in sorted[1..];
      [sorted[0]] + rest
  }

  lemma InsertAtFront(rule: FlavourRule, sorted: seq<FlavourRule>)
    requires sorted != [] && NamesAscend(sorted)
    requires Text.Less(rule.flavourName, sorted[0].flavourName)
    ensures NamesAscend([rule] + sorted)
  {
    forall j | 0 < j < |sorted|
      ensures Text.Less(rule.flavourName, sorted[j].flavourName)
    {
      Text.LessTransitive(rule.flavourName, sorted[0].flavourName, sorted[j].flavourName);
    }
  }

  /** The loop over the weight map visits the flavours in any order Go picks. */
  method BuildRules(weights: map<string, int>, deadlines: map<string, int>) returns (rules: seq<FlavourRule>)
    ensures IsRuleList(rules, weights, deadlines)
  {
    rules := [];
    var left := weights.Keys;
    while left != {}
      invariant left <= weights.Keys
      invariant forall i, j :: 0 <= i < j < |rules| ==> rules[i].flavourName != rules[j].flavourName
      invariant forall r :: r in rules <==> IsRuleOf(r, weights, deadlines) && r.flavourName !in left
      decreases |left|
    {
      var flavour :| flavour in left;
      left := left - {flavour};
      assert forall i :: 0 <= i < |rules| ==> rules[i] in rules;
      rules := rules + [FlavourRule(flavour, weights[flavour], DeadlineFor(deadlines, flavour))];
    }
    rules := SortByName(rules);
  }

  lemma SomeMember(rules: seq<FlavourRule>)
    ensures rules == [] || exists r :: r in rules
  {
    if rules != [] { assert rules[0] in rules; }
  }

  /** Main result: whatever order the map was walked in, there is one rule list. */
  lemma {:induction false} RuleListIsUnique(a: seq<FlavourRule>, b: seq<FlavourRule>)
    requires NamesAscend(a) && NamesAscend(b)
    requires forall r :: r in a <==> r in b
    ensures a == b
    decreases |a|
  {
    if a == [] {
      SomeMember(b);
    } else {
      assert a[0] in a;
      assert b != [];
      assert b[0] in b;
      SameFirst(a, b);
      assert forall r :: r in a[1..] <==> r in b[1..] by {
        TailMembers(a);
        TailMembers(b);
      }
      RuleListIsUnique(a[1..], b[1..]);
      assert a == [a[0]] + a[1..] && b == [b[0]] + b[1..];
    }
  }

  lemma SameFirst(a: seq<FlavourRule>, b: seq<FlavourRule>)
    requires NamesAscend(a) && NamesAscend(b) && a != [] && b != []
    requires a[0] in b && b[0] in a
    ensures a[0] == b[0]
  {
    if a[0] != b[0] {
      var i :| 0 <= i < |b| && b[i] == a[0];
      var j :| 0 <= j < |a| && a[j] == b[0];
      Text.LessTransitive(a[0].flavourName, b[0].flavourName, a[0].flavourName);
      Text.LessIrreflexive(a[0].flavourName);
    }
  }

  lemma TailMembers(a: seq<FlavourRule>)
    requires a != [] && NamesAscend(a)
    ensures forall r :: r in a[1..] <==> r in a && r != a[0]
  {
    forall j | 0 < j < |a| ensures a[j] != a[0] {
      Text.LessIrreflexive(a[0].flavourName);
    }
    forall r ensures r in a[1..] <==> r in a && r != a[0] {
      if r in a && r != a[0] {
        var j :| 0 <= j < |a| && a[j] == r;
        assert a[1..][j - 1] == r;
      }
    }
  }

  // ---------------------------------------------------------------- totals

  function RuleTotal(rules: seq<FlavourRule>): int {
    if rules == [] then 0 else rules[0].weight + RuleTotal(rules[1..])
  }

  /** The total of a weight map, added up in any order. */
  ghost function MapTotal(weights: map<string, int>): int
    decreases |weights|
  {
    if weights == map[] then 0
    else
      var f :| f in weights;
      weights[f] + MapTotal(weights - {f})
  }

  lemma {:induction false} MapTotalWithout(weights: map<string, int>, f: string)
    requires f in weights
    ensures MapTotal(weights) == weights[f] + MapTotal(weights - {f})
    decreases |weights|
  {
    var g :| g in weights && MapTotal(weights) == weights[g] + MapTotal(weights - {g});
    if g != f {
      MapTotalWithout(weights - {g}, f);
      MapTotalWithout(weights - {f}, g);
      assert weights - {g} - {f} == weights - {f} - {g};
    }
  }

  /** Without its first entry the list belongs to the map without that name. */
  lemma RestOfRuleList(rules: seq<FlavourRule>, weights: map<string, int>, deadlines: map<string, int>)
    requires IsRuleList(rules, weights, deadlines) && rules != []
    ensures rules[0].flavourName in weights && rules[0].weight == weights[rules[0].flavourName]
    ensures rules[0].deadlineSec == DeadlineFor(deadlines, rules[0].flavourName)
    ensures IsRuleList(rules[1..], weights - {rules[0].flavourName}, deadlines)
  {
    var first := rules[0];
    assert first in rules;
    TailMembers(rules);
    var rest := weights - {first.flavourName};
    forall r: FlavourRule
      ensures r in rules[1..] <==> IsRuleOf(r, rest, deadlines)
    {
      if r in rules && r.flavourName == first.flavourName { assert r == first; }
    }
  }

  lemma EmptyRuleList(weights: map<string, int>, deadlines: map<string, int>)
    requires IsRuleList([], weights, deadlines)
    ensures weights == map[]
  {
    assert forall f :: f in weights ==> FlavourRule(f, weights[f], DeadlineFor(deadlines, f)) in [];
  }

  /** The list carries the whole weight of the map. */
  lemma {:induction false} TotalIsConserved(rules: seq<FlavourRule>, weights: map<string, int>,
                                            deadlines: map<string, int>)
    requires IsRuleList(rules, weights, deadlines)
    ensures RuleTotal(rules) == MapTotal(weights)
    decreases |rules|
  {
    if rules == [] {
      EmptyRuleList(weights, deadlines);
    } else {
      RestOfRuleList(rules, weights, deadlines);
      TotalIsConserved(rules[1..], weights - {rules[0].flavourName}, deadlines);
      MapTotalWithout(weights, rules[0].flavourName);
    }
  }

  lemma DistributionTotal(weights: map<string, int>)
    requires DecisionEngine.Distribution(weights)
    ensures MapTotal(weights) == 100
  {
    var low, mid, high := DecisionEngine.LOW, DecisionEngine.MID, DecisionEngine.HIGH;
    DecisionEngine.FlavoursDiffer();
    MapTotalWithout(weights, low);
    MapTotalWithout(weights - {low}, mid);
    MapTotalWithout(weights - {low} - {mid}, high);
    assert weights - {low} - {mid} - {high} == map[];
  }

  // ---------------------------------------------------------------- the reconciler

  /** A status says what a schedule says; `validUntil` is the parsed text. */
  ghost predicate Reports(st: Status, remote: DecisionEngine.Schedule, validUntil: Option<int>) {
    && IsRuleList(st.flavourRules, remote.flavourWeights, remote.deadlines)
    && st.directWeight == remote.directWeight && st.queueWeight == remote.queueWeight
    && st.consumptionEnabled == remote.consumptionEnabled && st.validUntil == validUntil
  }

  lemma ReportIsUnique(a: Status, b: Status, remote: DecisionEngine.Schedule, validUntil: Option<int>)
    requires Reports(a, remote, validUntil) && Reports(b, remote, validUntil)
    ensures a == b
  {
    RuleListIsUnique(a.flavourRules, b.flavourRules);
  }

  /** A parsed instant, and whether parsing put it into local time: it does for an offset that is the
      local one, and not for `Z`. */
  datatype Time = Time(instant: int, local: bool)

  /** `reflect.DeepEqual` of the stored status and a new one. It also compares the location of a time,
      and a stored time has been decoded into local time. */
  predicate DeepEqual(stored: Status, report: Status, until: Option<Time>) {
    stored == report && (until.None? || until.value.local)
  }

  function InstantOf(until: Option<Time>): Option<int> {
    match until
    case None => None
    case Some(t) => Some(t.instant)
  }

  /** The TrafficSchedule resource as the reconciler sees it; `None` when it does not exist. */
  class Resource {
    var status: Option<Status>
    var writes: nat

    constructor (status: Option<Status>)
      ensures this.status == status && writes == 0
    {
      this.status := status;
      writes := 0;
    }

    /** One reconcile at instant `now`. `remote` is the engine's answer, `None` when the call or the
        decoding failed; `parse` stands for `time.Parse` with the RFC 3339 layout. */
    method Reconcile(remote: Option<DecisionEngine.Schedule>, parse: string -> Option<Time>, now: int,
                     updateFails: bool)
      returns (requeue: Result<Option<int>, Error>)
      modifies this
      ensures old(status).None? ==> requeue == Ok(None) && status == old(status) && writes == old(writes)
      ensures old(status).Some? && remote.None? ==>
        requeue == Err(FetchFailed) && status == old(status) && writes == old(writes)
      ensures old(status).Some? && remote.Some? ==>
        var parsed := parse(remote.value.validUntil);
        var until := InstantOf(parsed);
        var same := Reports(old(status).value, remote.value, until) && (parsed.None? || parsed.value.local);
        && status.Some?
        && (requeue.Ok? ==> Reports(status.value, remote.value, until))
        && (same ==>
              requeue.Ok? && status == old(status) && writes == old(writes))
        && (!same ==>
              if updateFails then requeue == Err(UpdateFailed) && status == old(status) && writes == old(writes)
              else requeue.Ok? && writes == old(writes) + 1)
        && (requeue.Ok? ==>
              && requeue.value.Some?
              && (until.None? ==> requeue.value.value == 60_000_000_000)
              && (until.Some? ==>
                    var left := until.value - now;
                    requeue.value.value ==
                      if left <= 0 then 1_000_000_000 else if left <= 60_000_000_000 then left else 60_000_000_000))
    {
      if status.None? {
        return Ok(None);
      }
      if remote.None? {
        return Err(FetchFailed);
      }
      var until := parse(remote.value.validUntil);
      var rules := BuildRules(remote.value.flavourWeights, remote.value.deadlines);
      var report := Status(rules, remote.value.directWeight, remote.value.queueWeight,
                           remote.value.consumptionEnabled, InstantOf(until));
      assert Reports(report, remote.value, InstantOf(until));
      if Reports(status.value, remote.value, InstantOf(until)) {
        ReportIsUnique(status.value, report, remote.value, InstantOf(until));
      }
      if !DeepEqual(status.value, report, until) {
        if updateFails {
          return Err(UpdateFailed);
        }
        status := Some(report);
        writes := writes + 1;
      }
      var next := POLL_INTERVAL;
      if report.validUntil.Some? {
        var left := report.validUntil.value - now;
        if left <= 0 {
          left := SECOND;
        }
        if left < next {
          next := left;
        }
      }
      requeue := Ok(Some(next));
    }
  }
}
