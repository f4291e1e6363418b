/** How the router reads the cached schedule and plans one request. */
module RequestPlan {
  import opened Wrappers
  import Routing
  import TrafficSchedule
  import DecisionEngine

  /** A rule as it travels in the resource; a missing deadline is `None`. */
  datatype Rule = Rule(flavourName: string, weight: nat, deadlineSec: Option<int>)

  /** The keys of the cached document that the buffer service reads, plus the pause flag under the
      name the resource gives it, which it does not read. */
  datatype Document = Document(
    flavourRules: Option<seq<Rule>>, directWeight: Option<nat>, queueWeight: Option<nat>,
    consumption_enabled: Option<int>, consumptionEnabled: Option<bool>)

  const EMPTY := Document(None, None, None, None, None)

  /** `DEFAULT_SCHEDULE`: it has `flavourWeights` and `deadlines`, but no `flavourRules`. */
  const DEFAULT_SCHEDULE := Document(None, Some(80), Some(20), Some(1), None)

  const DEFAULT_DEADLINE := 60

  datatype Error = MissingKey | NothingToChoose

  datatype Plan = Plan(qType: Routing.QType, flavour: string, deadlineSec: int, expiration: int)

  // ---------------------------------------------------------------- the dict comprehensions

  /** Later entries for the same name win. */
  function Weights(rules: seq<Rule>): map<string, nat> {
    if rules == [] then map[]
    else map[rules[0].flavourName := rules[0].weight] + Weights(rules[1..])
  }

  function Deadlines(rules: seq<Rule>): map<string, int> {
    if rules == [] then map[]
    else map[rules[0].flavourName := rules[0].deadlineSec.GetOr(DEFAULT_DEADLINE)] + Deadlines(rules[1..])
  }

  /** In both maps a name stands for its last rule; a rule without a deadline means 60 seconds. */
  lemma {:induction false} LastRuleWins(rules: seq<Rule>, i: nat)
    requires i < |rules| && forall j :: i < j < |rules| ==> rules[j].flavourName != rules[i].flavourName
    ensures var f := rules[i].flavourName;
      && f in Weights(rules) && Weights(rules)[f] == rules[i].weight
      && f in Deadlines(rules)
      && Deadlines(rules)[f] == match rules[i].deadlineSec { case Some(d) => d case None => 60 }
    decreases |rules|
  {
    if i > 0 {
      LastRuleWins(rules[1..], i - 1);
    } else {
      NoRuleNoEntry(rules[1..], rules[0].flavourName);
    }
  }

  lemma {:induction false} NoRuleNoEntry(rules: seq<Rule>, f: string)
    requires forall j :: 0 <= j < |rules| ==> rules[j].flavourName != f
    ensures f !in Weights(rules) && f !in Deadlines(rules)
    decreases |rules|
  {
    if rules != [] {
      NoRuleNoEntry(rules[1..], f);
    }
  }

  function RulesOf(doc: Document): seq<Rule> {
    doc.flavourRules.GetOr([])
  }

  // ---------------------------------------------------------------- the plan

  predicate Choosable(weights: map<string, nat>) {
    exists k :: k in weights && weights[k] > 0
  }

  /** `weighted_choice`: some key of positive weight; `random.choices` raises when there is none. */
  method WeightedChoice(weights: map<string, nat>) returns (r: Option<string>)
    ensures r.Some? <==> Choosable(weights)
    ensures r.Some? ==> r.value in weights && weights[r.value] > 0
  {
    if k :| k in weights && weights[k] > 0 {
      return Some(k);
    }
    r := None;
  }

  /** An empty `x-carbonshift` header counts as absent. */
  predicate Forces(forced: Option<string>) {
    forced.Some? && forced.value != ""
  }

  /** When planning does not raise. */
  predicate CanPlan(doc: Document, urgent: bool, forced: Option<string>) {
    && (urgent || (doc.directWeight.Some? && doc.queueWeight.Some?
                   && doc.directWeight.value + doc.queueWeight.value > 0))
    && (Forces(forced) || Choosable(Weights(RulesOf(doc))))
  }

  method PlanRequest(doc: Document, urgent: bool, forced: Option<string>) returns (r: Result<Plan, Error>)
    ensures r.Ok? <==> CanPlan(doc, urgent, forced)
    ensures r.Ok? && urgent ==> r.value.qType == Routing.Direct
    ensures r.Ok? && !urgent && r.value.qType.Direct? ==> doc.directWeight.value > 0
    ensures r.Ok? && r.value.qType.Buffered? ==> doc.queueWeight.value > 0
    ensures r.Ok? && forced.Some? && forced.value != "" ==> r.value.flavour == forced.value
    ensures r.Ok? && (forced == None || forced == Some("")) ==>
      r.value.flavour in Weights(RulesOf(doc)) && Weights(RulesOf(doc))[r.value.flavour] > 0
    ensures r.Ok? ==>
      var deadlines := Deadlines(RulesOf(doc));
      r.value.deadlineSec == (if r.value.flavour in deadlines then deadlines[r.value.flavour] else DEFAULT_DEADLINE)
    ensures r.Ok? ==> r.value.expiration == r.value.deadlineSec * 1000
  {
    var weights, deadlines := Weights(RulesOf(doc)), Deadlines(RulesOf(doc));
    var qType := Routing.Direct;
    if !urgent {
      if doc.directWeight.None? || doc.queueWeight.None? {
        return Err(MissingKey);
      }
      assert "direct"[0] != "queue"[0];
      var choices := map["direct" := doc.directWeight.value, "queue" := doc.queueWeight.value];
      assert choices["direct"] == doc.directWeight.value && choices["queue"] == doc.queueWeight.value;
      var choice := WeightedChoice(choices);
      if choice.None? {
        return Err(NothingToChoose);
      }
      qType := if choice.value == "direct" then Routing.Direct else Routing.Buffered;
    }
    var flavour: string;
    if Forces(forced) {
      flavour := forced.value;
    } else {
      var choice := WeightedChoice(weights);
      if choice.None? {
        return Err(NothingToChoose);
      }
      flavour := choice.value;
    }
    var deadline := if flavour in deadlines then deadlines[flavour] else DEFAULT_DEADLINE;
    r := Ok(Plan(qType, flavour, deadline, deadline * 1000));
  }

  /** Before a schedule is loaded the fallback serves a request exactly when its flavour is forced. */
  lemma FallbackNeedsForcedFlavour(urgent: bool, forced: Option<string>)
    ensures CanPlan(DEFAULT_SCHEDULE, urgent, forced) <==> forced.Some? && forced.value != ""
    ensures CanPlan(EMPTY, urgent, forced) <==> urgent && forced.Some? && forced.value != ""
  {
    assert Weights([]) == map[];
  }

  // ---------------------------------------------------------------- from the resource to the maps

  /** No weight is negative, as `random.choices` expects. */
  predicate Servable(st: TrafficSchedule.Status) {
    && (forall i :: 0 <= i < |st.flavourRules| ==> st.flavourRules[i].weight >= 0)
    && st.directWeight >= 0 && st.queueWeight >= 0
  }

  /** The status document as the API server serves it to the buffer service. */
  function Serve(st: TrafficSchedule.Status): Document
    requires Servable(st)
  {
    Document(Some(ServeRules(st.flavourRules)), Some(st.directWeight), Some(st.queueWeight),
             None, Some(st.consumptionEnabled))
  }

  function ServeRules(rules: seq<TrafficSchedule.FlavourRule>): seq<Rule>
    requires forall i :: 0 <= i < |rules| ==> rules[i].weight >= 0
  {
    if rules == [] then []
    else [Rule(rules[0].flavourName, rules[0].weight, Some(rules[0].deadlineSec))] + ServeRules(rules[1..])
  }

  lemma {:induction false} ComprehensionsInvertRuleList(rules: seq<TrafficSchedule.FlavourRule>,
                                                       weights: map<string, int>, deadlines: map<string, int>)
    requires TrafficSchedule.IsRuleList(rules, weights, deadlines)
    requires forall i :: 0 <= i < |rules| ==> rules[i].weight >= 0
    ensures Weights(ServeRules(rules)) == weights
    ensures Deadlines(ServeRules(rules)) == map f | f in weights :: TrafficSchedule.DeadlineFor(deadlines, f)
    decreases |rules|
  {
    if rules == [] {
      TrafficSchedule.EmptyRuleList(weights, deadlines);
    } else {
      TrafficSchedule.RestOfRuleList(rules, weights, deadlines);
      ComprehensionsInvertRuleList(rules[1..], weights - {rules[0].flavourName}, deadlines);
      PrependRule(rules[0], ServeRules(rules[1..]), weights, deadlines);
    }
  }

  lemma PrependRule(rule: TrafficSchedule.FlavourRule, rest: seq<Rule>, weights: map<string, int>,
                    deadlines: map<string, int>)
    requires rule.flavourName in weights && rule.weight == weights[rule.flavourName] && rule.weight >= 0
    requires rule.deadlineSec == TrafficSchedule.DeadlineFor(deadlines, rule.flavourName)
    requires Weights(rest) == weights - {rule.flavourName}
    requires Deadlines(rest)
      == map f | f in weights - {rule.flavourName} :: TrafficSchedule.DeadlineFor(deadlines, f)
    ensures var rules := [Rule(rule.flavourName, rule.weight, Some(rule.deadlineSec))] + rest;
      && Weights(rules) == weights
      && Deadlines(rules) == map f | f in weights :: TrafficSchedule.DeadlineFor(deadlines, f)
  {
    var rules := [Rule(rule.flavourName, rule.weight, Some(rule.deadlineSec))] + rest;
    assert rules[1..] == rest;
    hide TrafficSchedule.DeadlineFor;
  }

  /** Main result: through rule list and comprehensions the router gets back the engine's weights,
      and for each weighted flavour its deadline, 0 where the engine gave none. */
  lemma PipelineRoundTrip(st: TrafficSchedule.Status, remote: DecisionEngine.Schedule, validUntil: Option<int>)
    requires TrafficSchedule.Reports(st, remote, validUntil) && Servable(st)
    ensures Weights(RulesOf(Serve(st))) == remote.flavourWeights
    ensures Deadlines(RulesOf(Serve(st)))
      == map f | f in remote.flavourWeights :: if f in remote.deadlines then remote.deadlines[f] else 0
    ensures Serve(st).directWeight == Some(remote.directWeight) && Serve(st).queueWeight == Some(remote.queueWeight)
    ensures TrafficSchedule.RuleTotal(st.flavourRules) == TrafficSchedule.MapTotal(remote.flavourWeights)
  {
    ComprehensionsInvertRuleList(st.flavourRules, remote.flavourWeights, remote.deadlines);
    TrafficSchedule.TotalIsConserved(st.flavourRules, remote.flavourWeights, remote.deadlines);
  }

  lemma ReportsAreServable(st: TrafficSchedule.Status, remote: DecisionEngine.Schedule, validUntil: Option<int>)
    requires TrafficSchedule.Reports(st, remote, validUntil)
    requires forall f :: f in remote.flavourWeights ==> remote.flavourWeights[f] >= 0
    requires remote.directWeight >= 0 && remote.queueWeight >= 0
    ensures Servable(st)
  {
    assert forall i :: 0 <= i < |st.flavourRules| ==> st.flavourRules[i] in st.flavourRules;
  }

  /** With an engine schedule loaded every request can be planned, an unforced one for a flavour
      that has a queue, and the rule weights total 100. */
  lemma EngineScheduleServesEveryRequest(st: TrafficSchedule.Status, remote: DecisionEngine.Schedule,
                                         validUntil: Option<int>, urgent: bool, forced: Option<string>)
    requires TrafficSchedule.Reports(st, remote, validUntil)
    requires DecisionEngine.Distribution(remote.flavourWeights)
    requires remote.directWeight >= 0 && remote.queueWeight >= 0 && remote.directWeight + remote.queueWeight == 100
    ensures Servable(st) && CanPlan(Serve(st), urgent, forced)
    ensures forall f :: f in Weights(RulesOf(Serve(st))) ==> Routing.ParseFlavour(f).Some?
    ensures TrafficSchedule.RuleTotal(st.flavourRules) == 100
  {
    ReportsAreServable(st, remote, validUntil);
    PipelineRoundTrip(st, remote, validUntil);
    TrafficSchedule.DistributionTotal(remote.flavourWeights);
    DistributionIsChoosable(remote.flavourWeights);
  }

  lemma DistributionIsChoosable(w: map<string, int>)
    requires DecisionEngine.Distribution(w)
    ensures exists k :: k in w && w[k] > 0
    ensures forall f :: f in w ==> Routing.ParseFlavour(f).Some?
  {
    assert w[DecisionEngine.LOW] > 0 || w[DecisionEngine.MID] > 0 || w[DecisionEngine.HIGH] > 0;
    assert Routing.FlavourName(Routing.Low) == DecisionEngine.LOW;
    assert Routing.FlavourName(Routing.Mid) == DecisionEngine.MID;
    assert Routing.FlavourName(Routing.High) == DecisionEngine.HIGH;
  }
}
