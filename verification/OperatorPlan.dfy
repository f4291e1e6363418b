/** What the operator wants to find in the cluster for one service, and how far a world is from it. */
module OperatorPlan {
  import opened Wrappers
  import opened Routing
  import opened OperatorNames
  import opened ApiServer
  import Text

  // ---------------------------------------------------------------- configuration

  datatype Autoscaling = Autoscaling(min: Option<int>, max: Option<int>, cooldown: Option<int>, cpu: Option<int>)

  datatype ComponentConfig = ComponentConfig(autoscaling: Autoscaling, resources: string, debug: bool)

  datatype Config = Config(target: Autoscaling, router: ComponentConfig, consumer: ComponentConfig)

  /** The operator dereferences all three utilizations. */
  predicate CpuSet(config: Config) {
    config.target.cpu.Some? && config.router.autoscaling.cpu.Some? && config.consumer.autoscaling.cpu.Some?
  }

  // ---------------------------------------------------------------- wanted objects

  datatype Want = Want(key: Key, spec: Spec, labels: Labels)

  function Selector(c: Component): Labels {
    map["app.kubernetes.io/name" := PREFIX + ComponentName(c), "app.kubernetes.io/instance" := "carbonshift"]
  }

  function ObjectLabels(s: ServiceId, c: Component): Labels {
    map["app.kubernetes.io/name" := PREFIX + ComponentName(c),
        "app.kubernetes.io/instance" := "carbonshift",
        "app.kubernetes.io/component" := ComponentName(c),
        "app.kubernetes.io/part-of" := "carbonshift",
        "carbonshift/parent-service" := s.name,
        "app.kubernetes.io/managed-by" := "carbonshift-operator"]
  }

  function PodLabels(s: ServiceId, c: Component): Labels {
    if c == ConsumerComponent then ObjectLabels(s, c)["istio.io/rev" := "default"] else ObjectLabels(s, c)
  }

  function Host(s: ServiceId): string {
    s.name + "." + s.ns + ".svc.cluster.local"
  }

  function AccountWant(s: ServiceId): (w: Want)
    ensures w.key.kind == ServiceAccount && Fits(ServiceAccount, w.spec)
  {
    Want(Key(ServiceAccount, s.ns, AccountName(s.name)), AccountSpec, map[])
  }

  function BindingWant(s: ServiceId): (w: Want)
    ensures w.key.kind == ClusterRoleBinding && Fits(ClusterRoleBinding, w.spec)
  {
    Want(Key(ClusterRoleBinding, "", BindingName(s.name)), BindingSpec(AccountName(s.name), s.ns), map[])
  }

  function DeploymentWant(s: ServiceId, c: Component, config: ComponentConfig): (w: Want)
    ensures w.key.kind == Deployment && Fits(Deployment, w.spec)
  {
    Want(Key(Deployment, s.ns, BufferName(c, s.name)),
         DeploymentSpec(Some(1), Selector(c),
           Template(c, PodLabels(s, c), AccountName(s.name), s.name, config.debug, config.resources)),
         ObjectLabels(s, c))
  }

  function ServiceWant(s: ServiceId, c: Component): (w: Want)
    ensures w.key.kind == Service && Fits(Service, w.spec)
  {
    Want(Key(Service, s.ns, BufferName(c, s.name)),
         ServiceSpec("", Selector(c), if c == RouterComponent then [8000, 8001] else [8001]),
         ObjectLabels(s, c))
  }

  function Scaled(target: string, a: Autoscaling, triggers: seq<Trigger>): Spec {
    ScaledSpec(target, a.cooldown, a.min, a.max, triggers)
  }

  function RouterScaledWant(s: ServiceId, a: Autoscaling): (w: Want)
    requires a.cpu.Some?
    ensures w.key.kind == ScaledObject && Fits(ScaledObject, w.spec)
  {
    var name := BufferName(RouterComponent, s.name);
    Want(Key(ScaledObject, s.ns, name), Scaled(name, a, [Cpu(a.cpu.value)]), map[])
  }

  function ConsumerScaledWant(s: ServiceId, a: Autoscaling): (w: Want)
    requires a.cpu.Some?
    ensures w.key.kind == ScaledObject && Fits(ScaledObject, w.spec)
  {
    var name := BufferName(ConsumerComponent, s.name);
    Want(Key(ScaledObject, s.ns, name),
         Scaled(name, a,
           [QueueLength(TriggerName(s.ns, s.name, QueueId(Direct, Low))),
            QueueLength(TriggerName(s.ns, s.name, QueueId(Direct, Mid))),
            QueueLength(TriggerName(s.ns, s.name, QueueId(Direct, High))),
            Cpu(a.cpu.value), Activity, AnyBacklog(s.ns, s.name)]),
         map[])
  }

  function FlavourScaledWant(s: ServiceId, f: Flavour, a: Autoscaling): (w: Want)
    requires a.cpu.Some?
    ensures w.key.kind == ScaledObject && Fits(ScaledObject, w.spec)
  {
    var name := FlavourObjectName(s.name, f);
    Want(Key(ScaledObject, s.ns, name),
         Scaled(name, a,
           [Backlog(TriggerName(s.ns, s.name, QueueId(Buffered, f))),
            QueueLength(TriggerName(s.ns, s.name, QueueId(Direct, f))),
            Cpu(a.cpu.value)]),
         map[])
  }

  function RuleWant(s: ServiceId): (w: Want)
    ensures w.key.kind == DestinationRule && Fits(DestinationRule, w.spec)
  {
    Want(Key(DestinationRule, s.ns, DestinationRuleName(s.name)),
         RuleSpec(Host(s), [Subset("high-power", "high"), Subset("mid-power", "mid"), Subset("low-power", "low")]),
         map[])
  }

  function RoutesWant(s: ServiceId): (w: Want)
    ensures w.key.kind == VirtualService && Fits(VirtualService, w.spec)
  {
    Want(Key(VirtualService, s.ns, VirtualServiceName(s.name)),
         RoutesSpec(Host(s), [HeaderRoute("high-power", "high-power"), HeaderRoute("mid-power", "mid-power"),
                              HeaderRoute("low-power", "low-power")]),
         map[])
  }

  /** In the order `Reconcile` ensures them. */
  function Plan(s: ServiceId, config: Config): (plan: seq<Want>)
    requires CpuSet(config)
    ensures |plan| == 13
  {
    [AccountWant(s), BindingWant(s),
     DeploymentWant(s, RouterComponent, config.router), ServiceWant(s, RouterComponent),
     DeploymentWant(s, ConsumerComponent, config.consumer), ServiceWant(s, ConsumerComponent),
     RouterScaledWant(s, config.router.autoscaling), ConsumerScaledWant(s, config.consumer.autoscaling),
     FlavourScaledWant(s, High, config.target), FlavourScaledWant(s, Mid, config.target),
     FlavourScaledWant(s, Low, config.target), RuleWant(s), RoutesWant(s)]
  }

  // ---------------------------------------------------------------- what the plan is good for

  lemma PlanIsManaged(s: ServiceId, config: Config)
    requires CpuSet(config)
    ensures forall i :: 0 <= i < 13 ==> Plan(s, config)[i].key == ManagedKeys(s)[i]
    ensures DistinctKeys(Plan(s, config))
  {
    hide BufferName;
    hide FlavourObjectName;
    hide AccountName;
    hide BindingName;
    hide DestinationRuleName;
    hide VirtualServiceName;
    hide TriggerName;
    hide ObjectLabels;
    hide Selector;
    ManagedKeysDistinct(s);
  }

  lemma PlanIsDistinct(s: ServiceId, config: Config)
    requires CpuSet(config)
    ensures DistinctKeys(Plan(s, config))
  {
    PlanIsManaged(s, config);
  }

  /** The plan entry by entry. */
  lemma PlanParts(s: ServiceId, config: Config)
    requires CpuSet(config)
    ensures var plan := Plan(s, config);
      && plan[0] == AccountWant(s) && plan[1] == BindingWant(s)
      && plan[2] == DeploymentWant(s, RouterComponent, config.router) && plan[3] == ServiceWant(s, RouterComponent)
      && plan[4] == DeploymentWant(s, ConsumerComponent, config.consumer)
      && plan[5] == ServiceWant(s, ConsumerComponent)
      && plan[6] == RouterScaledWant(s, config.router.autoscaling)
      && plan[7] == ConsumerScaledWant(s, config.consumer.autoscaling)
      && plan[8] == FlavourScaledWant(s, High, config.target) && plan[9] == FlavourScaledWant(s, Mid, config.target)
      && plan[10] == FlavourScaledWant(s, Low, config.target) && plan[11] == RuleWant(s) && plan[12] == RoutesWant(s)
  {
    hide AccountWant;
    hide BindingWant;
    hide DeploymentWant;
    hide ServiceWant;
    hide RouterScaledWant;
    hide ConsumerScaledWant;
    hide FlavourScaledWant;
    hide RuleWant;
    hide RoutesWant;
  }

  ghost predicate RoutedTo(routes: Spec, rule: Spec, header: string, subset: Subset)
    requires routes.RoutesSpec? && rule.RuleSpec?
  {
    routes.host == rule.host && HeaderRoute(header, subset.name) in routes.routes && subset in rule.subsets
  }

  /** Every request that names a flavour is routed to a subset the destination rule declares, that of the
      flavour's own level. */
  lemma RoutesHitDeclaredSubsets(s: ServiceId, f: Flavour)
    ensures exists d ::
      && RoutedTo(RoutesWant(s).spec, RuleWant(s).spec, FlavourName(f), d)
      && d.name == FlavourName(f) && d.level + "-power" == FlavourName(f)
  {
    var i := match f case High => 0 case Mid => 1 case Low => 2;
    var routes, rule := RoutesWant(s).spec, RuleWant(s).spec;
    assert routes.routes[i] == HeaderRoute(FlavourName(f), rule.subsets[i].name);
    assert RoutedTo(routes, rule, FlavourName(f), rule.subsets[i]);
    assert rule.subsets[i].level + "-power" == FlavourName(f);
  }

  /** A trigger of a wanted scaled object watches the queue: a direct one by its length, a pausable one
      by its backlog while consumption is on. */
  ghost predicate Watches(want: Want, queueName: string, qType: QType) {
    && want.spec.ScaledSpec?
    && (if qType.Direct? then QueueLength(queueName) else Backlog(queueName)) in want.spec.triggers
  }

  /** With lower-case names, as Kubernetes has them, some trigger watches each queue the consumer declares. */
  lemma EveryQueueIsWatched(s: ServiceId, config: Config, q: QueueId)
    requires CpuSet(config) && Text.IsLower(s.ns) && Text.IsLower(s.name)
    ensures exists want :: want in Plan(s, config) && Watches(want, DeclaredName(s.ns, s.name, q), q.qType)
  {
    TriggersNameDeclaredQueues(s.ns, s.name, q);
    PlanParts(s, config);
    FlavourTrigger(s, config.target, q);
    hide Plan;
    hide DeclaredName;
    hide TriggerName;
    hide FlavourScaledWant;
    var i := match q.flavour case High => 8 case Mid => 9 case Low => 10;
    var want := Plan(s, config)[i];
    assert want in Plan(s, config);
  }

  lemma FlavourTrigger(s: ServiceId, a: Autoscaling, q: QueueId)
    requires a.cpu.Some?
    ensures Watches(FlavourScaledWant(s, q.flavour, a), TriggerName(s.ns, s.name, q), q.qType)
  {
    var triggers := FlavourScaledWant(s, q.flavour, a).spec.triggers;
    var t := if q.qType == Buffered then triggers[0] else triggers[1];
    assert t in triggers;
    hide TriggerName;
  }

  /** The consumer's own scaled object watches all three direct queues. */
  lemma ConsumerWatchesDirectQueues(s: ServiceId, config: Config, f: Flavour)
    requires CpuSet(config) && Text.IsLower(s.ns) && Text.IsLower(s.name)
    ensures exists want ::
      && want in Plan(s, config) && want.key.name == BufferName(ConsumerComponent, s.name)
      && Watches(want, DeclaredName(s.ns, s.name, QueueId(Direct, f)), Direct)
  {
    TriggersNameDeclaredQueues(s.ns, s.name, QueueId(Direct, f));
    PlanParts(s, config);
    hide Plan;
    hide DeclaredName;
    hide TriggerName;
    var want := Plan(s, config)[7];
    var i := match f case Low => 0 case Mid => 1 case High => 2;
    assert want.spec.triggers[i] == QueueLength(TriggerName(s.ns, s.name, QueueId(Direct, f)));
    assert want in Plan(s, config);
  }

  predicate Selects(selector: Labels, pod: Labels) {
    forall l :: l in selector ==> l in pod && pod[l] == selector[l]
  }

  /** A Service selects pods of its own namespace only, those that its labels match. */
  predicate ServiceSelects(service: Want, pod: Want)
    requires service.spec.ServiceSpec? && pod.spec.DeploymentSpec?
  {
    service.key.ns == pod.key.ns && Selects(service.spec.selector, pod.spec.template.labels)
  }

  lemma SelectorMatchesComponent(c: Component, t: ServiceId, d: Component)
    ensures Selects(Selector(c), PodLabels(t, d)) <==> c == d
  {
    assert "app.kubernetes.io/name"[18] == 'n' && "istio.io/rev"[0] == 'i';
    assert "app.kubernetes.io/component"[18] == 'c' && "app.kubernetes.io/part-of"[18] == 'p';
    assert "app.kubernetes.io/instance"[19] == 'n' && "app.kubernetes.io/managed-by"[18] == 'm';
    assert "app.kubernetes.io/instance"[18] == 'i' && "carbonshift/parent-service"[0] == 'c';
    assert PodLabels(t, d)["app.kubernetes.io/name"] == PREFIX + ComponentName(d);
    assert Selector(c)["app.kubernetes.io/name"] == PREFIX + ComponentName(c);
    if Selects(Selector(c), PodLabels(t, d)) {
      Text.CancelFront(PREFIX, ComponentName(c), ComponentName(d));
      assert |ComponentName(RouterComponent)| == 6 && |ComponentName(ConsumerComponent)| == 8;
    }
  }

  /** The Service of a component selects the pods of that component of every service of its namespace:
      the selector does not name the parent service. */
  lemma SelectorIgnoresTheParent(s: ServiceId, c: Component, t: ServiceId, d: Component, config: ComponentConfig)
    ensures ServiceSelects(ServiceWant(s, c), DeploymentWant(t, d, config)) <==> c == d && s.ns == t.ns
  {
    SelectorMatchesComponent(c, t, d);
    hide Selector;
    hide PodLabels;
    hide ObjectLabels;
    hide BufferName;
  }

  /** Among these services, the component's Service of `s` selects pods of `s` only. */
  ghost predicate SelectsOwnPodsOnly(s: ServiceId, c: Component, services: set<ServiceId>, config: ComponentConfig) {
    forall t, d :: t in services && ServiceSelects(ServiceWant(s, c), DeploymentWant(t, d, config)) ==> t == s
  }

  /** So it does exactly when no other of them lives in its namespace. */
  lemma OwnPodsOnlyWhenAlone(s: ServiceId, c: Component, services: set<ServiceId>, config: ComponentConfig)
    ensures SelectsOwnPodsOnly(s, c, services, config) <==> forall t :: t in services && t.ns == s.ns ==> t == s
  {
    forall t, d ensures ServiceSelects(ServiceWant(s, c), DeploymentWant(t, d, config)) <==> c == d && s.ns == t.ns {
      SelectorIgnoresTheParent(s, c, t, d, config);
    }
    hide ServiceSelects;
    if SelectsOwnPodsOnly(s, c, services, config) {
      forall t | t in services && t.ns == s.ns ensures t == s {
        assert ServiceSelects(ServiceWant(s, c), DeploymentWant(t, c, config));
      }
    }
  }

  // ---------------------------------------------------------------- distance to the plan

  /** A spec without what others own: the count of a deployment and the address of a service. */
  function Core(spec: Spec): Spec {
    match spec
    case DeploymentSpec(_, selector, template) => DeploymentSpec(None, selector, template)
    case ServiceSpec(_, selector, ports) => ServiceSpec("", selector, ports)
    case _ => spec
  }

  /** Accounts and bindings are only created, never compared. */
  predicate ExistenceOnly(kind: Kind) {
    kind == ServiceAccount || kind == ClusterRoleBinding
  }

  predicate Mismatch(w: World, want: Want) {
    want.key !in w.objects
    || (!ExistenceOnly(want.key.kind) && Core(w.objects[want.key].spec) != Core(want.spec))
  }

  /** How many wanted objects are missing or differ. */
  function Missing(w: World, plan: seq<Want>): (n: nat)
    ensures n <= |plan|
  {
    if plan == [] then 0 else (if Mismatch(w, plan[0]) then 1 else 0) + Missing(w, plan[1..])
  }

  ghost predicate DistinctKeys(plan: seq<Want>) {
    forall i, j :: 0 <= i < j < |plan| ==> plan[i].key != plan[j].key
  }

  lemma DriftKeepsMismatch(a: World, b: World, want: Want)
    requires DriftedAt(a, b, want.key)
    ensures Mismatch(a, want) <==> Mismatch(b, want)
  {
  }

  lemma {:induction false} DriftKeepsMissing(a: World, b: World, plan: seq<Want>)
    requires forall i :: 0 <= i < |plan| ==> DriftedAt(a, b, plan[i].key)
    ensures Missing(a, plan) == Missing(b, plan)
  {
    hide DriftedAt;
    hide Mismatch;
    if plan == [] {
    } else {
      DriftKeepsMismatch(a, b, plan[0]);
      DriftKeepsMissing(a, b, plan[1..]);
    }
  }

  lemma {:induction false} MissingIsZero(w: World, plan: seq<Want>)
    ensures Missing(w, plan) == 0 <==> forall i :: 0 <= i < |plan| ==> !Mismatch(w, plan[i])
  {
    hide Mismatch;
    if plan == [] {
    } else {
      MissingIsZero(w, plan[1..]);
      assert forall i :: 0 <= i < |plan[1..]| ==> plan[1..][i] == plan[i + 1];
      if Missing(w, plan) == 0 {
        forall i | 0 <= i < |plan| ensures !Mismatch(w, plan[i]) {
          if i > 0 { assert plan[i] == plan[1..][i - 1]; }
        }
      } else if Missing(w, plan[1..]) != 0 {
        var i :| 0 <= i < |plan[1..]| && Mismatch(w, plan[1..][i]);
        assert Mismatch(w, plan[i + 1]);
      }
    }
  }

  // ---------------------------------------------------------------- one ensure step

  /** A created object is the wanted one, with its first replica count. An existing one keeps its
      labels, and an account or binding its spec. */
  ghost predicate ContentKept(a: World, b: World, want: Want) {
    want.key in b.objects ==>
      var o := b.objects[want.key];
      if want.key in a.objects then
        o.labels == a.objects[want.key].labels
        && (ExistenceOnly(want.key.kind) ==> o.spec == a.objects[want.key].spec)
      else o.labels == want.labels && o.spec == want.spec
  }

  /** What one ensure step may do, done or not: at most one write, only to its own object, and only
      one that repairs it. */
  ghost predicate Step(a: State, b: State, want: Want, done: bool) {
    && Kept(a, b) && CountsKept(a.world, b.world)
    && DriftedBut(a.world, b.world, {want.key})
    && b.writes <= a.writes + 1
    && (b.writes == a.writes ==> DriftedAt(a.world, b.world, want.key))
    && (b.writes == a.writes + 1 ==> Mismatch(a.world, want) && !Mismatch(b.world, want))
    && (want.key in a.world.scaled ==> want.key in b.world.scaled) && ContentKept(a.world, b.world, want)
    && (done ==> !Mismatch(b.world, want))
    && (Calm(a.script) ==> done && SameBut(a.world, b.world, {want.key}))
  }

  lemma {:induction false} StepCounts(a: State, b: State, plan: seq<Want>, i: nat, done: bool)
    requires i < |plan| && DistinctKeys(plan) && Step(a, b, plan[i], done)
    ensures Missing(b.world, plan) + (b.writes - a.writes) == Missing(a.world, plan)
    decreases |plan|
  {
    StepMismatches(a, b, plan, i, done);
    hide Step;
    hide DriftedAt;
    hide Mismatch;
    if i == 0 {
      forall j | 0 <= j < |plan[1..]| ensures DriftedAt(a.world, b.world, plan[1..][j].key) {
        assert plan[1..][j] == plan[j + 1];
      }
      DriftKeepsMissing(a.world, b.world, plan[1..]);
    } else {
      StepCounts(a, b, plan[1..], i - 1, done);
    }
  }

  lemma StepMismatches(a: State, b: State, plan: seq<Want>, i: nat, done: bool)
    requires i < |plan| && DistinctKeys(plan) && Step(a, b, plan[i], done)
    ensures forall j :: 0 <= j < |plan| && j != i ==>
      DriftedAt(a.world, b.world, plan[j].key) && (Mismatch(a.world, plan[j]) <==> Mismatch(b.world, plan[j]))
    ensures a.writes <= b.writes <= a.writes + 1
    ensures b.writes == a.writes ==> (Mismatch(a.world, plan[i]) <==> Mismatch(b.world, plan[i]))
    ensures b.writes == a.writes + 1 ==> Mismatch(a.world, plan[i]) && !Mismatch(b.world, plan[i])
    ensures done ==> !Mismatch(b.world, plan[i])
  {
    hide DriftedAt;
    hide Mismatch;
    forall j | 0 <= j < |plan| && j != i
      ensures DriftedAt(a.world, b.world, plan[j].key)
      ensures Mismatch(a.world, plan[j]) <==> Mismatch(b.world, plan[j])
    {
      assert plan[j].key != plan[i].key;
      DriftKeepsMismatch(a.world, b.world, plan[j]);
    }
    if b.writes == a.writes {
      DriftKeepsMismatch(a.world, b.world, plan[i]);
    }
  }

  // ---------------------------------------------------------------- any part of a pass

  function PlanKeys(plan: seq<Want>): set<Key> {
    set w | w in plan :: w.key
  }

  /** An account or binding stays what it was when it was first there, or becomes the wanted one. */
  ghost predicate Inherits(a: World, b: World, want: Want) {
    && (want.key in a.objects ==> want.key in b.objects)
    && (want.key in b.objects ==>
          b.objects[want.key].spec == if want.key in a.objects then a.objects[want.key].spec else want.spec)
  }

  ghost predicate SubjectsKept(a: World, b: World, plan: seq<Want>) {
    forall i :: 0 <= i < |plan| && ExistenceOnly(plan[i].key.kind) ==> Inherits(a, b, plan[i])
  }

  lemma DriftInherits(a: World, b: World, want: Want)
    requires ValidWorld(a) && DriftedAt(a, b, want.key) && ExistenceOnly(want.key.kind)
    ensures Inherits(a, b, want)
  {
  }

  lemma DriftKeepsSubjects(a: World, b: World, plan: seq<Want>)
    requires ValidWorld(a) && DriftedBut(a, b, {})
    ensures SubjectsKept(a, b, plan)
  {
    hide Inherits;
    forall i | 0 <= i < |plan| && ExistenceOnly(plan[i].key.kind) ensures Inherits(a, b, plan[i]) {
      DriftInherits(a, b, plan[i]);
    }
  }

  lemma StepInherits(a: State, b: State, want: Want, done: bool)
    requires ValidWorld(a.world) && Step(a, b, want, done) && ExistenceOnly(want.key.kind)
    ensures Inherits(a.world, b.world, want)
  {
  }

  lemma StepKeepsSubjects(a: State, b: State, plan: seq<Want>, i: nat, done: bool)
    requires i < |plan| && DistinctKeys(plan) && ValidWorld(a.world) && Step(a, b, plan[i], done)
    ensures SubjectsKept(a.world, b.world, plan)
  {
    forall j | 0 <= j < |plan| && ExistenceOnly(plan[j].key.kind) ensures Inherits(a.world, b.world, plan[j]) {
      if j == i {
        StepInherits(a, b, plan[i], done);
      } else {
        StepMismatches(a, b, plan, i, done);
        DriftInherits(a.world, b.world, plan[j]);
      }
    }
  }

  lemma SubjectsKeptTransitive(a: World, b: World, c: World, plan: seq<Want>)
    requires SubjectsKept(a, b, plan) && SubjectsKept(b, c, plan)
    ensures SubjectsKept(a, c, plan)
  {
    forall i | 0 <= i < |plan| && ExistenceOnly(plan[i].key.kind) ensures Inherits(a, c, plan[i]) {
      assert Inherits(a, b, plan[i]) && Inherits(b, c, plan[i]);
    }
  }

  /** After any part of a pass: writes and repaired objects balance, the first `settled` objects match,
      nothing else was touched, and without a write nothing at all. */
  ghost predicate Progress(a: State, b: State, plan: seq<Want>, settled: nat) {
    && Kept(a, b) && CountsKept(a.world, b.world)
    && DriftedBut(a.world, b.world, PlanKeys(plan)) && Remembers(a.world, b.world)
    && SubjectsKept(a.world, b.world, plan)
    && (b.writes == a.writes ==> DriftedBut(a.world, b.world, {}))
    && Missing(b.world, plan) + (b.writes - a.writes) == Missing(a.world, plan)
    && settled <= |plan| && (forall i :: 0 <= i < settled ==> !Mismatch(b.world, plan[i]))
    && (Calm(a.script) ==> SameBut(a.world, b.world, PlanKeys(plan)))
  }

  lemma StartProgress(a: State, plan: seq<Want>)
    requires ValidWorld(a.world)
    ensures Progress(a, a, plan, 0)
  {
    hide Mismatch;
    hide Missing;
  }

  lemma SameButTransitive(a: World, b: World, c: World, keys: set<Key>, more: set<Key>)
    requires SameBut(a, b, keys) && SameBut(b, c, more) && more <= keys
    ensures SameBut(a, c, keys)
  {
    forall k | k !in keys ensures SameAt(a, c, k) {
      assert SameAt(a, b, k) && SameAt(b, c, k);
    }
  }

  lemma KeyOfPlan(plan: seq<Want>, i: nat)
    requires i < |plan|
    ensures {plan[i].key} <= PlanKeys(plan)
  {
    assert plan[i] in plan;
  }

  lemma StepRemembers(a: State, b: State, want: Want, done: bool)
    requires Step(a, b, want, done)
    ensures Remembers(a.world, b.world)
    ensures b.writes == a.writes ==> DriftedBut(a.world, b.world, {})
  {
    forall k | k in a.world.scaled ensures k in b.world.scaled {
      assert k == want.key || DriftedAt(a.world, b.world, k);
    }
  }

  lemma DriftRemembers(a: World, b: World)
    requires DriftedBut(a, b, {})
    ensures Remembers(a, b)
  {
    forall k | k in a.scaled ensures k in b.scaled {
      assert DriftedAt(a, b, k);
    }
  }

  /** Each step extends the progress, by one settled object when it is done. */
  lemma Advance(start: State, a: State, b: State, plan: seq<Want>, i: nat, done: bool)
    requires i < |plan| && DistinctKeys(plan) && Progress(start, a, plan, i) && Step(a, b, plan[i], done)
    ensures Progress(start, b, plan, if done then i + 1 else 0)
    ensures Calm(start.script) ==> done
    ensures ValidWorld(b.world)
  {
    StepCounts(a, b, plan, i, done);
    StepMismatches(a, b, plan, i, done);
    KeyOfPlan(plan, i);
    StepRemembers(a, b, plan[i], done);
    StepKeepsSubjects(a, b, plan, i, done);
    SubjectsKeptTransitive(start.world, a.world, b.world, plan);
    if b.writes == start.writes {
      DriftedButTransitive(start.world, a.world, b.world, {}, {});
    }
    hide Mismatch;
    hide Missing;
    hide DriftedAt;
    hide SameAt;
    hide PlanKeys;
    hide ValidWorld;
    hide CountsRespected;
    hide SubjectsKept;
    hide Calm;
    assert DriftedBut(start.world, b.world, PlanKeys(plan)) by {
      DriftedButTransitive(start.world, a.world, b.world, PlanKeys(plan), {plan[i].key});
    }
    if Calm(start.script) {
      SameButTransitive(start.world, a.world, b.world, PlanKeys(plan), {plan[i].key});
    }
  }

  // ---------------------------------------------------------------- joining progress

  lemma ProgressTransitive(a: State, b: State, c: State, plan: seq<Want>, i: nat, j: nat)
    requires Progress(a, b, plan, i) && Progress(b, c, plan, j)
    ensures Progress(a, c, plan, j)
  {
    SubjectsKeptTransitive(a.world, b.world, c.world, plan);
    hide SubjectsKept;
    hide Mismatch;
    hide Missing;
    hide DriftedAt;
    hide SameAt;
    hide PlanKeys;
    hide ValidWorld;
    hide CountsRespected;
    hide Calm;
    DriftedButTransitive(a.world, b.world, c.world, PlanKeys(plan), PlanKeys(plan));
    if c.writes == a.writes {
      DriftedButTransitive(a.world, b.world, c.world, {}, {});
    }
    if Calm(a.script) {
      SameButTransitive(a.world, b.world, c.world, PlanKeys(plan), PlanKeys(plan));
    }
  }

  /** Calls that wrote nothing. */
  ghost predicate ReadOnly(a: State, b: State) {
    && Kept(a, b) && CountsKept(a.world, b.world) && b.writes == a.writes && DriftedBut(a.world, b.world, {})
    && (Calm(a.script) ==> b.world == a.world)
  }

  lemma ReadOnlyIsProgress(a: State, b: State, plan: seq<Want>)
    requires ReadOnly(a, b) && ValidWorld(a.world)
    ensures Progress(a, b, plan, 0)
  {
    DriftKeepsSubjects(a.world, b.world, plan);
    hide SubjectsKept;
    hide Mismatch;
    hide Missing;
    hide DriftedAt;
    hide PlanKeys;
    hide ValidWorld;
    hide CountsRespected;
    hide Calm;
    assert forall i :: 0 <= i < |plan| ==> DriftedAt(a.world, b.world, plan[i].key);
    DriftKeepsMissing(a.world, b.world, plan);
    DriftRemembers(a.world, b.world);
  }

  lemma SettledMeansNothingMissing(a: State, b: State, plan: seq<Want>)
    requires Progress(a, b, plan, |plan|)
    ensures Missing(b.world, plan) == 0
  {
    MissingIsZero(b.world, plan);
  }

  lemma SameKeys(plan: seq<Want>, keys: seq<Key>)
    requires |plan| == |keys| && forall i :: 0 <= i < |keys| ==> plan[i].key == keys[i]
    ensures PlanKeys(plan) == set k | k in keys
  {
    forall k ensures k in PlanKeys(plan) <==> k in keys {
      if k in PlanKeys(plan) {
        var i :| 0 <= i < |plan| && plan[i].key == k;
        assert keys[i] == k;
      }
      if k in keys {
        var i :| 0 <= i < |keys| && keys[i] == k;
        assert plan[i] in plan;
      }
    }
  }

  /** Where nothing is missing, a pass writes nothing and leaves everything to the autoscaler. */
  lemma NothingMissingNothingWritten(a: State, b: State, plan: seq<Want>, n: nat)
    requires Progress(a, b, plan, n) && Missing(a.world, plan) == 0
    ensures b.writes == a.writes && DriftedBut(a.world, b.world, {}) && Missing(b.world, plan) == 0
  {
  }

  /** The role binding of `s` binds its account, or is not there yet. */
  ghost predicate BindsOrLacks(w: World, s: ServiceId) {
    var want := BindingWant(s);
    want.key !in w.objects || w.objects[want.key].spec == want.spec
  }

  /** Main result on the role binding: whatever part of how many passes has happened, a binding that is
      there binds the service's account if and only if it did so before or was not there before. */
  lemma BindingIsRightExactly(a: State, b: State, s: ServiceId, config: Config, n: nat)
    requires CpuSet(config) && Progress(a, b, Plan(s, config), n)
    requires n == 13 || BindingWant(s).key in b.world.objects
    ensures var k := BindingWant(s).key;
      && k in b.world.objects
      && (b.world.objects[k].spec == BindingWant(s).spec <==> BindsOrLacks(a.world, s))
  {
    PlanParts(s, config);
    var plan := Plan(s, config);
    hide Plan;
    assert plan[1] == BindingWant(s) && Inherits(a.world, b.world, plan[1]);
    if n == 13 { assert !Mismatch(b.world, plan[1]); }
  }

  /** Two services of one name in two namespaces want the same role binding for different accounts. */
  lemma BindingsAreShared(s: ServiceId, t: ServiceId)
    requires s.name == t.name && s.ns != t.ns
    ensures BindingWant(s).key == BindingWant(t).key && BindingWant(s).spec != BindingWant(t).spec
  {
  }

  /** So once a pass for `s` has created the binding, no passes for `t`, not even finished ones, ever
      bind the account of `t`. */
  lemma SharedBindingIsNeverRepaired(a: State, b: State, c: State, s: ServiceId, t: ServiceId, cs: Config, ct: Config,
                                     n: nat)
    requires CpuSet(cs) && CpuSet(ct) && s.name == t.name && s.ns != t.ns
    requires BindingWant(s).key !in a.world.objects
    requires Progress(a, b, Plan(s, cs), 13) && Progress(b, c, Plan(t, ct), n)
    ensures var k := BindingWant(t).key;
      k in c.world.objects && c.world.objects[k].spec == BindingWant(s).spec != BindingWant(t).spec
  {
    BindingIsRightExactly(a, b, s, cs, 13);
    BindingsAreShared(s, t);
    PlanParts(t, ct);
    var plan := Plan(t, ct);
    hide Plan;
    assert plan[1] == BindingWant(t) && Inherits(b.world, c.world, plan[1]);
  }

  /** The plan's keys are the managed keys, whatever the configuration. */
  lemma PlanKeysAreManaged(s: ServiceId, config: Config)
    requires CpuSet(config)
    ensures PlanKeys(Plan(s, config)) == ManagedSet(s)
  {
    PlanIsManaged(s, config);
    SameKeys(Plan(s, config), ManagedKeys(s));
  }
}
