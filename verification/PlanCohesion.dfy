/** What the operator installs for a service, object by object, and how the objects fit together. */
module PlanCohesion {
  import opened Wrappers
  import opened Routing
  import opened OperatorNames
  import opened ApiServer
  import opened OperatorPlan
  import Text

  // ---------------------------------------------------------------- names

  /** The names of the thirteen objects, in the order they are ensured. */
  lemma ManagedNames(s: ServiceId)
    ensures var keys, n := ManagedKeys(s), s.name;
      && keys[0] == Key(ServiceAccount, s.ns, n + "-trafficschedule-viewer")
      && keys[1] == Key(ClusterRoleBinding, "", n + "-trafficschedule-viewer-binding")
      && keys[2] == Key(Deployment, s.ns, "buffer-service-router-" + n)
      && keys[3] == Key(Service, s.ns, "buffer-service-router-" + n)
      && keys[4] == Key(Deployment, s.ns, "buffer-service-consumer-" + n)
      && keys[5] == Key(Service, s.ns, "buffer-service-consumer-" + n)
      && keys[6] == Key(ScaledObject, s.ns, "buffer-service-router-" + n)
      && keys[7] == Key(ScaledObject, s.ns, "buffer-service-consumer-" + n)
      && keys[8] == Key(ScaledObject, s.ns, n + "-high-power")
      && keys[9] == Key(ScaledObject, s.ns, n + "-mid-power")
      && keys[10] == Key(ScaledObject, s.ns, n + "-low-power")
      && keys[11] == Key(DestinationRule, s.ns, n + "-carbonshift-dr")
      && keys[12] == Key(VirtualService, s.ns, n + "-carbonshift-vs")
  {
    BufferNames(s.name);
    FlavourNames(s.name);
    hide BufferName;
    hide FlavourObjectName;
  }

  lemma BufferNames(n: string)
    ensures BufferName(RouterComponent, n) == "buffer-service-router-" + n
    ensures BufferName(ConsumerComponent, n) == "buffer-service-consumer-" + n
  {
    assert PREFIX + ComponentName(RouterComponent) + "-" == "buffer-service-router-";
    assert PREFIX + ComponentName(ConsumerComponent) + "-" == "buffer-service-consumer-";
  }

  lemma FlavourNames(n: string)
    ensures FlavourObjectName(n, High) == n + "-high-power"
    ensures FlavourObjectName(n, Mid) == n + "-mid-power"
    ensures FlavourObjectName(n, Low) == n + "-low-power"
  {
    assert "-" + FlavourName(High) == "-high-power";
    assert "-" + FlavourName(Mid) == "-mid-power";
    assert "-" + FlavourName(Low) == "-low-power";
  }

  // ---------------------------------------------------------------- accounts, pods and their target

  ghost predicate AccountIsBound(plan: seq<Want>, account: string, ns: string) {
    && (exists w :: w in plan && w.key == Key(ServiceAccount, ns, account))
    && (exists w :: w in plan && w.spec == BindingSpec(account, ns))
  }

  function ConfigOf(config: Config, c: Component): ComponentConfig {
    if c == RouterComponent then config.router else config.consumer
  }

  ghost predicate PodsFit(plan: seq<Want>, w: Want, s: ServiceId, c: Component, config: ComponentConfig) {
    && w.spec.DeploymentSpec? && w.spec.template.component == c
    && AccountIsBound(plan, w.spec.template.account, w.key.ns)
    && w.spec.template.target == s.name
    && w.spec.template.debug == config.debug && w.spec.template.resources == config.resources
    && Selects(w.spec.selector, w.spec.template.labels)
  }

  lemma AccountBound(s: ServiceId, config: Config)
    requires CpuSet(config)
    ensures AccountIsBound(Plan(s, config), AccountName(s.name), s.ns)
  {
    PlanParts(s, config);
    hide Plan;
    var plan := Plan(s, config);
    assert plan[0] in plan && plan[0].key == Key(ServiceAccount, s.ns, AccountName(s.name));
    assert plan[1] in plan && plan[1].spec == BindingSpec(AccountName(s.name), s.ns);
  }

  lemma DeploymentFits(plan: seq<Want>, s: ServiceId, c: Component, config: ComponentConfig)
    requires AccountIsBound(plan, AccountName(s.name), s.ns)
    ensures PodsFit(plan, DeploymentWant(s, c, config), s, c, config)
  {
    hide AccountIsBound;
    hide AccountName;
    hide BufferName;
    hide Selects;
    hide Selector;
    hide PodLabels;
    hide ObjectLabels;
    SelectorMatchesComponent(c, s, c);
  }

  /** The pods of each deployment run under an account of their namespace that the plan creates and
      binds, forward to the service itself, and are the ones the deployment selects; they have the
      settings of their component. */
  lemma PodsAreInPlace(s: ServiceId, c: Component, config: Config)
    requires CpuSet(config)
    ensures exists w ::
      && w in Plan(s, config) && w.key == Key(Deployment, s.ns, BufferName(c, s.name))
      && PodsFit(Plan(s, config), w, s, c, ConfigOf(config, c))
  {
    hide PodsFit;
    hide AccountIsBound;
    hide Plan;
    PlanParts(s, config);
    AccountBound(s, config);
    DeploymentFits(Plan(s, config), s, c, ConfigOf(config, c));
    var w := Plan(s, config)[if c == RouterComponent then 2 else 4];
    assert w in Plan(s, config) && w == DeploymentWant(s, c, ConfigOf(config, c));
    hide AccountWant;
  }

  /** The host part of the URL the consumer forwards to, made of its environment in lower case. */
  function TargetHost(ns: string, target: string): string {
    Text.Lower(target) + "." + Text.Lower(ns) + ".svc.cluster.local"
  }

  /** What the pods of a service forward is what its virtual service routes by flavour, exactly when its
      names are in lower case, as Kubernetes has them. */
  lemma ForwardsMeetRoutes(s: ServiceId, config: ComponentConfig)
    ensures var pods := DeploymentWant(s, ConsumerComponent, config);
      TargetHost(pods.key.ns, pods.spec.template.target) == RoutesWant(s).spec.host
      <==> Text.IsLower(s.ns) && Text.IsLower(s.name)
  {
    Text.LowerFixesLower(s.ns);
    Text.LowerFixesLower(s.name);
    hide Text.IsLower;
    if TargetHost(s.ns, s.name) == Host(s) {
      SameHostSameNames(Text.Lower(s.name), Text.Lower(s.ns), s.name, s.ns);
    }
  }

  lemma SameHostSameNames(a: string, b: string, a': string, b': string)
    requires |a| == |a'| && a + "." + b + ".svc.cluster.local" == a' + "." + b' + ".svc.cluster.local"
    ensures a == a' && b == b'
  {
    Text.CancelBack(a + "." + b, a' + "." + b', ".svc.cluster.local");
    assert ['.'] == ".";
    SameLengthParts(a, b, a', b');
  }

  // ---------------------------------------------------------------- scaling

  /** A scaled object takes its limits and its CPU use from the configuration. */
  ghost predicate ScalesBy(w: Want, a: Autoscaling) {
    && w.spec.ScaledSpec? && a.cpu.Some?
    && w.spec.min == a.min && w.spec.max == a.max && w.spec.cooldown == a.cooldown
    && Cpu(a.cpu.value) in w.spec.triggers
  }

  /** The scaled object of each component aims at that component's deployment, in the same plan. */
  lemma ComponentsAreScaled(s: ServiceId, c: Component, config: Config)
    requires CpuSet(config)
    ensures exists w, d ::
      && w in Plan(s, config) && d in Plan(s, config)
      && ScalesBy(w, ConfigOf(config, c).autoscaling)
      && d.key == Key(Deployment, w.key.ns, w.spec.target) && d.spec.DeploymentSpec? && d.spec.template.component == c
  {
    PlanParts(s, config);
    hide Plan;
    hide TriggerName;
    hide Selector;
    hide PodLabels;
    hide ObjectLabels;
    var plan := Plan(s, config);
    var i := if c == RouterComponent then 6 else 7;
    var w, d := plan[i], plan[if c == RouterComponent then 2 else 4];
    assert c == RouterComponent ==> w.spec.triggers[0] == Cpu(config.router.autoscaling.cpu.value);
    assert c == ConsumerComponent ==> w.spec.triggers[3] == Cpu(config.consumer.autoscaling.cpu.value);
    assert w in plan && d in plan && ScalesBy(w, ConfigOf(config, c).autoscaling);
  }

  /** The scaled object of each flavour aims at the deployment that is named after service and flavour. */
  lemma FlavoursAreScaled(s: ServiceId, f: Flavour, config: Config)
    requires CpuSet(config)
    ensures exists w ::
      && w in Plan(s, config) && ScalesBy(w, config.target)
      && w.key.ns == s.ns && w.spec.target == s.name + "-" + FlavourName(f)
  {
    PlanParts(s, config);
    hide Plan;
    hide TriggerName;
    var plan := Plan(s, config);
    var i := match f case High => 8 case Mid => 9 case Low => 10;
    var w := plan[i];
    assert w.spec.triggers[2] == Cpu(config.target.cpu.value);
    assert w in plan && ScalesBy(w, config.target);
  }

  /** Both components serve their metrics, and only the router takes requests. */
  lemma ServicesExposePorts(s: ServiceId, c: Component)
    ensures 8001 in ServiceWant(s, c).spec.ports
    ensures 8000 in ServiceWant(s, c).spec.ports <==> c == RouterComponent
  {
  }

  // ---------------------------------------------------------------- what it means that nothing is missing

  /** The stored spec is the wanted one, but for what others own. */
  ghost predicate Installed(stored: Spec, wanted: Spec) {
    match wanted
    case AccountSpec => true
    case BindingSpec(_, _) => true
    case DeploymentSpec(_, selector, template) =>
      stored.DeploymentSpec? && stored.selector == selector && stored.template == template
    case ServiceSpec(_, selector, ports) =>
      stored.ServiceSpec? && stored.selector == selector && stored.ports == ports
    case _ => stored == wanted
  }

  lemma MatchedIsInstalled(w: World, want: Want)
    requires Fits(want.key.kind, want.spec) && !Mismatch(w, want)
    ensures want.key in w.objects && Installed(w.objects[want.key].spec, want.spec)
  {
  }

  /** Where nothing is missing every wanted object is there, with the wanted spec. */
  lemma NothingMissingMeansInstalled(w: World, s: ServiceId, config: Config, want: Want)
    requires CpuSet(config) && Missing(w, Plan(s, config)) == 0 && want in Plan(s, config)
    ensures want.key in w.objects && Installed(w.objects[want.key].spec, want.spec)
  {
    PlanFits(s, config, want);
    hide Plan;
    MissingIsZero(w, Plan(s, config));
    MatchedIsInstalled(w, want);
  }

  lemma PlanFits(s: ServiceId, config: Config, want: Want)
    requires CpuSet(config) && want in Plan(s, config)
    ensures Fits(want.key.kind, want.spec)
  {
    PlanParts(s, config);
    hide Plan;
    hide AccountWant;
    hide BindingWant;
    hide DeploymentWant;
    hide ServiceWant;
    hide RouterScaledWant;
    hide ConsumerScaledWant;
    hide FlavourScaledWant;
    hide RuleWant;
    hide RoutesWant;
    var i :| 0 <= i < 13 && Plan(s, config)[i] == want;
  }
}
