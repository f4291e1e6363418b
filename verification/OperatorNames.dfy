/** The objects the operator manages for one service: their keys, and when two services collide. */
module OperatorNames {
  import Text
  import opened Routing

  datatype Kind =
    | ServiceAccount | ClusterRoleBinding | Deployment | Service
    | ScaledObject | DestinationRule | VirtualService

  /** Cluster-scoped objects have the empty namespace. */
  datatype Key = Key(kind: Kind, ns: string, name: string)

  datatype ServiceId = ServiceId(ns: string, name: string)

  datatype Component = RouterComponent | ConsumerComponent

  const PREFIX := "buffer-service-"

  function ComponentName(c: Component): string {
    match c
    case RouterComponent => "router"
    case ConsumerComponent => "consumer"
  }

  function ServiceKey(s: ServiceId): Key {
    Key(Service, s.ns, s.name)
  }

  // ---------------------------------------------------------------- names

  /** `buffer-service-<component>-<service>` */
  function BufferName(c: Component, name: string): string {
    PREFIX + ComponentName(c) + "-" + name
  }

  function FlavourObjectName(name: string, f: Flavour): string {
    name + "-" + FlavourName(f)
  }

  function AccountName(name: string): string {
    name + "-trafficschedule-viewer"
  }

  function BindingName(name: string): string {
    name + "-trafficschedule-viewer-binding"
  }

  function DestinationRuleName(name: string): string {
    name + "-carbonshift-dr"
  }

  function VirtualServiceName(name: string): string {
    name + "-carbonshift-vs"
  }

  // ---------------------------------------------------------------- keys

  /** The keys in the order `Reconcile` ensures them. */
  function ManagedKeys(s: ServiceId): (keys: seq<Key>)
    ensures |keys| == 13
  {
    [Key(ServiceAccount, s.ns, AccountName(s.name)),
     Key(ClusterRoleBinding, "", BindingName(s.name)),
     Key(Deployment, s.ns, BufferName(RouterComponent, s.name)),
     Key(Service, s.ns, BufferName(RouterComponent, s.name)),
     Key(Deployment, s.ns, BufferName(ConsumerComponent, s.name)),
     Key(Service, s.ns, BufferName(ConsumerComponent, s.name)),
     Key(ScaledObject, s.ns, BufferName(RouterComponent, s.name)),
     Key(ScaledObject, s.ns, BufferName(ConsumerComponent, s.name)),
     Key(ScaledObject, s.ns, FlavourObjectName(s.name, High)),
     Key(ScaledObject, s.ns, FlavourObjectName(s.name, Mid)),
     Key(ScaledObject, s.ns, FlavourObjectName(s.name, Low)),
     Key(DestinationRule, s.ns, DestinationRuleName(s.name)),
     Key(VirtualService, s.ns, VirtualServiceName(s.name))]
  }

  /** The keys in the order `cleanupResources` deletes them. */
  function CleanupKeys(s: ServiceId): (keys: seq<Key>)
    ensures |keys| == 13
  {
    [Key(VirtualService, s.ns, VirtualServiceName(s.name)),
     Key(DestinationRule, s.ns, DestinationRuleName(s.name)),
     Key(ScaledObject, s.ns, FlavourObjectName(s.name, High)),
     Key(ScaledObject, s.ns, FlavourObjectName(s.name, Mid)),
     Key(ScaledObject, s.ns, FlavourObjectName(s.name, Low)),
     Key(ScaledObject, s.ns, BufferName(ConsumerComponent, s.name)),
     Key(ScaledObject, s.ns, BufferName(RouterComponent, s.name)),
     Key(Deployment, s.ns, BufferName(RouterComponent, s.name)),
     Key(Service, s.ns, BufferName(RouterComponent, s.name)),
     Key(Deployment, s.ns, BufferName(ConsumerComponent, s.name)),
     Key(Service, s.ns, BufferName(ConsumerComponent, s.name)),
     Key(ServiceAccount, s.ns, AccountName(s.name)),
     Key(ClusterRoleBinding, "", BindingName(s.name))]
  }

  function ManagedSet(s: ServiceId): set<Key> {
    set k | k in ManagedKeys(s)
  }

  ghost predicate Distinct(keys: seq<Key>) {
    forall i, j :: 0 <= i < j < |keys| ==> keys[i] != keys[j]
  }

  /** The five names of scaled objects of one service differ. */
  lemma ScaledNamesDiffer(name: string)
    ensures BufferName(RouterComponent, name) != BufferName(ConsumerComponent, name)
    ensures forall c, f :: BufferName(c, name) != FlavourObjectName(name, f)
    ensures forall f, g :: f != g ==> FlavourObjectName(name, f) != FlavourObjectName(name, g)
  {
    assert |BufferName(RouterComponent, name)| == 22 + |name| && |BufferName(ConsumerComponent, name)| == 24 + |name|;
    forall f ensures |FlavourObjectName(name, f)| <= 11 + |name| {
    }
    forall c ensures |BufferName(c, name)| >= 22 + |name| {
    }
    forall f, g | FlavourObjectName(name, f) == FlavourObjectName(name, g)
      ensures f == g
    {
      Text.CancelFront(name + "-", FlavourName(f), FlavourName(g));
      FlavourNameInjective(f, g);
    }
  }

  /** Lists of thirteen entries in these groups of kinds, with distinct names in each group. */
  lemma GroupsAreDistinct(keys: seq<Key>)
    requires |keys| == 13
    requires forall i :: 0 <= i < 13 ==> keys[i].kind == match i
      case 0 => ServiceAccount case 1 => ClusterRoleBinding case 2 => Deployment case 3 => Service
      case 4 => Deployment case 5 => Service case 6 => ScaledObject case 7 => ScaledObject
      case 8 => ScaledObject case 9 => ScaledObject case 10 => ScaledObject
      case 11 => DestinationRule case _ => VirtualService
    requires keys[2].name != keys[4].name && keys[3].name != keys[5].name
    requires forall i, j :: 6 <= i < j < 11 ==> keys[i].name != keys[j].name
    ensures Distinct(keys)
  {
  }

  lemma ManagedKeysDistinct(s: ServiceId)
    ensures Distinct(ManagedKeys(s))
  {
    ScaledNamesDiffer(s.name);
    hide BufferName;
    hide FlavourObjectName;
    var keys := ManagedKeys(s);
    assert High != Mid && High != Low && Mid != Low;
    GroupsAreDistinct(keys);
  }

  /** Main result on names: the 13 managed keys are pairwise distinct, and the keys cleaned up are
      exactly these. */
  lemma CleanupMatchesManaged(s: ServiceId)
    ensures Distinct(ManagedKeys(s))
    ensures forall k :: k in ManagedKeys(s) <==> k in CleanupKeys(s)
  {
    ManagedKeysDistinct(s);
    hide BufferName;
    hide FlavourObjectName;
    hide AccountName;
    hide BindingName;
    hide DestinationRuleName;
    hide VirtualServiceName;
  }

  /** A service never manages itself. */
  lemma ServiceIsNotManaged(s: ServiceId)
    ensures ServiceKey(s) !in ManagedKeys(s)
  {
    assert forall c :: |BufferName(c, s.name)| > |s.name|;
    hide BufferName;
  }

  // ---------------------------------------------------------------- two services

  /** The names a service manages under one kind. */
  ghost predicate NamedFor(kind: Kind, name: string, svc: string) {
    match kind
    case ServiceAccount => name == AccountName(svc)
    case ClusterRoleBinding => name == BindingName(svc)
    case Deployment => exists c :: name == BufferName(c, svc)
    case Service => exists c :: name == BufferName(c, svc)
    case ScaledObject => (exists c :: name == BufferName(c, svc)) || (exists f :: name == FlavourObjectName(svc, f))
    case DestinationRule => name == DestinationRuleName(svc)
    case VirtualService => name == VirtualServiceName(svc)
  }

  function Namespace(kind: Kind, s: ServiceId): string {
    if kind == ClusterRoleBinding then "" else s.ns
  }

  /** The component or flavour behind the i-th managed key. */
  lemma NameFormats(svc: string)
    ensures forall c :: NamedFor(Deployment, BufferName(c, svc), svc)
    ensures forall c :: NamedFor(Service, BufferName(c, svc), svc)
    ensures forall c :: NamedFor(ScaledObject, BufferName(c, svc), svc)
    ensures forall f :: NamedFor(ScaledObject, FlavourObjectName(svc, f), svc)
    ensures NamedFor(ServiceAccount, AccountName(svc), svc) && NamedFor(ClusterRoleBinding, BindingName(svc), svc)
    ensures NamedFor(DestinationRule, DestinationRuleName(svc), svc)
    ensures NamedFor(VirtualService, VirtualServiceName(svc), svc)
  {
    hide BufferName;
    hide FlavourObjectName;
    hide AccountName;
    hide BindingName;
    hide DestinationRuleName;
    hide VirtualServiceName;
  }

  lemma ManagedIsNamed(s: ServiceId, k: Key)
    requires k in ManagedKeys(s)
    ensures k.ns == Namespace(k.kind, s) && NamedFor(k.kind, k.name, s.name)
  {
    hide BufferName;
    hide FlavourObjectName;
    hide AccountName;
    hide BindingName;
    hide DestinationRuleName;
    hide VirtualServiceName;
    hide NamedFor;
    NameFormats(s.name);
  }

  lemma NamedIsManaged(s: ServiceId, k: Key)
    requires k.ns == Namespace(k.kind, s) && NamedFor(k.kind, k.name, s.name)
    ensures k in ManagedKeys(s)
  {
    hide BufferName;
    hide FlavourObjectName;
    hide AccountName;
    hide BindingName;
    hide DestinationRuleName;
    hide VirtualServiceName;
    if c :| k.name == BufferName(c, s.name) {
      assert c == RouterComponent || c == ConsumerComponent;
      assert k == Key(k.kind, s.ns, BufferName(c, s.name)) || k.kind == ClusterRoleBinding;
    }
    if f :| k.name == FlavourObjectName(s.name, f) {
      assert f == High || f == Mid || f == Low;
    }
  }

  lemma ManagedMeansNamed(s: ServiceId, k: Key)
    ensures k in ManagedKeys(s) <==> k.ns == Namespace(k.kind, s) && NamedFor(k.kind, k.name, s.name)
  {
    hide ManagedKeys;
    hide NamedFor;
    if k in ManagedKeys(s) {
      ManagedIsNamed(s, k);
    }
    if k.ns == Namespace(k.kind, s) && NamedFor(k.kind, k.name, s.name) {
      NamedIsManaged(s, k);
    }
  }

  lemma PrefixLetters(i: nat)
    requires i < |PREFIX|
    ensures PREFIX[i] == '-' ==> i == 6 || i == 14
    ensures PREFIX[7] == 's'
  {
    assert PREFIX == ['b', 'u', 'f', 'f', 'e', 'r', '-', 's', 'e', 'r', 'v', 'i', 'c', 'e', '-'];
  }

  lemma FlavourFirstLetter(f: Flavour)
    ensures FlavourName(f) != "" && FlavourName(f)[0] in {'h', 'm', 'l'}
  {
  }

  lemma BufferNameInjective(c: Component, m: string, d: Component, n: string)
    requires BufferName(c, m) == BufferName(d, n)
    ensures c == d && m == n
  {
    assert BufferName(c, m)[15] == ComponentName(c)[0] && BufferName(d, n)[15] == ComponentName(d)[0];
    assert ComponentName(RouterComponent)[0] == 'r' && ComponentName(ConsumerComponent)[0] == 'c';
    Text.CancelFront(PREFIX + ComponentName(c) + "-", m, n);
  }

  lemma FlavourObjectNameInjective(m: string, f: Flavour, n: string, g: Flavour)
    requires FlavourObjectName(m, f) == FlavourObjectName(n, g)
    ensures m == n && f == g
  {
    var s := FlavourObjectName(m, f);
    var e := |s| - 9;
    assert f == High ==> s[e] == 'i';
    assert f == Mid ==> s[e] == 'm';
    assert f == Low ==> s[e] == 'l';
    assert g == High ==> FlavourObjectName(n, g)[e] == 'i';
    assert g == Mid ==> FlavourObjectName(n, g)[e] == 'm';
    assert g == Low ==> FlavourObjectName(n, g)[e] == 'l';
    assert f == g;
    Text.CancelBack(m + "-", n + "-", FlavourName(f));
    Text.CancelBack(m, n, "-");
  }

  /** The scaled object of a component of one service is that of a flavour of the other one. */
  ghost predicate Crosses(m: string, n: string) {
    exists c, f :: CrossesAt(m, n, c, f)
  }

  /** `m` is a flavour's name and `n` a component's, or `m` ends in a flavour and `n` carries the
      rest of `m` behind a component prefix. */
  ghost predicate CrossesAt(m: string, n: string, c: Component, f: Flavour) {
    || (m == FlavourName(f) && n == PREFIX + ComponentName(c))
    || (|m| > |FlavourName(f)| && m == m[..|m| - |FlavourName(f)| - 1] + "-" + FlavourName(f)
        && n == PREFIX + ComponentName(c) + "-" + m[..|m| - |FlavourName(f)| - 1])
  }

  lemma CrossingNames(m: string, n: string, c: Component, f: Flavour)
    ensures BufferName(c, m) == FlavourObjectName(n, f) <==> CrossesAt(m, n, c, f)
  {
    if CrossesAt(m, n, c, f) {
      if m == FlavourName(f) && n == PREFIX + ComponentName(c) {
      } else {
        var x := m[..|m| - |FlavourName(f)| - 1];
        assert BufferName(c, m) == (PREFIX + ComponentName(c) + "-") + (x + "-" + FlavourName(f));
        assert FlavourObjectName(n, f) == (PREFIX + ComponentName(c) + "-" + x) + "-" + FlavourName(f);
      }
    }
    if BufferName(c, m) == FlavourObjectName(n, f) {
      CrossingIsAligned(m, n, c, f);
      AlignedCrossing(m, n, c, f);
    }
  }

  /** No dash in the fixed front of a buffer name is followed by the first letter of a flavour. */
  lemma DashInFront(c: Component, m: string, i: nat)
    requires i < |PREFIX + ComponentName(c)|
    ensures BufferName(c, m)[i] == '-' ==> BufferName(c, m)[i + 1] in {'s', 'r', 'c'}
  {
    var s := BufferName(c, m);
    assert ComponentName(RouterComponent)[0] == 'r' && ComponentName(ConsumerComponent)[0] == 'c';
    assert s[15] == ComponentName(c)[0];
    if i < |PREFIX| {
      PrefixLetters(i);
      assert s[i] == PREFIX[i] && s[7] == PREFIX[7];
    } else {
      NoDash(c, i - |PREFIX|);
      assert s[i] == ComponentName(c)[i - |PREFIX|];
    }
  }

  lemma CrossingIsAligned(m: string, n: string, c: Component, f: Flavour)
    requires BufferName(c, m) == FlavourObjectName(n, f)
    ensures |n| >= |PREFIX + ComponentName(c)|
  {
    var s := BufferName(c, m);
    FlavourFirstLetter(f);
    assert s[|n|] == '-' && s[|n| + 1] == FlavourName(f)[0];
    if |n| < |PREFIX + ComponentName(c)| {
      DashInFront(c, m, |n|);
    }
  }

  lemma NoDash(c: Component, i: nat)
    requires i < |ComponentName(c)|
    ensures ComponentName(c)[i] != '-'
  {
    match c
    case RouterComponent => assert ComponentName(c) == ['r', 'o', 'u', 't', 'e', 'r'];
    case ConsumerComponent => assert ComponentName(c) == ['c', 'o', 'n', 's', 'u', 'm', 'e', 'r'];
  }

  lemma AlignedCrossing(m: string, n: string, c: Component, f: Flavour)
    requires BufferName(c, m) == FlavourObjectName(n, f)
    requires |n| >= |PREFIX + ComponentName(c)|
    ensures CrossesAt(m, n, c, f)
  {
    var front, flavour := PREFIX + ComponentName(c), FlavourName(f);
    assert BufferName(c, m) == front + ("-" + m) && FlavourObjectName(n, f) == n + ("-" + flavour);
    AlignedParts(front, flavour, m, n);
  }

  lemma AlignedParts(front: string, flavour: string, m: string, n: string)
    requires front + ("-" + m) == n + ("-" + flavour) && |n| >= |front|
    ensures
      || (m == flavour && n == front)
      || (|m| > |flavour| && var x := m[..|m| - |flavour| - 1]; m == x + "-" + flavour && n == front + "-" + x)
  {
    var rest, back := n[|front|..], "-" + flavour;
    Text.PeelFront(front, "-" + m, n, back);
    if rest == "" {
      assert rest + back == back;
      Text.CancelFront("-", m, flavour);
      assert n == front;
    } else {
      var x := rest[1..];
      assert (rest + back)[0] == rest[0];
      assert rest == "-" + x;
      assert "-" + (x + back) == rest + back;
      Text.CancelFront("-", m, x + back);
      assert m[..|x|] == x && x + back == x + "-" + flavour;
      assert front + rest == front + "-" + x;
    }
  }

  /** Some managed object of `a` is also managed for `b`, or is the Service `b` itself. */
  ghost predicate Disturbs(a: ServiceId, b: ServiceId) {
    exists k :: k in ManagedKeys(a) && (k in ManagedKeys(b) || k == ServiceKey(b))
  }

  /** What the names of two services must look like for that. */
  ghost predicate NamesClash(a: ServiceId, b: ServiceId) {
    || a.name == b.name
    || (a.ns == b.ns
        && (Crosses(a.name, b.name) || Crosses(b.name, a.name) || exists c :: b.name == BufferName(c, a.name)))
  }

  lemma SharedNameClashes(a: ServiceId, b: ServiceId, kind: Kind, name: string)
    requires NamedFor(kind, name, a.name) && NamedFor(kind, name, b.name) && a.name != b.name
    ensures kind == ScaledObject && (Crosses(a.name, b.name) || Crosses(b.name, a.name))
  {
    match kind
    case ServiceAccount => Text.CancelBack(a.name, b.name, "-trafficschedule-viewer");
    case ClusterRoleBinding => Text.CancelBack(a.name, b.name, "-trafficschedule-viewer-binding");
    case DestinationRule => Text.CancelBack(a.name, b.name, "-carbonshift-dr");
    case VirtualService => Text.CancelBack(a.name, b.name, "-carbonshift-vs");
    case Deployment =>
      var c :| name == BufferName(c, a.name);
      var d :| name == BufferName(d, b.name);
      BufferNameInjective(c, a.name, d, b.name);
    case Service =>
      var c :| name == BufferName(c, a.name);
      var d :| name == BufferName(d, b.name);
      BufferNameInjective(c, a.name, d, b.name);
    case ScaledObject => SharedScaledName(a.name, b.name, name);
  }

  lemma SharedScaledName(m: string, n: string, name: string)
    requires NamedFor(ScaledObject, name, m) && NamedFor(ScaledObject, name, n) && m != n
    ensures Crosses(m, n) || Crosses(n, m)
  {
    if c :| name == BufferName(c, m) {
      if d :| name == BufferName(d, n) {
        BufferNameInjective(c, m, d, n);
      } else {
        var g :| name == FlavourObjectName(n, g);
        CrossingNames(m, n, c, g);
      }
    } else {
      var f :| name == FlavourObjectName(m, f);
      if d :| name == BufferName(d, n) {
        CrossingNames(n, m, d, f);
      } else {
        var g :| name == FlavourObjectName(n, g);
        FlavourObjectNameInjective(m, f, n, g);
      }
    }
  }

  lemma ClashDisturbs(a: ServiceId, b: ServiceId)
    requires NamesClash(a, b)
    ensures Disturbs(a, b)
  {
    hide BufferName;
    hide FlavourObjectName;
    hide CrossesAt;
    var k: Key;
    if a.name == b.name {
      k := Key(ClusterRoleBinding, "", BindingName(a.name));
    } else if Crosses(a.name, b.name) {
      var c, f :| CrossesAt(a.name, b.name, c, f);
      CrossingNames(a.name, b.name, c, f);
      k := Key(ScaledObject, a.ns, BufferName(c, a.name));
    } else if Crosses(b.name, a.name) {
      var c, f :| CrossesAt(b.name, a.name, c, f);
      CrossingNames(b.name, a.name, c, f);
      k := Key(ScaledObject, a.ns, BufferName(c, b.name));
    } else {
      var c :| b.name == BufferName(c, a.name);
      k := ServiceKey(b);
    }
    ManagedMeansNamed(a, k);
    ManagedMeansNamed(b, k);
    hide ManagedKeys;
  }

  /** Main result: two services interfere exactly if their names clash. In particular two services of
      one name in two namespaces do, through the cluster-wide role binding. */
  lemma DisturbsExactly(a: ServiceId, b: ServiceId)
    ensures Disturbs(a, b) <==> NamesClash(a, b)
  {
    if NamesClash(a, b) {
      ClashDisturbs(a, b);
    }
    if Disturbs(a, b) && a.name != b.name {
      var k :| k in ManagedKeys(a) && (k in ManagedKeys(b) || k == ServiceKey(b));
      ManagedMeansNamed(a, k);
      ManagedMeansNamed(b, k);
      if k in ManagedKeys(b) {
        SharedNameClashes(a, b, k.kind, k.name);
      }
    }
  }

  /** Different names that stay clear of the prefix never interfere. */
  lemma OrdinaryNamesDoNotClash(a: ServiceId, b: ServiceId)
    requires a.name != b.name
    requires !Text.StartsWith(a.name, PREFIX) && !Text.StartsWith(b.name, PREFIX)
    ensures !Disturbs(a, b) && !Disturbs(b, a)
  {
    PrefixedNames(a.name, b.name);
    PrefixedNames(b.name, a.name);
    DisturbsExactly(a, b);
    DisturbsExactly(b, a);
  }

  lemma PrefixedNames(m: string, n: string)
    ensures Crosses(m, n) ==> Text.StartsWith(n, PREFIX)
    ensures (exists c :: n == BufferName(c, m)) ==> Text.StartsWith(n, PREFIX)
  {
  }
}
