/** The operator's reconciler: thirteen ensure steps against the API server, and the cleanup. */
module FlavourRouter {
  import opened Wrappers
  import opened Routing
  import opened OperatorNames
  import opened ApiServer
  import opened OperatorPlan

  const ENABLE_LABEL := "carbonshift/enabled"

  /** Durations and instants are nanoseconds, as in Go's `time`. */
  const DEFAULT_REQUEUE: int := 30_000_000_000

  /** The attempts of `retry.DefaultRetry`. */
  const RETRY_STEPS: nat := 5

  const FLAVOURS := [High, Mid, Low]

  /** A TrafficSchedule resource; `validUntil` is `None` for Go's zero time. */
  datatype Schedule = Schedule(config: Config, validUntil: Option<int>)

  predicate HasEnableLabel(labels: Labels) {
    ENABLE_LABEL in labels && labels[ENABLE_LABEL] == "true"
  }

  ghost predicate Enabled(w: World, s: ServiceId) {
    ServiceKey(s) in w.objects && HasEnableLabel(w.objects[ServiceKey(s)].labels)
  }

  // ---------------------------------------------------------------- the two halves of a step

  /** One write call for `want`, in a world that needs it. */
  ghost predicate Repair(a: State, b: State, want: Want, done: bool) {
    && Kept(a, b) && CountsKept(a.world, b.world) && b.writes <= a.writes + 1
    && (b.writes == a.writes ==> DriftedBut(a.world, b.world, {}) && !done)
    && (b.writes == a.writes + 1 ==>
          && DriftedBut(a.world, b.world, {want.key}) && Mismatch(a.world, want) && !Mismatch(b.world, want)
          && (want.key in a.world.scaled ==> want.key in b.world.scaled) && ContentKept(a.world, b.world, want))
    && (Calm(a.script) ==> done && SameBut(a.world, b.world, {want.key}))
  }

  lemma ReadOnlyTransitive(a: State, b: State, c: State)
    requires ReadOnly(a, b) && ReadOnly(b, c)
    ensures ReadOnly(a, c)
  {
    DriftedButTransitive(a.world, b.world, c.world, {}, {});
    hide DriftedBut;
    hide ValidWorld;
    hide CountsRespected;
  }

  lemma DriftKeepsContent(a: World, b: World, want: Want)
    requires ValidWorld(a) && DriftedBut(a, b, {})
    ensures want.key in a.objects <==> want.key in b.objects
    ensures ContentKept(a, b, want)
  {
    assert DriftedAt(a, b, want.key);
  }

  lemma ReadStep(a: State, b: State, want: Want, done: bool)
    requires ValidWorld(a.world) && ReadOnly(a, b)
    requires (done ==> !Mismatch(b.world, want)) && (Calm(a.script) ==> done)
    ensures Step(a, b, want, done)
  {
    DriftRemembers(a.world, b.world);
    DriftKeepsContent(a.world, b.world, want);
    hide DriftedAt;
    hide Mismatch;
    hide ValidWorld;
    hide CountsRespected;
    hide Calm;
    assert DriftedBut(a.world, b.world, {want.key});
  }

  lemma RepairStep(a: State, b: State, c: State, want: Want, done: bool)
    requires ValidWorld(a.world) && ReadOnly(a, b) && Repair(b, c, want, done)
    ensures Step(a, c, want, done)
  {
    DriftRemembers(a.world, b.world);
    DriftKeepsContent(a.world, b.world, want);
    hide Mismatch;
    hide ValidWorld;
    hide CountsRespected;
    hide Calm;
    hide SameAt;
    hide DriftedAt;
    assert DriftedAt(a.world, b.world, want.key);
    DriftKeepsMismatch(a.world, b.world, want);
    assert DriftedBut(a.world, b.world, {want.key});
    if c.writes == b.writes {
      DriftRemembers(b.world, c.world);
      DriftKeepsContent(b.world, c.world, want);
      assert DriftedAt(b.world, c.world, want.key);
      DriftedTransitive(a.world, b.world, c.world, want.key);
      assert DriftedBut(b.world, c.world, {want.key});
    }
    DriftedButTransitive(a.world, b.world, c.world, {want.key}, {want.key});
  }

  /** A count the autoscaler did not set is the one that was there before. */
  ghost predicate CountKept(a: World, b: World, k: Key) {
    k in a.objects ==>
      && k in b.objects && (k in a.scaled ==> k in b.scaled)
      && (k !in b.scaled ==> KeepsCount(a.objects[k].spec, b.objects[k].spec))
  }

  ghost predicate AddressKept(a: World, b: World, k: Key) {
    k in a.objects && a.objects[k].spec.ServiceSpec? ==>
      && k in b.objects && b.objects[k].spec.ServiceSpec?
      && b.objects[k].spec.clusterIP == a.objects[k].spec.clusterIP
  }

  /** Taking over the current address, two Service specs differ exactly if their cores do. */
  lemma SameCoreSameService(current: Spec, wanted: Spec)
    requires current.ServiceSpec? && wanted.ServiceSpec?
    ensures current == wanted.(clusterIP := current.clusterIP) <==> Core(current) == Core(wanted)
    ensures Core(wanted.(clusterIP := current.clusterIP)) == Core(wanted)
  {
  }

  // ---------------------------------------------------------------- cleaning up

  function KeySet(keys: seq<Key>): set<Key> {
    set k | k in keys
  }

  /** Of these keys, those of a kind that the role lets be deleted, and the others. */
  function Erasable(keys: set<Key>, deletable: set<Kind>): set<Key> {
    set k | k in keys && k.kind in deletable
  }

  function Refused(keys: set<Key>, deletable: set<Kind>): set<Key> {
    set k | k in keys && k.kind !in deletable
  }

  /** Of these keys the objects of `gone` are gone or noted as failed, nothing was created, and nothing
      but what may be deleted was touched. */
  ghost predicate Cleaning(a: State, b: State, keys: set<Key>, gone: set<Key>, failed: set<Key>) {
    && Kept(a, b) && CountsKept(a.world, b.world)
    && DriftedBut(a.world, b.world, Erasable(keys, a.deletable))
    && (forall k :: k in b.world.objects ==> k in a.world.objects)
    && (forall k :: k in gone ==> k !in b.world.objects || k in failed)
    && Refused(gone, a.deletable) <= failed <= gone <= keys
    && (Calm(a.script) ==>
          failed == Refused(gone, a.deletable) && SameBut(a.world, b.world, Erasable(keys, a.deletable)))
  }

  /** What a cleanup comes to: the same of all managed objects. */
  ghost predicate CleanedUp(a: State, b: State, s: ServiceId, failed: set<Key>) {
    Cleaning(a, b, ManagedSet(s), ManagedSet(s), failed)
  }

  lemma StartCleanup(a: State, keys: set<Key>)
    requires ValidWorld(a.world)
    ensures Cleaning(a, a, keys, {}, {})
  {
  }

  /** One deletion, as the server reports it. */
  ghost predicate Deleted(a: State, b: State, k: Key, fails: bool) {
    && Kept(a, b) && CountsKept(a.world, b.world)
    && DriftedBut(a.world, b.world, Erasable({k}, a.deletable))
    && (k in b.world.objects ==> k in a.world.objects && fails)
    && (k.kind !in a.deletable ==> fails)
    && (Calm(a.script) ==>
          (fails ==> k.kind !in a.deletable) && SameBut(a.world, b.world, Erasable({k}, a.deletable)))
  }

  lemma AdvanceCleanup(start: State, a: State, b: State, keys: set<Key>, gone: set<Key>, k: Key, failed: set<Key>,
                       fails: bool)
    requires Cleaning(start, a, keys, gone, failed) && k in keys && Deleted(a, b, k, fails)
    ensures Cleaning(start, b, keys, gone + {k}, failed + if fails then {k} else {})
  {
    hide DriftedAt;
    hide SameAt;
    hide Calm;
    hide ValidWorld;
    hide CountsRespected;
    DriftedButTransitive(start.world, a.world, b.world, Erasable(keys, start.deletable), Erasable({k}, a.deletable));
    if Calm(start.script) {
      SameButTransitive(start.world, a.world, b.world, Erasable(keys, start.deletable), Erasable({k}, a.deletable));
    }
    forall x | x in b.world.objects ensures x in a.world.objects {
      if x != k { DriftKeepsObjects(a.world, b.world, Erasable({k}, a.deletable), x); }
    }
  }

  lemma CleanupCoversManaged(s: ServiceId)
    ensures KeySet(CleanupKeys(s)) == ManagedSet(s)
  {
    CleanupMatchesManaged(s);
    hide CleanupKeys;
    hide ManagedKeys;
  }

  lemma EmptyKeys(keys: seq<Key>)
    ensures KeySet(keys[..0]) == {}
  {
  }

  lemma NextKey(keys: seq<Key>, i: nat)
    requires i < |keys|
    ensures keys[i] in KeySet(keys) && KeySet(keys[..i + 1]) == KeySet(keys[..i]) + {keys[i]}
  {
  }

  lemma DriftKeepsObjects(a: World, b: World, keys: set<Key>, k: Key)
    requires DriftedBut(a, b, keys) && k !in keys
    ensures k in a.objects <==> k in b.objects
  {
    assert DriftedAt(a, b, k);
  }

  lemma CleanedUpAfterRead(a: State, b: State, c: State, s: ServiceId, failed: set<Key>)
    requires ReadOnly(a, b) && CleanedUp(b, c, s, failed)
    ensures CleanedUp(a, c, s, failed) && |c.script| <= |b.script|
  {
    var keys := Erasable(ManagedSet(s), a.deletable);
    hide ManagedSet;
    assert DriftedBut(a.world, b.world, keys);
    DriftedButTransitive(a.world, b.world, c.world, keys, keys);
    forall k | k in b.world.objects ensures k in a.world.objects {
      assert DriftedAt(a.world, b.world, k);
    }
  }

  lemma ProgressAfterRead(a: State, b: State, c: State, plan: seq<Want>, n: nat)
    requires ValidWorld(a.world) && ReadOnly(a, b) && Progress(b, c, plan, n)
    ensures Progress(a, c, plan, n) && |c.script| <= |b.script|
  {
    ReadOnlyIsProgress(a, b, plan);
    ProgressTransitive(a, b, c, plan, 0, n);
  }

  // ---------------------------------------------------------------- one reconcile

  /** What the controller runtime makes of a `RequeueAfter`: zero asks for no timer at all. */
  function Timer(delay: int): Option<int> {
    if delay > 0 then Some(delay) else None
  }

  /** The time left until a schedule runs out. A service is reconciled again by the timer exactly if
      the schedule has an end that is still ahead. */
  function RequeueAfter(schedule: Schedule, now: int): (r: Option<int>)
    ensures r.Some? <==> schedule.validUntil.Some? && schedule.validUntil.value > now
    ensures r.Some? ==> now + r.value == schedule.validUntil.value
  {
    match schedule.validUntil
    case None => None
    case Some(until) => if until > now then Some(until - now) else None
  }

  lemma ServiceIsRead(a: State, b: State, s: ServiceId)
    requires DriftedBut(a.world, b.world, {})
    ensures ServiceKey(s) in a.world.objects <==> ServiceKey(s) in b.world.objects
    ensures Enabled(a.world, s) <==> Enabled(b.world, s)
  {
    assert DriftedAt(a.world, b.world, ServiceKey(s));
  }

  /** What one reconcile comes to, by what it finds. */
  ghost predicate Reconciled(a: State, b: State, s: ServiceId, listing: Result<seq<Schedule>, Failure>, now: int,
                             r: Result<Option<int>, Failure>)
    requires listing.Ok? && listing.value != [] ==> CpuSet(listing.value[0].config)
  {
    if ServiceKey(s) !in a.world.objects then
      ReadOnly(a, b) && (r == Ok(None) || (r == Err(Broken) && !Calm(a.script)))
    else if !Enabled(a.world, s) then
      || (r == Ok(None) && exists failed :: CleanedUp(a, b, s, failed))
      || (r == Err(Broken) && ReadOnly(a, b) && !Calm(a.script))
    else if listing.Err? then
      ReadOnly(a, b) && (r == Err(listing.error) || (r == Err(Broken) && !Calm(a.script)))
    else if listing.value == [] then
      ReadOnly(a, b) && (r == Ok(Some(30_000_000_000)) || (r == Err(Broken) && !Calm(a.script)))
    else
      && Progress(a, b, Plan(s, listing.value[0].config), if r.Ok? then 13 else 0)
      && (r.Ok? ==> r.value == RequeueAfter(listing.value[0], now))
      && (Calm(a.script) ==> r.Ok?)
  }

  /** Who is reconciled: in calm, with a schedule listed, a Service whose label `carbonshift/enabled` is
      `true` ends with nothing missing, and one with any other value or none ends cleaned up. */
  lemma LabelDecides(a: State, b: State, s: ServiceId, schedules: seq<Schedule>, now: int,
                     r: Result<Option<int>, Failure>)
    requires schedules != [] && CpuSet(schedules[0].config) && Calm(a.script)
    requires Reconciled(a, b, s, Ok(schedules), now, r)
    requires Key(Service, s.ns, s.name) in a.world.objects
    ensures var labels := a.world.objects[Key(Service, s.ns, s.name)].labels;
      if "carbonshift/enabled" in labels && labels["carbonshift/enabled"] == "true" then
        r.Ok? && Missing(b.world, Plan(s, schedules[0].config)) == 0
      else
        && r == Ok(None)
        && forall k :: k in ManagedKeys(s) && k.kind in a.deletable ==> k !in b.world.objects
  {
    if Enabled(a.world, s) {
      SettledMeansNothingMissing(a, b, Plan(s, schedules[0].config));
    } else {
      var failed :| CleanedUp(a, b, s, failed);
      assert failed == Refused(ManagedSet(s), a.deletable);
    }
  }

  lemma CalmStaysCalm(a: State, b: State, plan: seq<Want>, n: nat)
    requires Progress(a, b, plan, n) && Calm(a.script)
    ensures Calm(b.script)
  {
  }

  // ---------------------------------------------------------------- many reconciles

  datatype Pass = Pass(listing: Result<seq<Schedule>, Failure>, now: int)

  /** If the List call answers at all, it is with this configuration first. */
  predicate Steady(p: Pass, config: Config) {
    p.listing.Ok? && p.listing.value != [] ==> p.listing.value[0].config == config
  }

  predicate Listed(p: Pass) {
    p.listing.Ok? && p.listing.value != []
  }

  lemma PassMakesProgress(a: State, b: State, s: ServiceId, config: Config, p: Pass, r: Result<Option<int>, Failure>)
    requires ValidWorld(a.world) && CpuSet(config) && Steady(p, config) && Enabled(a.world, s)
    requires Reconciled(a, b, s, p.listing, p.now, r)
    ensures Progress(a, b, Plan(s, config), 0)
    ensures Listed(p) && Calm(a.script) ==> Missing(b.world, Plan(s, config)) == 0
  {
    if !Listed(p) {
      ReadOnlyIsProgress(a, b, Plan(s, config));
    } else if r.Ok? {
      SettledMeansNothingMissing(a, b, Plan(s, config));
    }
  }

  /** Reconciling a service never takes its label away. */
  lemma StaysEnabled(a: State, b: State, s: ServiceId, config: Config)
    requires CpuSet(config) && Enabled(a.world, s) && Progress(a, b, Plan(s, config), 0)
    ensures Enabled(b.world, s)
  {
    ServiceIsNotManaged(s);
    PlanKeysAreManaged(s, config);
    assert DriftedAt(a.world, b.world, ServiceKey(s));
  }

  // ---------------------------------------------------------------- consequences

  /** Create and clean up: after a finished pass and a cleanup in which only deletions that the role
      refuses have failed, the managed objects of the refused kinds are still there, the others are
      gone, and everything else is left to the autoscaler. */
  lemma CleanUpLeavesRefused(a: State, b: State, c: State, s: ServiceId, config: Config, failed: set<Key>)
    requires CpuSet(config) && Progress(a, b, Plan(s, config), 13) && CleanedUp(b, c, s, failed)
    requires failed == Refused(ManagedSet(s), b.deletable)
    ensures DriftedBut(a.world, c.world, ManagedSet(s))
    ensures forall k :: k in ManagedSet(s) ==> (k in c.world.objects <==> k.kind !in b.deletable)
  {
    PlanKeysAreManaged(s, config);
    hide ManagedSet;
    hide Plan;
    DriftedButTransitive(a.world, b.world, c.world, ManagedSet(s), Erasable(ManagedSet(s), b.deletable));
    forall k | k in ManagedSet(s) ensures k in c.world.objects <==> k.kind !in b.deletable {
      SettledIsThere(a, b, Plan(s, config), k);
      if k.kind !in b.deletable {
        DriftKeepsObjects(b.world, c.world, Erasable(ManagedSet(s), b.deletable), k);
      }
    }
  }

  lemma SettledIsThere(a: State, b: State, plan: seq<Want>, k: Key)
    requires Progress(a, b, plan, |plan|) && k in PlanKeys(plan)
    ensures k in b.world.objects
  {
    var i :| 0 <= i < |plan| && plan[i].key == k;
    assert !Mismatch(b.world, plan[i]);
  }

  /** Without faults and autoscaler moves: what is left are the objects that were not the operator's
      own, exactly as they were, and the refused ones. A store without managed objects is restored if
      and only if the role lets every managed kind be deleted. */
  lemma CreateThenCleanUp(a: State, b: State, c: State, s: ServiceId, config: Config, failed: set<Key>)
    requires CpuSet(config) && Calm(a.script)
    requires Progress(a, b, Plan(s, config), 13) && CleanedUp(b, c, s, failed)
    ensures c.world.objects - Refused(ManagedSet(s), a.deletable) == a.world.objects - ManagedSet(s)
    ensures Refused(ManagedSet(s), a.deletable) <= c.world.objects.Keys
    ensures (forall k :: k in ManagedSet(s) ==> k !in a.world.objects) ==>
      (c.world.objects == a.world.objects <==> forall k :: k in ManagedSet(s) ==> k.kind in a.deletable)
  {
    CleanUpLeavesRefused(a, b, c, s, config, failed);
    PlanKeysAreManaged(s, config);
    hide ManagedSet;
    hide Plan;
    assert SameBut(b.world, c.world, ManagedSet(s));
    SameObjects(a.world, b.world, c.world, ManagedSet(s), Refused(ManagedSet(s), a.deletable));
  }

  lemma SameObjects(a: World, b: World, c: World, keys: set<Key>, left: set<Key>)
    requires SameBut(a, b, keys) && SameBut(b, c, keys) && left <= keys
    requires forall k :: k in keys ==> (k in c.objects <==> k in left)
    ensures c.objects - left == a.objects - keys
    ensures left <= c.objects.Keys
    ensures (forall k :: k in keys ==> k !in a.objects) ==> (c.objects == a.objects <==> left == {})
  {
    SameButTransitive(a, b, c, keys, keys);
    forall k | k !in keys ensures SameAt(a, c, k) {
    }
    assert (c.objects - left).Keys == (a.objects - keys).Keys;
    assert forall k :: k in c.objects - left ==> c.objects[k] == a.objects[k];
    if forall k :: k in keys ==> k !in a.objects {
      assert a.objects - keys == a.objects;
      if left == {} {
        assert c.objects - left == c.objects;
      } else {
        var k :| k in left;
        assert k in c.objects && k !in a.objects;
      }
    }
  }

  /** The kinds of which the operator's declared role has the verb `delete`. */
  const DECLARED_DELETABLE := {ScaledObject, DestinationRule, VirtualService}

  lemma DeclaredKinds(s: ServiceId, i: nat)
    requires i < 13
    ensures ManagedKeys(s)[i].kind in DECLARED_DELETABLE <==> i >= 6
  {
    hide BufferName;
    hide FlavourObjectName;
    hide AccountName;
    hide BindingName;
    hide DestinationRuleName;
    hide VirtualServiceName;
  }

  /** With this role a cleanup leaves six of the thirteen objects behind: account, role binding, and
      deployment and Service of router and consumer. */
  lemma DeclaredRoleLeavesSix(a: State, b: State, c: State, s: ServiceId, config: Config, failed: set<Key>)
    requires CpuSet(config) && b.deletable == DECLARED_DELETABLE
    requires Progress(a, b, Plan(s, config), 13) && CleanedUp(b, c, s, failed)
    requires failed == Refused(ManagedSet(s), b.deletable)
    ensures forall i :: 0 <= i < 13 ==> (ManagedKeys(s)[i] in c.world.objects <==> i < 6)
  {
    hide CleanedUp;
    hide Progress;
    hide Plan;
    hide ManagedKeys;
    CleanUpLeavesRefused(a, b, c, s, config, failed);
    forall i | 0 <= i < 13 ensures ManagedKeys(s)[i] in c.world.objects <==> i < 6 {
      DeclaredKinds(s, i);
      assert ManagedKeys(s)[i] in ManagedSet(s);
    }
  }

  /** Non-interference: whatever is done for `s`, all objects of a service whose name does not clash,
      and its Service, are left to the autoscaler, and it is no further from its own plan. */
  lemma OthersAreUntouched(a: World, b: World, s: ServiceId, t: ServiceId, config: Config)
    requires CpuSet(config) && !NamesClash(s, t) && DriftedBut(a, b, ManagedSet(s))
    ensures DriftedAt(a, b, ServiceKey(t)) && forall k :: k in ManagedKeys(t) ==> DriftedAt(a, b, k)
    ensures Missing(b, Plan(t, config)) == Missing(a, Plan(t, config))
  {
    DisturbsExactly(s, t);
    forall k | k in ManagedKeys(t) ensures DriftedAt(a, b, k) {
      assert k !in ManagedKeys(s);
    }
    assert ServiceKey(t) !in ManagedKeys(s);
    PlanIsManaged(t, config);
    PlanDrifts(a, b, Plan(t, config), ManagedKeys(t));
  }

  lemma PlanDrifts(a: World, b: World, plan: seq<Want>, keys: seq<Key>)
    requires |plan| == |keys| && (forall i :: 0 <= i < |keys| ==> plan[i].key == keys[i])
    requires forall k :: k in keys ==> DriftedAt(a, b, k)
    ensures Missing(b, plan) == Missing(a, plan)
  {
    assert forall i :: 0 <= i < |plan| ==> keys[i] in keys && DriftedAt(a, b, plan[i].key);
    DriftKeepsMissing(a, b, plan);
  }

  // ---------------------------------------------------------------- the reconciler

  class Reconciler {
    const client: Api

    constructor (client: Api)
      ensures this.client == client
    {
      this.client := client;
    }

    /** `ensureServiceAccount`, `ensureClusterRoleBinding`: created when missing, never compared. */
    method EnsureExists(want: Want) returns (r: Result<(), Failure>)
      requires client.Valid() && Fits(want.key.kind, want.spec) && ExistenceOnly(want.key.kind)
      modifies client
      ensures client.Valid() && Step(old(client.Now()), client.Now(), want, r.Ok?)
    {
      var found := client.Get(want.key);
      ghost var read := client.Now();
      if found == Err(NotFound) {
        r := client.Create(want.key, want.spec, want.labels);
        RepairStep(old(client.Now()), read, client.Now(), want, r.Ok?);
        return;
      }
      r := match found case Ok(_) => Ok(()) case Err(e) => Err(e);
      ReadStep(old(client.Now()), read, want, r.Ok?);
    }

    /** The scaled objects, the destination rule and the virtual service: the whole spec is compared
        and replaced. */
    method EnsureSpec(want: Want) returns (r: Result<(), Failure>)
      requires client.Valid() && Fits(want.key.kind, want.spec)
      requires want.key.kind in {ScaledObject, DestinationRule, VirtualService}
      modifies client
      ensures client.Valid() && Step(old(client.Now()), client.Now(), want, r.Ok?)
    {
      var found := client.Get(want.key);
      ghost var read := client.Now();
      if found == Err(NotFound) {
        r := client.Create(want.key, want.spec, want.labels);
        RepairStep(old(client.Now()), read, client.Now(), want, r.Ok?);
        return;
      }
      if found.Err? {
        ReadStep(old(client.Now()), read, want, false);
        return Err(found.error);
      }
      var current := found.value;
      if current.spec != want.spec {
        r := client.Update(want.key, current.(spec := want.spec));
        RepairStep(old(client.Now()), read, client.Now(), want, r.Ok?);
        return;
      }
      ReadStep(old(client.Now()), read, want, true);
      r := Ok(());
    }

    /** `ensureBufferServiceService`: the address the cluster gave to the Service stays. */
    method EnsureService(want: Want) returns (r: Result<(), Failure>)
      requires client.Valid() && Fits(want.key.kind, want.spec) && want.key.kind == Service
      modifies client
      ensures client.Valid() && Step(old(client.Now()), client.Now(), want, r.Ok?)
      ensures AddressKept(old(client.world), client.world, want.key)
    {
      var found := client.Get(want.key);
      ghost var read := client.Now();
      assert DriftedAt(old(client.world), client.world, want.key);
      if found == Err(NotFound) {
        r := client.Create(want.key, want.spec, want.labels);
        RepairStep(old(client.Now()), read, client.Now(), want, r.Ok?);
        return;
      }
      if found.Err? {
        ReadStep(old(client.Now()), read, want, false);
        return Err(found.error);
      }
      var current := found.value;
      var desired := want.spec.(clusterIP := current.spec.clusterIP);
      SameCoreSameService(current.spec, want.spec);
      hide Core;
      if current.spec != desired {
        r := client.Update(want.key, current.(spec := desired));
        RepairStep(old(client.Now()), read, client.Now(), want, r.Ok?);
        return;
      }
      ReadStep(old(client.Now()), read, want, true);
      r := Ok(());
    }

    /** `ensureBufferServiceDeployment`: compared without the count; when it differs, the latest version
        is read again and written back with the latest count, up to five times while others write.
        A count the autoscaler never set stays as it was; one it did set stays by `CountsKept`.
        A conflict gets out only after the first read and five times read and write. */
    method EnsureDeployment(want: Want) returns (r: Result<(), Failure>)
      requires client.Valid() && Fits(want.key.kind, want.spec) && want.key.kind == Deployment
      modifies client
      ensures client.Valid() && Step(old(client.Now()), client.Now(), want, r.Ok?)
      ensures CountKept(old(client.world), client.world, want.key)
      ensures r == Err(Conflict) ==> |client.script| + 1 + 2 * 5 <= |old(client.script)|
    {
      ghost var start := client.Now();
      var found := client.Get(want.key);
      ghost var read := client.Now();
      assert DriftedAt(start.world, read.world, want.key);
      if found == Err(NotFound) {
        r := client.Create(want.key, want.spec, want.labels);
        RepairStep(start, read, client.Now(), want, r.Ok?);
        return;
      }
      if found.Err? {
        ReadStep(start, read, want, false);
        return Err(found.error);
      }
      if Core(found.value.spec) == Core(want.spec) {
        ReadStep(start, read, want, true);
        return Ok(());
      }
      r := Err(Conflict);
      var attempt := 0;
      while attempt < RETRY_STEPS && r == Err(Conflict)
        invariant attempt <= RETRY_STEPS && client.Valid()
        invariant r == Err(Conflict) ==> ReadOnly(start, client.Now()) && Mismatch(client.world, want)
        invariant r == Err(Conflict) && attempt > 0 ==>
            !Calm(start.script) && |client.script| + 1 + 2 * attempt <= |start.script|
        invariant attempt == 0 ==> client.script == read.script
        invariant r != Err(Conflict) ==> Step(start, client.Now(), want, r.Ok?)
        invariant CountKept(start.world, client.world, want.key)
      {
        r := RetryOnce(want, start);
        attempt := attempt + 1;
      }
      if r == Err(Conflict) {
        ReadStep(start, client.Now(), want, false);
      }
    }

    /** One attempt of the retried closure. */
    method RetryOnce(want: Want, ghost start: State) returns (r: Result<(), Failure>)
      requires client.Valid() && Fits(want.key.kind, want.spec) && want.key.kind == Deployment
      requires ReadOnly(start, client.Now()) && Mismatch(client.world, want)
      requires ValidWorld(start.world) && want.key in start.world.objects
      modifies client
      ensures r == Err(Conflict) ==>
        ReadOnly(start, client.Now()) && Mismatch(client.world, want) && !Calm(start.script)
      ensures r != Err(Conflict) ==> Step(start, client.Now(), want, r.Ok?)
      ensures CountKept(start.world, client.world, want.key)
      ensures r == Err(Conflict) ==> |client.script| + 2 <= |old(client.script)|
    {
      var found := client.Get(want.key);
      ghost var read := client.Now();
      ReadOnlyTransitive(start, old(client.Now()), read);
      assert DriftedAt(old(client.world), read.world, want.key) && DriftedAt(start.world, read.world, want.key);
      DriftKeepsMismatch(old(client.world), read.world, want);
      if found.Err? {
        ReadStep(start, read, want, false);
        return Err(found.error);
      }
      var latest := found.value;
      r := client.Update(want.key, latest.(spec := want.spec.(replicas := latest.spec.replicas)));
      if r == Err(Conflict) {
        ReadOnlyTransitive(start, read, client.Now());
        assert DriftedAt(read.world, client.world, want.key);
        DriftKeepsMismatch(read.world, client.world, want);
        return;
      }
      RepairStep(start, read, client.Now(), want, r.Ok?);
      if client.writes == read.writes {
        assert DriftedAt(read.world, client.world, want.key);
      }
    }

    /** The identity the buffer service runs under. */
    method EnsureAccess(s: ServiceId, config: Config, ghost start: State) returns (r: Result<(), Failure>)
      requires client.Valid() && CpuSet(config) && Progress(start, client.Now(), Plan(s, config), 0)
      modifies client
      ensures client.Valid() && Progress(start, client.Now(), Plan(s, config), if r.Ok? then 2 else 0)
      ensures Calm(start.script) ==> r.Ok?
    {
      ghost var plan, at := Plan(s, config), client.Now();
      PlanIsDistinct(s, config);
      PlanParts(s, config);
      r := EnsureExists(AccountWant(s));
      Advance(start, at, client.Now(), plan, 0, r.Ok?);
      if r.Err? { return; }
      at := client.Now();
      r := EnsureExists(BindingWant(s));
      Advance(start, at, client.Now(), plan, 1, r.Ok?);
    }

    /** Router and consumer. */
    method EnsureBufferService(s: ServiceId, config: Config, ghost start: State) returns (r: Result<(), Failure>)
      requires client.Valid() && CpuSet(config) && Progress(start, client.Now(), Plan(s, config), 2)
      modifies client
      ensures client.Valid() && Progress(start, client.Now(), Plan(s, config), if r.Ok? then 6 else 0)
      ensures Calm(start.script) ==> r.Ok?
    {
      ghost var plan, at := Plan(s, config), client.Now();
      PlanIsDistinct(s, config);
      PlanParts(s, config);
      r := EnsureDeployment(DeploymentWant(s, RouterComponent, config.router));
      Advance(start, at, client.Now(), plan, 2, r.Ok?);
      if r.Err? { return; }
      at := client.Now();
      r := EnsureService(ServiceWant(s, RouterComponent));
      Advance(start, at, client.Now(), plan, 3, r.Ok?);
      if r.Err? { return; }
      at := client.Now();
      r := EnsureDeployment(DeploymentWant(s, ConsumerComponent, config.consumer));
      Advance(start, at, client.Now(), plan, 4, r.Ok?);
      if r.Err? { return; }
      at := client.Now();
      r := EnsureService(ServiceWant(s, ConsumerComponent));
      Advance(start, at, client.Now(), plan, 5, r.Ok?);
    }

    /** The autoscaling of router and consumer. */
    method EnsureScaling(s: ServiceId, config: Config, ghost start: State) returns (r: Result<(), Failure>)
      requires client.Valid() && CpuSet(config) && Progress(start, client.Now(), Plan(s, config), 6)
      modifies client
      ensures client.Valid() && Progress(start, client.Now(), Plan(s, config), if r.Ok? then 8 else 0)
      ensures Calm(start.script) ==> r.Ok?
    {
      ghost var plan, at := Plan(s, config), client.Now();
      PlanIsDistinct(s, config);
      PlanParts(s, config);
      r := EnsureSpec(RouterScaledWant(s, config.router.autoscaling));
      Advance(start, at, client.Now(), plan, 6, r.Ok?);
      if r.Err? { return; }
      at := client.Now();
      r := EnsureSpec(ConsumerScaledWant(s, config.consumer.autoscaling));
      Advance(start, at, client.Now(), plan, 7, r.Ok?);
    }

    /** The autoscaling of the three flavours. */
    method EnsureFlavours(s: ServiceId, config: Config, ghost start: State) returns (r: Result<(), Failure>)
      requires client.Valid() && CpuSet(config) && Progress(start, client.Now(), Plan(s, config), 8)
      modifies client
      ensures client.Valid() && Progress(start, client.Now(), Plan(s, config), if r.Ok? then 11 else 0)
      ensures Calm(start.script) ==> r.Ok?
    {
      ghost var plan := Plan(s, config);
      PlanIsDistinct(s, config);
      PlanParts(s, config);
      r := Ok(());
      for i := 0 to |FLAVOURS|
        invariant r.Ok? && client.Valid() && Progress(start, client.Now(), plan, 8 + i)
      {
        ghost var at := client.Now();
        r := EnsureSpec(FlavourScaledWant(s, FLAVOURS[i], config.target));
        Advance(start, at, client.Now(), plan, 8 + i, r.Ok?);
        if r.Err? { return; }
      }
    }

    /** Destination rule and virtual service. */
    method EnsureRouting(s: ServiceId, config: Config, ghost start: State) returns (r: Result<(), Failure>)
      requires client.Valid() && CpuSet(config) && Progress(start, client.Now(), Plan(s, config), 11)
      modifies client
      ensures client.Valid() && Progress(start, client.Now(), Plan(s, config), if r.Ok? then 13 else 0)
      ensures Calm(start.script) ==> r.Ok?
    {
      ghost var plan, at := Plan(s, config), client.Now();
      PlanIsDistinct(s, config);
      PlanParts(s, config);
      r := EnsureSpec(RuleWant(s));
      Advance(start, at, client.Now(), plan, 11, r.Ok?);
      if r.Err? { return; }
      at := client.Now();
      r := EnsureSpec(RoutesWant(s));
      Advance(start, at, client.Now(), plan, 12, r.Ok?);
    }

    /** Step 4 of `Reconcile`: everything in order, stopping at the first error. */
    method EnsureAll(s: ServiceId, config: Config) returns (r: Result<(), Failure>)
      requires client.Valid() && CpuSet(config)
      modifies client
      ensures client.Valid() && Progress(old(client.Now()), client.Now(), Plan(s, config), if r.Ok? then 13 else 0)
      ensures Calm(old(client.script)) ==> r.Ok?
    {
      ghost var start := client.Now();
      StartProgress(start, Plan(s, config));
      r := EnsureAccess(s, config, start);
      if r.Err? { return; }
      r := EnsureBufferService(s, config, start);
      if r.Err? { return; }
      r := EnsureScaling(s, config, start);
      if r.Err? { return; }
      r := EnsureFlavours(s, config, start);
      if r.Err? { return; }
      r := EnsureRouting(s, config, start);
    }

    /** `cleanupResources`: every failure is only logged; `failed` collects them. */
    method Cleanup(s: ServiceId) returns (failed: set<Key>)
      requires client.Valid()
      modifies client
      ensures client.Valid() && CleanedUp(old(client.Now()), client.Now(), s, failed)
    {
      hide Cleaning;
      hide KeySet;
      hide CleanupKeys;
      hide ManagedSet;
      ghost var start := client.Now();
      var keys := CleanupKeys(s);
      failed := {};
      StartCleanup(start, KeySet(keys));
      EmptyKeys(keys);
      for i := 0 to |keys|
        invariant client.Valid() && Cleaning(start, client.Now(), KeySet(keys), KeySet(keys[..i]), failed)
      {
        NextKey(keys, i);
        failed := DeleteOne(keys[i], failed, start, KeySet(keys), KeySet(keys[..i]));
      }
      CleanupCoversManaged(s);
      assert keys[..|keys|] == keys;
    }

    /** One of the deletions; its failure is noted. */
    method DeleteOne(k: Key, failed: set<Key>, ghost start: State, ghost keys: set<Key>, ghost gone: set<Key>)
      returns (r: set<Key>)
      requires client.Valid() && k in keys && Cleaning(start, client.Now(), keys, gone, failed)
      modifies client
      ensures client.Valid() && Cleaning(start, client.Now(), keys, gone + {k}, r)
    {
      hide Cleaning;
      ghost var at := client.Now();
      var answer := client.Delete(k);
      var fails := answer.Err? && answer != Err(NotFound);
      assert Erasable({k}, client.deletable) == if k.kind in client.deletable then {k} else {};
      AdvanceCleanup(start, at, client.Now(), keys, gone, k, failed, fails);
      r := failed + if fails then {k} else {};
    }

    /** One reconcile at instant `now`; `listing` is the answer of the List call. */
    method Reconcile(s: ServiceId, listing: Result<seq<Schedule>, Failure>, now: int)
      returns (r: Result<Option<int>, Failure>)
      requires client.Valid()
      requires listing.Ok? && listing.value != [] ==> CpuSet(listing.value[0].config)
      modifies client
      ensures client.Valid() && (client.script == [] || |client.script| < |old(client.script)|)
      ensures Reconciled(old(client.Now()), client.Now(), s, listing, now, r)
    {
      hide Progress;
      hide CleanedUp;
      hide Plan;
      hide DriftedBut;
      hide ManagedSet;
      hide ValidWorld;
      hide CountsRespected;
      ghost var start := client.Now();
      var svc := client.Get(ServiceKey(s));
      ghost var read := client.Now();
      ServiceIsRead(start, read, s);
      if svc.Err? {
        if listing.Ok? && listing.value != [] {
          ReadOnlyIsProgress(start, read, Plan(s, listing.value[0].config));
        }
        return if svc.error == NotFound then Ok(None) else Err(svc.error);
      }
      if !HasEnableLabel(svc.value.labels) {
        var failed := Cleanup(s);
        CleanedUpAfterRead(start, read, client.Now(), s, failed);
        return Ok(None);
      }
      if listing.Err? {
        return Err(listing.error);
      }
      if listing.value == [] {
        return Ok(Timer(DEFAULT_REQUEUE));
      }
      var schedule := listing.value[0];
      var done := EnsureAll(s, schedule.config);
      ProgressAfterRead(start, read, client.Now(), Plan(s, schedule.config), if done.Ok? then 13 else 0);
      if done.Err? {
        return Err(done.error);
      }
      if schedule.validUntil.Some? {
        var delay := schedule.validUntil.value - now;
        if delay < 0 {
          delay := 0;
        }
        return Ok(Timer(delay));
      }
      r := Ok(None);
    }

    /** The controller runtime calls `Reconcile` again and again, with whatever the List call answers. */
    method Repeat(s: ServiceId, config: Config, passes: seq<Pass>)
      requires client.Valid() && Enabled(client.world, s) && CpuSet(config)
      requires forall i :: 0 <= i < |passes| ==> Steady(passes[i], config)
      modifies client
      ensures client.Valid() && Progress(old(client.Now()), client.Now(), Plan(s, config), 0)
      ensures client.writes <= old(client.writes) + 13
      ensures |passes| > |old(client.script)| && (forall i :: 0 <= i < |passes| ==> Listed(passes[i])) ==>
        Missing(client.world, Plan(s, config)) == 0
      ensures BindingWant(s).key in client.world.objects ==>
        (client.world.objects[BindingWant(s).key].spec == BindingWant(s).spec
         <==> BindsOrLacks(old(client.world), s))
    {
      ghost var start, plan := client.Now(), Plan(s, config);
      StartProgress(start, plan);
      for i := 0 to |passes|
        invariant client.Valid() && Enabled(client.world, s) && Progress(start, client.Now(), plan, 0)
        invariant client.script == [] || |client.script| + i <= |start.script|
        invariant i > |start.script| && (forall j :: 0 <= j < i ==> Listed(passes[j])) ==>
            Missing(client.world, plan) == 0
      {
        ghost var at := client.Now();
        var r := Reconcile(s, passes[i].listing, passes[i].now);
        PassMakesProgress(at, client.Now(), s, config, passes[i], r);
        ProgressTransitive(start, at, client.Now(), plan, 0, 0);
        StaysEnabled(at, client.Now(), s, config);
      }
      if BindingWant(s).key in client.world.objects {
        BindingIsRightExactly(start, client.Now(), s, config, 0);
      }
    }
  }

  /** The run with two namespaces: on an empty store both passes finish, nothing is missing for the
      second service, and its account is not bound. */
  method BindInTwoNamespaces(s: ServiceId, t: ServiceId, config: Config) returns (w: World)
    requires CpuSet(config) && s.name == t.name && s.ns != t.ns
    ensures Missing(w, Plan(t, config)) == 0
    ensures BindingWant(t).key in w.objects && w.objects[BindingWant(t).key].spec == BindingWant(s).spec
    ensures BindingWant(s).spec != BindingWant(t).spec
  {
    var client := new Api(World(map[], 0, map[]), [], {});
    var reconciler := new Reconciler(client);
    ghost var start := client.Now();
    var first := reconciler.EnsureAll(s, config);
    ghost var between := client.Now();
    CalmStaysCalm(start, between, Plan(s, config), 13);
    var second := reconciler.EnsureAll(t, config);
    SharedBindingIsNeverRepaired(start, between, client.Now(), s, t, config, config, 13);
    SettledMeansNothingMissing(between, client.Now(), Plan(t, config));
    BindingsAreShared(s, t);
    w := client.world;
  }
}
