/** The API server as the operator meets it: typed objects with resource versions, calls that may
    fail before or after they took effect, and an autoscaler that moves replica counts meanwhile. */
module ApiServer {
  import opened Wrappers
  import opened OperatorNames

  // ---------------------------------------------------------------- objects

  /** What makes the autoscaler act: CPU use, the length or the backlog of one queue, the backlog of
      all buffered queues of a service, or forwarded requests. */
  datatype Trigger =
    | Cpu(utilization: int)
    | QueueLength(queueName: string)
    | Backlog(queueName: string)
    | AnyBacklog(ns: string, service: string)
    | Activity

  type Labels = map<string, string>

  /** The pod template; what only depends on the component is not repeated in it. */
  datatype Template = Template(
    component: Component, labels: Labels, account: string, target: string, debug: bool, resources: string)

  /** A named subset of a host's pods, those whose `carbonshift` label is `level`. */
  datatype Subset = Subset(name: string, level: string)

  /** Requests whose `x-carbonshift` header is `header` go to `subset`, all of them. */
  datatype HeaderRoute = HeaderRoute(header: string, subset: string)

  datatype Spec =
    | AccountSpec
    | BindingSpec(subject: string, subjectNs: string)
    | DeploymentSpec(replicas: Option<int>, selector: Labels, template: Template)
    | ServiceSpec(clusterIP: string, selector: Labels, ports: seq<int>)
    | ScaledSpec(target: string, cooldown: Option<int>, min: Option<int>, max: Option<int>, triggers: seq<Trigger>)
    | RuleSpec(host: string, subsets: seq<Subset>)
    | RoutesSpec(host: string, routes: seq<HeaderRoute>)

  predicate Fits(kind: Kind, spec: Spec) {
    match kind
    case ServiceAccount => spec.AccountSpec?
    case ClusterRoleBinding => spec.BindingSpec?
    case Deployment => spec.DeploymentSpec?
    case Service => spec.ServiceSpec?
    case ScaledObject => spec.ScaledSpec?
    case DestinationRule => spec.RuleSpec?
    case VirtualService => spec.RoutesSpec?
  }

  datatype Obj = Obj(spec: Spec, labels: Labels, version: nat)

  /** The stored objects, the last resource version given out, and what the autoscaler last asked for. */
  datatype World = World(objects: map<Key, Obj>, clock: nat, scaled: map<Key, int>)

  ghost predicate ValidWorld(w: World) {
    forall k :: k in w.objects ==> Fits(k.kind, w.objects[k].spec) && w.objects[k].version <= w.clock
  }

  /** Every deployment the autoscaler has set still has the count it was set to. */
  ghost predicate CountsRespected(w: World) {
    forall k :: k in w.scaled ==>
      k in w.objects && w.objects[k].spec.DeploymentSpec? && w.objects[k].spec.replicas == Some(w.scaled[k])
  }

  // ---------------------------------------------------------------- the autoscaler

  datatype Move = Move(key: Key, replicas: int)

  function Scale(w: World, m: Move): World {
    if m.key in w.objects && w.objects[m.key].spec.DeploymentSpec? then
      var o := w.objects[m.key];
      World(w.objects[m.key := Obj(o.spec.(replicas := Some(m.replicas)), o.labels, w.clock + 1)],
            w.clock + 1, w.scaled[m.key := m.replicas])
    else w
  }

  function ScaleAll(w: World, moves: seq<Move>): World
    decreases |moves|
  {
    if moves == [] then w else ScaleAll(Scale(w, moves[0]), moves[1..])
  }

  // ---------------------------------------------------------------- what changed between two worlds

  /** Nothing happened at `k`. */
  ghost predicate SameAt(a: World, b: World, k: Key) {
    && (k in a.objects <==> k in b.objects) && (k in a.objects ==> a.objects[k] == b.objects[k])
    && (k in a.scaled <==> k in b.scaled) && (k in a.scaled ==> a.scaled[k] == b.scaled[k])
  }

  /** The autoscaler, and nobody else, changed the deployment at `k`. */
  ghost predicate ScaledAt(a: World, b: World, k: Key) {
    && k in a.objects && k in b.objects && k in b.scaled && a.objects[k].spec.DeploymentSpec?
    && b.objects[k].version > a.clock && b.objects[k].labels == a.objects[k].labels
    && b.objects[k].spec == a.objects[k].spec.(replicas := Some(b.scaled[k]))
  }

  ghost predicate DriftedAt(a: World, b: World, k: Key) {
    SameAt(a, b, k) || ScaledAt(a, b, k)
  }

  /** Outside these keys only the autoscaler changed anything. */
  ghost predicate DriftedBut(a: World, b: World, keys: set<Key>) {
    a.clock <= b.clock && forall k :: k !in keys ==> DriftedAt(a, b, k)
  }

  ghost predicate SameBut(a: World, b: World, keys: set<Key>) {
    forall k :: k !in keys ==> SameAt(a, b, k)
  }

  lemma DriftedTransitive(a: World, b: World, c: World, k: Key)
    requires a.clock <= b.clock && DriftedAt(a, b, k) && DriftedAt(b, c, k)
    ensures DriftedAt(a, c, k)
  {
  }

  lemma DriftedButTransitive(a: World, b: World, c: World, keys: set<Key>, more: set<Key>)
    requires DriftedBut(a, b, keys) && DriftedBut(b, c, more) && more <= keys
    ensures DriftedBut(a, c, keys)
  {
    hide DriftedAt;
    forall k | k !in keys ensures DriftedAt(a, c, k) {
      DriftedTransitive(a, b, c, k);
    }
  }

  lemma SameIsDrifted(a: World, b: World, keys: set<Key>)
    requires SameBut(a, b, keys) && a.clock <= b.clock
    ensures DriftedBut(a, b, keys)
  {
    hide SameAt;
  }

  lemma {:induction false} MovesDrift(w: World, moves: seq<Move>)
    requires ValidWorld(w)
    ensures ValidWorld(ScaleAll(w, moves))
    ensures DriftedBut(w, ScaleAll(w, moves), {})
    ensures CountsRespected(w) ==> CountsRespected(ScaleAll(w, moves))
    decreases |moves|
  {
    if moves == [] {
    } else {
      var mid := Scale(w, moves[0]);
      MoveDrifts(w, moves[0]);
      MovesDrift(mid, moves[1..]);
      hide ValidWorld;
      hide CountsRespected;
      hide DriftedAt;
      DriftedButTransitive(w, mid, ScaleAll(mid, moves[1..]), {}, {});
    }
  }

  lemma MoveDrifts(w: World, m: Move)
    requires ValidWorld(w)
    ensures ValidWorld(Scale(w, m)) && DriftedBut(w, Scale(w, m), {})
    ensures CountsRespected(w) ==> CountsRespected(Scale(w, m))
  {
  }

  // ---------------------------------------------------------------- the operator's writes

  /** `spec` stored under `k` with a new resource version. */
  function Put(w: World, k: Key, spec: Spec, labels: Labels): World {
    World(w.objects[k := Obj(spec, labels, w.clock + 1)], w.clock + 1, w.scaled)
  }

  function Remove(w: World, k: Key): World {
    World(w.objects - {k}, w.clock, w.scaled - {k})
  }

  /** Replacing `before` by `after` leaves a deployment's count alone. */
  predicate KeepsCount(before: Spec, after: Spec) {
    before.DeploymentSpec? ==> after.DeploymentSpec? && after.replicas == before.replicas
  }

  lemma PutKeeps(w: World, k: Key, spec: Spec, labels: Labels)
    requires ValidWorld(w) && Fits(k.kind, spec)
    ensures ValidWorld(Put(w, k, spec, labels)) && SameBut(w, Put(w, k, spec, labels), {k})
    ensures CountsRespected(w) && (k in w.objects ==> KeepsCount(w.objects[k].spec, spec))
      ==> CountsRespected(Put(w, k, spec, labels))
  {
  }

  lemma RemoveKeeps(w: World, k: Key)
    requires ValidWorld(w)
    ensures ValidWorld(Remove(w, k)) && SameBut(w, Remove(w, k), {k})
    ensures CountsRespected(w) ==> CountsRespected(Remove(w, k))
  {
  }

  lemma DriftThenWrite(a: World, mid: World, b: World, k: Key)
    requires DriftedBut(a, mid, {}) && SameBut(mid, b, {k}) && mid.clock <= b.clock
    ensures DriftedBut(a, b, {k})
  {
    SameIsDrifted(mid, b, {k});
    hide DriftedAt;
    assert DriftedBut(a, mid, {k});
    DriftedButTransitive(a, mid, b, {k}, {k});
  }

  // ---------------------------------------------------------------- calls

  datatype Failure = NotFound | AlreadyExists | Conflict | Forbidden | Broken

  /** How a call goes: normally, not at all, or applied with the answer lost. */
  datatype Fate = Normal | Lost | AppliedButLost

  /** What happens around one call: the autoscaler's moves before it, and its fate. */
  datatype Turn = Turn(moves: seq<Move>, fate: Fate)

  /** No fault and no autoscaler from here on. */
  ghost predicate Calm(script: seq<Turn>) {
    forall i :: 0 <= i < |script| ==> script[i] == Turn([], Normal)
  }

  /** What the operator's side can see of a run: the world, what is still to happen, how many of its
      writes took effect, and the kinds its role lets it delete. */
  datatype State = State(world: World, script: seq<Turn>, writes: nat, deletable: set<Kind>)

  /** What every call keeps, whatever happens around it. */
  ghost predicate Kept(a: State, b: State) {
    && ValidWorld(b.world) && a.writes <= b.writes && |b.script| <= |a.script|
    && (Calm(a.script) ==> Calm(b.script)) && b.deletable == a.deletable
  }

  ghost predicate CountsKept(a: World, b: World) {
    CountsRespected(a) ==> CountsRespected(b)
  }

  /** No count the autoscaler has set is forgotten. */
  ghost predicate Remembers(a: World, b: World) {
    forall k :: k in a.scaled ==> k in b.scaled
  }

  /** `script` says what will happen around the coming calls; past its end everything is calm. */
  class Api {
    var world: World
    var script: seq<Turn>
    var writes: nat
    const deletable: set<Kind>

    ghost predicate Valid()
      reads this
    {
      ValidWorld(world)
    }

    ghost function Now(): State
      reads this
    {
      State(world, script, writes, deletable)
    }

    constructor (world: World, script: seq<Turn>, deletable: set<Kind>)
      requires ValidWorld(world)
      ensures Valid() && this.world == world && this.script == script && writes == 0 && this.deletable == deletable
    {
      this.world := world;
      this.deletable := deletable;
      this.script := script;
      writes := 0;
    }

    /** What comes before the server looks at a call. */
    method Turnover() returns (fate: Fate)
      requires Valid()
      modifies this
      ensures Kept(old(Now()), Now()) && writes == old(writes) && (script == [] || |script| < |old(script)|)
      ensures DriftedBut(old(world), world, {})
      ensures CountsKept(old(world), world)
      ensures Calm(old(script)) ==> fate == Normal && world == old(world)
    {
      hide ValidWorld;
      hide CountsRespected;
      hide DriftedBut;
      if script == [] {
        MovesDrift(world, []);
        assert ScaleAll(world, []) == world;
        return Normal;
      }
      var turn := script[0];
      script := script[1..];
      MovesDrift(world, turn.moves);
      world := ScaleAll(world, turn.moves);
      fate := turn.fate;
    }

    method Get(k: Key) returns (r: Result<Obj, Failure>)
      requires Valid()
      modifies this
      ensures Kept(old(Now()), Now()) && writes == old(writes) && (script == [] || |script| < |old(script)|)
      ensures DriftedBut(old(world), world, {})
      ensures CountsKept(old(world), world)
      ensures r.Ok? ==> k in world.objects && r.value == world.objects[k]
      ensures r == Err(NotFound) ==> k !in world.objects
      ensures Calm(old(script)) ==> world == old(world) && r != Err(Broken)
      ensures r.Err? ==> r.error == NotFound || r.error == Broken
    {
      var fate := Turnover();
      r := if fate != Normal then Err(Broken)
           else if k in world.objects then Ok(world.objects[k]) else Err(NotFound);
    }

    method Create(k: Key, spec: Spec, labels: Labels) returns (r: Result<(), Failure>)
      requires Valid() && Fits(k.kind, spec)
      modifies this
      ensures Kept(old(Now()), Now()) && writes <= old(writes) + 1
      ensures writes == old(writes) ==> DriftedBut(old(world), world, {}) && r.Err?
      ensures writes == old(writes) + 1 ==>
        && DriftedBut(old(world), world, {k}) && k !in old(world).objects
        && k in world.objects && world.objects[k].spec == spec && world.objects[k].labels == labels
        && (k in world.scaled <==> k in old(world).scaled)
      ensures CountsKept(old(world), world) && r != Err(Conflict)
      ensures Calm(old(script)) ==> SameBut(old(world), world, {k}) && (k !in old(world).objects ==> r.Ok?)
    {
      var fate := Turnover();
      assert DriftedAt(old(world), world, k);
      if fate == Lost {
        return Err(Broken);
      }
      if k in world.objects {
        return Err(AlreadyExists);
      }
      PutKeeps(world, k, spec, labels);
      DriftThenWrite(old(world), world, Put(world, k, spec, labels), k);
      world := Put(world, k, spec, labels);
      writes := writes + 1;
      r := if fate == AppliedButLost then Err(Broken) else Ok(());
    }

    /** `o` carries the version it was read at; the write is refused when that is no longer current. */
    method Update(k: Key, o: Obj) returns (r: Result<(), Failure>)
      requires Valid() && Fits(k.kind, o.spec) && o.version <= world.clock
      modifies this
      ensures Kept(old(Now()), Now()) && writes <= old(writes) + 1 && (script == [] || |script| < |old(script)|)
      ensures writes == old(writes) ==> DriftedBut(old(world), world, {}) && r.Err?
      ensures writes == old(writes) + 1 ==>
        && DriftedBut(old(world), world, {k}) && r != Err(Conflict)
        && k in old(world).objects && old(world).objects[k].version == o.version
        && k in world.objects && world.objects[k].spec == o.spec && world.objects[k].labels == o.labels
        && (k in world.scaled <==> k in old(world).scaled)
      ensures (k in old(world).objects ==> KeepsCount(old(world).objects[k].spec, o.spec)) ==>
        CountsKept(old(world), world)
      ensures Calm(old(script)) ==>
        && SameBut(old(world), world, {k})
        && (k in old(world).objects && old(world).objects[k].version == o.version ==> r.Ok?)
    {
      var fate := Turnover();
      assert DriftedAt(old(world), world, k);
      if fate == Lost {
        return Err(Broken);
      }
      if k !in world.objects {
        return Err(NotFound);
      }
      if world.objects[k].version != o.version {
        return Err(Conflict);
      }
      assert SameAt(old(world), world, k);
      PutKeeps(world, k, o.spec, o.labels);
      DriftThenWrite(old(world), world, Put(world, k, o.spec, o.labels), k);
      world := Put(world, k, o.spec, o.labels);
      writes := writes + 1;
      r := if fate == AppliedButLost then Err(Broken) else Ok(());
    }

    /** The role is looked at before the object. */
    method Delete(k: Key) returns (r: Result<(), Failure>)
      requires Valid()
      modifies this
      ensures Kept(old(Now()), Now())
      ensures DriftedBut(old(world), world, if k.kind in deletable then {k} else {})
      ensures k in world.objects ==> k in old(world).objects
      ensures r.Ok? || r == Err(NotFound) ==> k !in world.objects
      ensures k.kind !in deletable ==> r == Err(Forbidden) || r == Err(Broken)
      ensures CountsKept(old(world), world)
      ensures Calm(old(script)) && k.kind in deletable ==>
        SameBut(old(world), world, {k}) && (r.Ok? || r == Err(NotFound))
      ensures Calm(old(script)) && k.kind !in deletable ==> world == old(world)
    {
      var fate := Turnover();
      assert DriftedAt(old(world), world, k);
      if fate == Lost {
        return Err(Broken);
      }
      if k.kind !in deletable {
        return Err(Forbidden);
      }
      if k !in world.objects {
        return Err(NotFound);
      }
      RemoveKeeps(world, k);
      DriftThenWrite(old(world), world, Remove(world, k), k);
      world := Remove(world, k);
      writes := writes + 1;
      r := if fate == AppliedButLost then Err(Broken) else Ok(());
    }
  }
}
