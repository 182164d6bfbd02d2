/** The two reconcilers that converge a cluster's space grants: one renders a space's egress and ingress
    policies from its wish, the other sweeps an environment's namespace. A pass is one atomic step here;
    every API call and every lease fence inside it may go either way. */
module SpaceGrants {
  import opened Wrappers
  import opened ApplyCache

  // ----- the cluster's vocabulary -----

  datatype Ns = SpaceNs(space: string) | EnvNs(env: string)
  /** Policy names: the egress half's fixed name, an ingress half's name (it carries the space's
      namespace), and everything else. */
  datatype Name = SpaceEnv | SpaceGrant(space: string) | Other(name: string)
  datatype Key = Key(ns: Ns, name: Name)
  datatype Body = ToEnv(env: string, owner: string, uid: string) | FromSpace(space: string, owner: string, uid: string)

  /** A wish: which environment a space follows. It is named after its own namespace. */
  datatype Space = Space(name: string, uid: Option<string>, owner: string, environment: string)
  /** The two watch caches; None until the first list. Environments carry their region. */
  datatype Caches = Caches(spaces: Option<map<string, Space>>, envs: Option<map<string, string>>, region: string)

  datatype Call = Applies(key: Key) | Asks(key: Key) | Deletes(key: Key)

  /** The cluster's policies with the apply memory, the memory of each space's last rendered choice
      (its uid and environment), whether this process leads, and every request made so far. */
  datatype World = World(store: Store<Key, Body>, choice: map<string, (string, string)>, leading: bool,
      calls: seq<Call>)

  datatype Result = Done | Unknown | Fenced | Failed

  function Egress(space: string): Key {
    Key(SpaceNs(space), SpaceEnv)
  }

  function Ingress(env: string, space: string): Key {
    Key(EnvNs(env), SpaceGrant(space))
  }

  /** What the passing or failing of each request of one space pass is. */
  datatype PassScript = PassScript(fence: bool, egress: Requests, ingress: Requests, get: bool,
                                   fenceEgress: bool, dropEgress: Net, fenceIngress: bool, dropIngress: Net)

  // ----- one space's pass -----

  /** Nothing is forgotten from an unlisted cache. */
  function Forgotten(choice: map<string, (string, string)>, c: Caches): map<string, (string, string)> {
    if c.spaces.None? then choice else map k | k in choice && k in c.spaces.value :: choice[k]
  }

  /** The environment a wish renders: it must exist and be in this region. */
  function Resolved(c: Caches, s: Space): Option<string>
    requires c.envs.Some?
  {
    if s.environment in c.envs.value && c.envs.value[s.environment] == c.region then Some(s.environment) else None
  }

  /** The remembered choice of this very space, not of one deleted under its name. */
  function Previous(w: World, s: Space): Option<string>
    requires s.uid.Some?
  {
    if s.name in w.choice && w.choice[s.name].0 == s.uid.value then Some(w.choice[s.name].1) else None
  }

  function FenceStep(w: World, ok: bool): (World, bool) {
    (w.(leading := w.leading && ok), w.leading && ok)
  }

  function EnsureStep(w: World, key: Key, body: Body, now: nat, r: Requests): (World, bool) {
    var (store, ok) := Ensured(w.store, key, body, now, r);
    (w.(store := store, calls := if Fresh(w.store, key, body, now) then w.calls else w.calls + [Applies(key)]), ok)
  }

  function DropStep(w: World, key: Key, net: Net): (World, bool) {
    var (store, ok) := Dropped(w.store, key, net);
    (w.(store := store, calls := w.calls + [Deletes(key)]), ok)
  }

  function EgressBody(s: Space): Body
    requires s.uid.Some?
  {
    ToEnv(s.environment, s.owner, s.uid.value)
  }

  function IngressBody(s: Space): Body
    requires s.uid.Some?
  {
    FromSpace(s.name, s.owner, s.uid.value)
  }

  /** Both halves of a wish that renders. */
  function Render(w: World, s: Space, now: nat, o: PassScript): (World, Result)
    requires s.uid.Some?
  {
    var (w1, ok1) := EnsureStep(w, Egress(s.name), EgressBody(s), now, o.egress);
    if !ok1 then (w1, Failed)
    else
      var (w2, ok2) := EnsureStep(w1, Ingress(s.environment, s.name), IngressBody(s), now, o.ingress);
      (w2, if ok2 then Done else Failed)
  }

  /** A wish that renders nothing: the egress half goes, once. */
  function Retract(w: World, s: Space, prev: Option<string>, o: PassScript): (World, Result) {
    var key := Egress(s.name);
    if prev == Some("") then (w, Done)
    else if prev.None? && !o.get then (w.(calls := w.calls + [Asks(key)]), Failed)
    else
      var w1 := if prev.None? then w.(calls := w.calls + [Asks(key)]) else w;
      if prev.None? && key !in w.store.objects then (w1, Done)
      else
        var (w2, ok) := FenceStep(w1, o.fenceEgress);
        if !ok then (w2, Fenced)
        else
          var (w3, dropped) := DropStep(w2, key, o.dropEgress);
          (w3, if dropped then Done else Failed)
  }

  /** The one delete made from memory: the ingress half where the space pointed last. */
  function Leave(w: World, s: Space, prev: Option<string>, o: PassScript): (World, Result) {
    if prev.None? || prev.value == "" || prev.value == s.environment then (w, Done)
    else
      var (w1, ok) := FenceStep(w, o.fenceIngress);
      if !ok then (w1, Fenced)
      else
        var (w2, dropped) := DropStep(w1, Ingress(prev.value, s.name), o.dropIngress);
        (w2, if dropped then Done else Failed)
  }

  function SpacePass(w: World, c: Caches, s: Space, now: nat, o: PassScript): (World, Result) {
    var w0 := w.(choice := Forgotten(w.choice, c));
    if c.envs.None? then (w0, Unknown)
    else
      var (w1, ok) := FenceStep(w0, o.fence);
      if !ok then (w1, Fenced)
      else if s.uid.None? then (w1, Failed)
      else
        var prev, env := Previous(w1, s), Resolved(c, s);
        var (w2, r2) := if env.Some? then Render(w1, s, now, o) else Retract(w1, s, prev, o);
        if r2 != Done then (w2, r2)
        else
          var (w3, r3) := Leave(w2, s, prev, o);
          if r3 != Done then (w3, r3)
          else (w3.(choice := w3.choice[s.name := (s.uid.value, if env.Some? then env.value else "")]), Done)
  }

  // ----- one environment's sweep -----

  /** The spaces whose grant belongs in this environment. */
  function KeptHere(c: Caches, env: string): set<string>
    requires c.spaces.Some?
  {
    set n | n in c.spaces.value && c.spaces.value[n].environment == env
  }

  /** A listed policy the sweep deletes. */
  predicate Orphan(key: Key, keep: set<string>, young: set<Key>) {
    key.name.SpaceGrant? && key.name.space !in keep && key !in young
  }

  /** The deletion loop over a listing; each orphan costs one fence and one delete. */
  function SweepLoop(w: World, listing: seq<Key>, keep: set<string>, young: set<Key>, o: seq<(bool, Net)>)
    : (World, Result)
    decreases |listing|
  {
    if listing == [] then (w, Done)
    else if !Orphan(listing[0], keep, young) then SweepLoop(w, listing[1..], keep, young, o)
    else
      var (fence, net) := if o == [] then (true, Reliable) else o[0];
      var (w1, ok) := FenceStep(w, fence);
      if !ok then (w1, Fenced)
      else
        var (w2, dropped) := DropStep(w1, listing[0], net);
        if !dropped then (w2, Failed)
        else SweepLoop(w2, listing[1..], keep, young, if o == [] then [] else o[1..])
  }

  /** The listing names each policy of the namespace. */
  predicate Lists(objects: map<Key, Body>, env: string, listing: seq<Key>) {
    && (forall k :: k in listing ==> k in objects && k.ns == EnvNs(env))
    && forall k :: k in objects && k.ns == EnvNs(env) ==> k in listing
  }

  function EnvSweep(w: World, c: Caches, listing: Option<seq<Key>>, env: string, young: set<Key>,
      o: seq<(bool, Net)>): (World, Result)
  {
    var w0 := w.(choice := Forgotten(w.choice, c));
    if c.spaces.None? then (w0, Unknown)
    else if listing.None? then (w0, Failed)
    else SweepLoop(w0, listing.value, KeptHere(c, env), young, o)
  }
}

/** The reconcilers as the process runs them: one object holding the memories, updated in place. */
module SpaceReconcilers {
  import opened Wrappers
  import opened ApplyCache
  import opened SpaceGrants

  class Reconciler {
    const cluster: Applier<Key, Body>
    var choice: map<string, (string, string)>
    var leading: bool
    ghost var calls: seq<Call>

    constructor (cluster: Applier<Key, Body>)
      ensures this.cluster == cluster && choice == map[] && !leading && calls == []
    {
      this.cluster, choice, leading, calls := cluster, map[], false, [];
    }

    ghost function State(): World
      reads this, cluster
    {
      World(cluster.State(), choice, leading, calls)
    }

    method MayWrite(fence: bool) returns (ok: bool)
      modifies this`leading
      ensures (State(), ok) == FenceStep(old(State()), fence)
    {
      leading := leading && fence;
      ok := leading;
    }

    method Ensure(key: Key, body: Body, now: nat, r: Requests) returns (ok: bool)
      modifies this`calls, cluster
      ensures (State(), ok) == EnsureStep(old(State()), key, body, now, r)
    {
      if !Fresh(cluster.State(), key, body, now) {
        calls := calls + [Applies(key)];
      }
      ok := cluster.Ensure(key, body, now, r);
    }

    method DropObject(key: Key, net: Net) returns (ok: bool)
      modifies this`calls, cluster
      ensures (State(), ok) == DropStep(old(State()), key, net)
    {
      calls := calls + [Deletes(key)];
      ok := cluster.DropObject(key, net);
    }

    method ForgetGoneSpaces(c: Caches)
      modifies this`choice
      ensures choice == Forgotten(old(choice), c)
    {
      if c.spaces.None? {
        return;
      }
      var live := c.spaces.value.Keys;
      choice := map k | k in choice && k in live :: choice[k];
    }

    method ReconcileSpace(c: Caches, s: Space, now: nat, o: PassScript) returns (r: Result)
      modifies this, cluster
      ensures (State(), r) == SpacePass(old(State()), c, s, now, o)
    {
      ForgetGoneSpaces(c);
      if c.envs.None? {
        return Unknown;
      }
      var ok := MayWrite(o.fence);
      if !ok {
        return Fenced;
      }
      if s.uid.None? {
        return Failed;
      }
      var prev := if s.name in choice && choice[s.name].0 == s.uid.value then Some(choice[s.name].1) else None;
      var env := Resolved(c, s);
      if env.Some? {
        r := RenderHalves(s, now, o);
      } else {
        r := RetractEgress(s, prev, o);
      }
      if r != Done {
        return r;
      }
      r := LeaveOld(s, prev, o);
      if r != Done {
        return r;
      }
      choice := choice[s.name := (s.uid.value, if env.Some? then env.value else "")];
    }

    method RenderHalves(s: Space, now: nat, o: PassScript) returns (r: Result)
      requires s.uid.Some?
      modifies this`calls, cluster
      ensures (State(), r) == Render(old(State()), s, now, o)
    {
      hide Ensured, Fresh;
      var ok := Ensure(Egress(s.name), EgressBody(s), now, o.egress);
      if !ok {
        return Failed;
      }
      ok := Ensure(Ingress(s.environment, s.name), IngressBody(s), now, o.ingress);
      r := if ok then Done else Failed;
    }

    method RetractEgress(s: Space, prev: Option<string>, o: PassScript) returns (r: Result)
      modifies this`calls, this`leading, cluster
      ensures (State(), r) == Retract(old(State()), s, prev, o)
    {
      hide Dropped;
      var act := prev != Some("");
      if prev.None? {
        calls := calls + [Asks(Egress(s.name))];
        if !o.get {
          return Failed;
        }
        act := Egress(s.name) in cluster.objects;
      }
      if act {
        var ok := MayWrite(o.fenceEgress);
        if !ok {
          return Fenced;
        }
        ok := DropObject(Egress(s.name), o.dropEgress);
        if !ok {
          return Failed;
        }
      }
      return Done;
    }

    method LeaveOld(s: Space, prev: Option<string>, o: PassScript) returns (r: Result)
      modifies this`calls, this`leading, cluster
      ensures (State(), r) == Leave(old(State()), s, prev, o)
    {
      hide Dropped;
      if prev.Some? && prev.value != "" && prev.value != s.environment {
        var ok := MayWrite(o.fenceIngress);
        if !ok {
          return Fenced;
        }
        ok := DropObject(Ingress(prev.value, s.name), o.dropIngress);
        if !ok {
          return Failed;
        }
      }
      return Done;
    }

    method ReconcileEnvironment(c: Caches, listing: Option<seq<Key>>, env: string, young: set<Key>, o: seq<(bool, Net)>)
      returns (r: Result)
      modifies this, cluster
      ensures (State(), r) == EnvSweep(old(State()), c, listing, env, young, o)
    {
      hide Dropped;
      ForgetGoneSpaces(c);
      if c.spaces.None? {
        return Unknown;
      }
      var keep := KeptHere(c, env);
      if listing.None? {
        return Failed;
      }
      var list, left := listing.value, o;
      ghost var swept := SweepLoop(State(), list, keep, young, o);
      while list != []
        invariant swept == SweepLoop(State(), list, keep, young, left)
        decreases |list|
      {
        var key := list[0];
        list := list[1..];
        if !Orphan(key, keep, young) {
          continue;
        }
        var (fence, net) := if left == [] then (true, Reliable) else left[0];
        left := if left == [] then [] else left[1..];
        var ok := MayWrite(fence);
        if !ok {
          return Fenced;
        }
        ok := DropObject(key, net);
        if !ok {
          return Failed;
        }
      }
      return Done;
    }
  }
}
