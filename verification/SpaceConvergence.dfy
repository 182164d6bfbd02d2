/** What the two reconcilers guarantee: the grants converge whatever happened before, a pass never
    undoes its own wish, a settled space is left alone, and exactly when an egress half is stranded. */
module SpaceConvergence {
  import opened Wrappers
  import opened ApplyCache
  import opened SpaceGrants

  // ----- any run of passes, sweeps, restarts and elections over fixed wishes -----

  datatype Event =
    | Pass(space: string, now: nat, script: PassScript)
    | Sweep(env: string, listing: Option<seq<Key>>, answers: seq<(bool, Net)>)
    | Restart
    | Lead(leading: bool)

  /** Both caches are listed, every space is named by its own name and carries a uid. */
  predicate Ready(c: Caches) {
    && c.spaces.Some? && c.envs.Some?
    && forall n :: n in c.spaces.value ==> c.spaces.value[n].name == n && c.spaces.value[n].uid.Some?
  }

  predicate Possible(w: World, c: Caches, e: Event)
    requires Ready(c)
  {
    match e
    case Pass(n, _, _) => n in c.spaces.value
    case Sweep(env, listing, _) => listing.Some? ==> Lists(w.store.objects, env, listing.value)
    case _ => true
  }

  /** No grant is young, and a restart empties both memories. */
  function Happen(w: World, c: Caches, e: Event): (World, Result)
    requires Ready(c) && Possible(w, c, e)
  {
    match e
    case Pass(n, now, o) => SpacePass(w, c, c.spaces.value[n], now, o)
    case Sweep(env, listing, o) => EnvSweep(w, c, listing, env, {}, o)
    case Restart => (World(Store(w.store.objects, map[]), map[], false, w.calls), Done)
    case Lead(leading) => (w.(leading := leading), Done)
  }

  ghost predicate IsHistory(worlds: seq<World>, c: Caches, events: seq<Event>) {
    && Ready(c) && |worlds| == |events| + 1
    && forall i :: 0 <= i < |events| ==>
         Possible(worlds[i], c, events[i]) && worlds[i + 1] == Happen(worlds[i], c, events[i]).0
  }

  /** The `i`-th event is a pass of `n` (a sweep of `env`) and it completes. */
  ghost predicate Passed(worlds: seq<World>, c: Caches, events: seq<Event>, n: string, i: nat)
    requires IsHistory(worlds, c, events)
  {
    i < |events| && events[i].Pass? && events[i].space == n && Happen(worlds[i], c, events[i]).1 == Done
  }

  ghost predicate Swept(worlds: seq<World>, c: Caches, events: seq<Event>, env: string, i: nat)
    requires IsHistory(worlds, c, events)
  {
    i < |events| && events[i].Sweep? && events[i].env == env && Happen(worlds[i], c, events[i]).1 == Done
  }

  predicate InRegion(c: Caches, env: string) {
    c.envs.Some? && env in c.envs.value && c.envs.value[env] == c.region
  }

  predicate Wanted(c: Caches, env: string, n: string)
    requires Ready(c)
  {
    n in KeptHere(c, env)
  }

  /** The grant of `n` in `env` is what the wishes ask for. */
  predicate Right(w: World, c: Caches, env: string, n: string)
    requires Ready(c)
  {
    if Wanted(c, env, n) then
      Ingress(env, n) in w.store.objects && w.store.objects[Ingress(env, n)] == IngressBody(c.spaces.value[n])
    else Ingress(env, n) !in w.store.objects
  }

  /** If the apply memory would skip the grant, the grant is there. */
  predicate Sound(w: World, c: Caches, env: string, n: string)
    requires Ready(c)
  {
    var key := Ingress(env, n);
    Wanted(c, env, n) && key in w.store.applied && w.store.applied[key].body == IngressBody(c.spaces.value[n]) ==>
      key in w.store.objects && w.store.objects[key] == IngressBody(c.spaces.value[n])
  }

  lemma CoherentIsSound(w: World, c: Caches, env: string, n: string)
    requires Ready(c) && Coherent(w.store)
    ensures Sound(w, c, env, n)
  {
  }

  // ----- single requests -----

  lemma EnsureStepKeeps(w: World, c: Caches, env: string, n: string, key: Key, body: Body, now: nat, r: Requests)
    requires Ready(c) && Sound(w, c, env, n)
    requires key == Ingress(env, n) ==> Wanted(c, env, n) && body == IngressBody(c.spaces.value[n])
    ensures var (t, ok) := EnsureStep(w, key, body, now, r);
            && Sound(t, c, env, n) && (Right(w, c, env, n) ==> Right(t, c, env, n))
            && (ok && key == Ingress(env, n) ==> Right(t, c, env, n))
  {
  }

  lemma DropStepKeeps(w: World, c: Caches, env: string, n: string, key: Key, net: Net)
    requires Ready(c) && Sound(w, c, env, n)
    requires key == Ingress(env, n) ==> !Wanted(c, env, n)
    ensures var (t, ok) := DropStep(w, key, net);
            && Sound(t, c, env, n) && (Right(w, c, env, n) ==> Right(t, c, env, n))
            && (ok && key == Ingress(env, n) ==> Right(t, c, env, n))
  {
  }

  // ----- whole passes -----

  lemma {:induction false} PassKeeps(w: World, c: Caches, env: string, n: string, x: string, now: nat, o: PassScript)
    requires Ready(c) && x in c.spaces.value && Sound(w, c, env, n)
    ensures var (t, r) := SpacePass(w, c, c.spaces.value[x], now, o);
            && Sound(t, c, env, n) && (Right(w, c, env, n) ==> Right(t, c, env, n))
            && (r == Done && x == n && Wanted(c, env, n) && InRegion(c, env) ==> Right(t, c, env, n))
  {
    hide Ensured, Dropped, EnsureStep, DropStep;
    var s := c.spaces.value[x];
    var w0 := w.(choice := Forgotten(w.choice, c));
    var (w1, ok) := FenceStep(w0, o.fence);
    if ok {
      var prev := Previous(w1, s);
      if Resolved(c, s).Some? {
        RenderKeeps(w1, c, env, n, s, now, o);
        LeaveKeeps(Render(w1, s, now, o).0, c, env, n, s, prev, o);
      } else {
        RetractKeeps(w1, c, env, n, s, prev, o);
        LeaveKeeps(Retract(w1, s, prev, o).0, c, env, n, s, prev, o);
      }
    }
  }

  lemma {:induction false} RenderKeeps(w: World, c: Caches, env: string, n: string, s: Space, now: nat, o: PassScript)
    requires Ready(c) && s.name in c.spaces.value && s == c.spaces.value[s.name] && Sound(w, c, env, n)
    ensures var (t, r) := Render(w, s, now, o);
            && Sound(t, c, env, n) && (Right(w, c, env, n) ==> Right(t, c, env, n))
            && (r == Done && s.name == n && s.environment == env ==> Right(t, c, env, n))
  {
    hide EnsureStep;
    EnsureStepKeeps(w, c, env, n, Egress(s.name), EgressBody(s), now, o.egress);
    var w1 := EnsureStep(w, Egress(s.name), EgressBody(s), now, o.egress).0;
    EnsureStepKeeps(w1, c, env, n, Ingress(s.environment, s.name), IngressBody(s), now, o.ingress);
  }

  lemma RetractKeeps(w: World, c: Caches, env: string, n: string, s: Space, prev: Option<string>, o: PassScript)
    requires Ready(c) && Sound(w, c, env, n)
    ensures var (t, r) := Retract(w, s, prev, o);
            Sound(t, c, env, n) && (Right(w, c, env, n) ==> Right(t, c, env, n))
  {
    hide DropStep;
    forall v: World | v.store == w.store
      ensures Sound(DropStep(v, Egress(s.name), o.dropEgress).0, c, env, n)
      ensures Right(w, c, env, n) ==> Right(DropStep(v, Egress(s.name), o.dropEgress).0, c, env, n)
    {
      DropStepKeeps(v, c, env, n, Egress(s.name), o.dropEgress);
    }
  }

  lemma LeaveKeeps(w: World, c: Caches, env: string, n: string, s: Space, prev: Option<string>, o: PassScript)
    requires Ready(c) && s.name in c.spaces.value && s == c.spaces.value[s.name] && Sound(w, c, env, n)
    ensures var (t, r) := Leave(w, s, prev, o);
            Sound(t, c, env, n) && (Right(w, c, env, n) ==> Right(t, c, env, n))
  {
    hide DropStep;
    if prev.Some? && prev.value != "" && prev.value != s.environment {
      var w1 := FenceStep(w, o.fenceIngress).0;
      DropStepKeeps(w1, c, env, n, Ingress(prev.value, s.name), o.dropIngress);
    }
  }

  lemma {:induction false} SweepKeeps(w: World, c: Caches, env: string, n: string, at: string, listing: seq<Key>,
      o: seq<(bool, Net)>)
    requires Ready(c) && Sound(w, c, env, n)
    requires forall k :: k in listing ==> k.ns == EnvNs(at)
    ensures var (t, r) := SweepLoop(w, listing, KeptHere(c, at), {}, o);
            && Sound(t, c, env, n) && (Right(w, c, env, n) ==> Right(t, c, env, n))
            && (r == Done && Ingress(env, n) in listing && !Wanted(c, env, n) ==> Right(t, c, env, n))
    decreases |listing|
  {
    hide DropStep, Right, Sound;
    if listing != [] {
      var key := listing[0];
      if Orphan(key, KeptHere(c, at), {}) {
        var (fence, net) := if o == [] then (true, Reliable) else o[0];
        var w1 := FenceStep(w, fence).0;
        FenceKeeps(w, c, env, n, fence);
        DropStepKeeps(w1, c, env, n, key, net);
        SweepKeeps(DropStep(w1, key, net).0, c, env, n, at, listing[1..], if o == [] then [] else o[1..]);
      } else {
        SweepKeeps(w, c, env, n, at, listing[1..], o);
      }
    }
  }

  lemma FenceKeeps(w: World, c: Caches, env: string, n: string, ok: bool)
    requires Ready(c) && Sound(w, c, env, n)
    ensures Sound(FenceStep(w, ok).0, c, env, n)
    ensures Right(w, c, env, n) ==> Right(FenceStep(w, ok).0, c, env, n)
  {
  }

  /** One event, whatever it is and however its requests end, keeps a right grant right; a completed
      pass makes its own wish right, a completed sweep its environment's unwanted grants. */
  lemma {:induction false} EventKeeps(w: World, c: Caches, e: Event, env: string, n: string)
    requires Ready(c) && Possible(w, c, e) && Sound(w, c, env, n)
    ensures var (t, r) := Happen(w, c, e);
            && Sound(t, c, env, n) && (Right(w, c, env, n) ==> Right(t, c, env, n))
            && (r == Done && e.Pass? && e.space == n && Wanted(c, env, n) && InRegion(c, env) ==> Right(t, c, env, n))
            && (r == Done && e.Sweep? && e.env == env && !Wanted(c, env, n) ==> Right(t, c, env, n))
  {
    hide SpacePass, SweepLoop;
    match e
    case Pass(x, now, o) => PassKeeps(w, c, env, n, x, now, o);
    case Sweep(at, listing, o) =>
      if listing.Some? {
        SweepKeeps(w.(choice := Forgotten(w.choice, c)), c, env, n, at, listing.value, o);
        if Ingress(env, n) !in listing.value && at == env {
          EmptyStays(w.(choice := Forgotten(w.choice, c)), c, env, n, listing.value, o);
        }
      }
    case _ =>
  }

  /** A sweep creates nothing. */
  lemma {:induction false} EmptyStays(w: World, c: Caches, env: string, n: string, listing: seq<Key>,
      o: seq<(bool, Net)>)
    requires Ready(c) && Ingress(env, n) !in w.store.objects
    ensures Ingress(env, n) !in SweepLoop(w, listing, KeptHere(c, env), {}, o).0.store.objects
    decreases |listing|
  {
    if listing != [] {
      if Orphan(listing[0], KeptHere(c, env), {}) {
        var (fence, net) := if o == [] then (true, Reliable) else o[0];
        var w1 := FenceStep(w, fence).0;
        EmptyStays(DropStep(w1, listing[0], net).0, c, env, n, listing[1..], if o == [] then [] else o[1..]);
      } else {
        EmptyStays(w, c, env, n, listing[1..], o);
      }
    }
  }

  lemma {:induction false} HistoryKeeps(worlds: seq<World>, c: Caches, events: seq<Event>, env: string, n: string,
      i: nat, j: nat)
    requires IsHistory(worlds, c, events) && i <= j < |worlds| && Sound(worlds[i], c, env, n)
    ensures Sound(worlds[j], c, env, n) && (Right(worlds[i], c, env, n) ==> Right(worlds[j], c, env, n))
    decreases j
  {
    hide Happen, Possible, Sound, Right;
    if i < j {
      HistoryKeeps(worlds, c, events, env, n, i, j - 1);
      EventKeeps(worlds[j - 1], c, events[j - 1], env, n);
    }
  }

  /** The space names that hold a grant in an environment's namespace. */
  function GrantsIn(w: World, env: string): set<string> {
    set k | k in w.store.objects && k.ns == EnvNs(env) && k.name.SpaceGrant? :: k.name.space
  }

  /** Convergence regardless of history. Start from any cluster, any choice memory and a sound apply
      memory; let passes and sweeps complete, fail or be fenced at any request, the process restart
      and lose the lease at will. Once every space naming the environment has one completed pass and
      the environment one completed sweep somewhere in the run, in any order, its namespace holds
      exactly the grants of those spaces, each with its own body. */
  lemma {:induction false} Converges(worlds: seq<World>, c: Caches, events: seq<Event>, env: string)
    requires IsHistory(worlds, c, events) && InRegion(c, env)
    requires forall n :: Sound(worlds[0], c, env, n)
    requires forall n :: n in KeptHere(c, env) ==> exists i: nat :: Passed(worlds, c, events, n, i)
    requires exists i: nat :: Swept(worlds, c, events, env, i)
    ensures GrantsIn(worlds[|events|], env) == set n | n in c.spaces.value && c.spaces.value[n].environment == env
    ensures forall n :: n in c.spaces.value && c.spaces.value[n].environment == env ==>
              Ingress(env, n) in worlds[|events|].store.objects &&
              worlds[|events|].store.objects[Ingress(env, n)] == IngressBody(c.spaces.value[n])
  {
    assert KeptHere(c, env) == set n | n in c.spaces.value && c.spaces.value[n].environment == env;
    hide Happen, Possible, Sound, Right, GrantsIn, KeptHere;
    forall n ensures Right(worlds[|events|], c, env, n) {
      assert Wanted(c, env, n) ==> n in c.spaces.value by {
        WantedIsListed(c, env, n);
      }
      GrantConverges(worlds, c, events, env, n);
    }
    RightEverywhere(worlds[|events|], c, env);
  }

  /** A process that has just started has a sound memory, so this is what its first passes bring about. */
  lemma ConvergesFromStart(worlds: seq<World>, c: Caches, events: seq<Event>, env: string)
    requires IsHistory(worlds, c, events) && InRegion(c, env) && worlds[0].store.applied == map[]
    requires forall n :: n in KeptHere(c, env) ==> exists i: nat :: Passed(worlds, c, events, n, i)
    requires exists i: nat :: Swept(worlds, c, events, env, i)
    ensures GrantsIn(worlds[|events|], env) == set n | n in c.spaces.value && c.spaces.value[n].environment == env
  {
    hide Happen, Possible, Sound, Right, GrantsIn, KeptHere;
    forall n ensures Sound(worlds[0], c, env, n) {
      CoherentIsSound(worlds[0], c, env, n);
    }
    Converges(worlds, c, events, env);
  }

  lemma WantedIsListed(c: Caches, env: string, n: string)
    requires Ready(c)
    ensures Wanted(c, env, n) <==> n in KeptHere(c, env)
    ensures Wanted(c, env, n) ==> n in c.spaces.value
  {
  }

  lemma RightEverywhere(w: World, c: Caches, env: string)
    requires Ready(c) && forall n :: Right(w, c, env, n)
    ensures GrantsIn(w, env) == KeptHere(c, env)
    ensures forall n :: n in KeptHere(c, env) ==>
              n in c.spaces.value && Ingress(env, n) in w.store.objects &&
              w.store.objects[Ingress(env, n)] == IngressBody(c.spaces.value[n])
  {
    forall n ensures n in GrantsIn(w, env) <==> n in KeptHere(c, env) {
      assert Right(w, c, env, n);
      if n in KeptHere(c, env) {
        assert Ingress(env, n) in w.store.objects;
      }
    }
    forall n | n in KeptHere(c, env)
      ensures Ingress(env, n) in w.store.objects && w.store.objects[Ingress(env, n)] == IngressBody(c.spaces.value[n])
    {
      assert Right(w, c, env, n);
    }
  }

  lemma GrantConverges(worlds: seq<World>, c: Caches, events: seq<Event>, env: string, n: string)
    requires IsHistory(worlds, c, events) && InRegion(c, env) && Sound(worlds[0], c, env, n)
    requires Wanted(c, env, n) ==> exists i: nat :: Passed(worlds, c, events, n, i)
    requires exists i: nat :: Swept(worlds, c, events, env, i)
    ensures Right(worlds[|events|], c, env, n)
  {
    hide Happen, Possible, Sound, Right;
    var i: nat;
    if Wanted(c, env, n) {
      i :| Passed(worlds, c, events, n, i);
    } else {
      i :| Swept(worlds, c, events, env, i);
    }
    HistoryKeeps(worlds, c, events, env, n, 0, i);
    EventKeeps(worlds[i], c, events[i], env, n);
    HistoryKeeps(worlds, c, events, env, n, i + 1, |events|);
  }

  // ----- one pass: safety and steady state -----

  /** What the requests made since `w` delete. */
  predicate OnlyDeletes(w: World, t: World, allowed: Key -> bool) {
    w.calls <= t.calls && forall k :: |w.calls| <= k < |t.calls| && t.calls[k].Deletes? ==> allowed(t.calls[k].key)
  }

  /** Whatever the memories hold and whatever was deleted before, a pass deletes neither half its own
      wish and cache ask for, and no other space's policy. */
  lemma {:induction false} NeverDeletesItsWish(w: World, c: Caches, s: Space, now: nat, o: PassScript)
    requires c.envs.Some?
    ensures OnlyDeletes(w, SpacePass(w, c, s, now, o).0, (key: Key) =>
              (key == Egress(s.name) && Resolved(c, s).None?) ||
              (key.name == SpaceGrant(s.name) && key != Ingress(s.environment, s.name)))
  {
    hide Render, Retract, Leave;
    if c.envs.Some? && w.leading && o.fence && s.uid.Some? {
      var w1 := w.(choice := Forgotten(w.choice, c), leading := w.leading && o.fence);
      var prev := Previous(w1, s);
      RenderCalls(w1, s, now, o);
      RetractCalls(w1, s, prev, o);
      var w2 := if Resolved(c, s).Some? then Render(w1, s, now, o).0 else Retract(w1, s, prev, o).0;
      LeaveCalls(w2, s, prev, o);
    }
  }

  lemma RetractCalls(w: World, s: Space, prev: Option<string>, o: PassScript)
    ensures OnlyDeletes(w, Retract(w, s, prev, o).0, (key: Key) => key == Egress(s.name))
  {
    hide Dropped;
  }

  lemma LeaveCalls(w: World, s: Space, prev: Option<string>, o: PassScript)
    ensures OnlyDeletes(w, Leave(w, s, prev, o).0, (key: Key) =>
              key.name == SpaceGrant(s.name) && key != Ingress(s.environment, s.name))
  {
    hide Dropped;
  }

  lemma RenderCalls(w: World, s: Space, now: nat, o: PassScript)
    requires s.uid.Some?
    ensures OnlyDeletes(w, Render(w, s, now, o).0, (key: Key) => false)
  {
    hide Ensured;
  }

  /** A fenced pass leaves the memory of choices as it was, save that vanished spaces are forgotten,
      so its deletions are retried. */
  lemma FencedKeepsMemory(w: World, c: Caches, s: Space, now: nat, o: PassScript)
    requires SpacePass(w, c, s, now, o).1 != Done
    ensures SpacePass(w, c, s, now, o).0.choice == Forgotten(w.choice, c)
  {
    hide Ensured, Dropped, Fresh;
  }

  /** What a completed pass remembers. */
  lemma DoneRemembers(w: World, c: Caches, s: Space, now: nat, o: PassScript)
    requires SpacePass(w, c, s, now, o).1 == Done
    ensures c.envs.Some? && s.uid.Some?
    ensures SpacePass(w, c, s, now, o).0.choice ==
            Forgotten(w.choice, c)[s.name := (s.uid.value, if Resolved(c, s).Some? then s.environment else "")]
  {
    hide Ensured, Dropped, Fresh;
  }

  predicate Quiet(calls: seq<Call>) {
    forall call :: call in calls ==> call.Applies?
  }

  lemma RenderAppends(w: World, s: Space, now: nat, o: PassScript)
    requires s.uid.Some?
    ensures w.calls <= Render(w, s, now, o).0.calls && Quiet(Render(w, s, now, o).0.calls[|w.calls|..])
  {
    hide Ensured, Fresh;
  }

  lemma DoneLeads(w: World, c: Caches, s: Space, now: nat, o: PassScript)
    requires SpacePass(w, c, s, now, o).1 == Done
    ensures SpacePass(w, c, s, now, o).0.leading
  {
    hide Ensured, Dropped, Fresh;
  }

  /** The memory holds what this wish renders. */
  predicate Remembered(w: World, c: Caches, s: Space)
    requires c.envs.Some? && s.uid.Some?
  {
    s.name in w.choice && w.choice[s.name] == (s.uid.value, if Resolved(c, s).Some? then s.environment else "")
  }

  /** One pass over what is remembered deletes nothing and asks nothing, exactly unless it is handed a
      space that has left the cache since and that renders nothing. */
  lemma RepeatIsQuietExactly(w: World, c: Caches, s: Space, now: nat, o: PassScript)
    requires c.envs.Some? && s.uid.Some? && w.leading && o.fence && "" !in c.envs.value
    requires Remembered(w, c, s)
    ensures var t := SpacePass(w, c, s, now, o).0;
            && w.calls <= t.calls
            && (Quiet(t.calls[|w.calls|..]) <==>
                Resolved(c, s).Some? || c.spaces.None? || s.name in c.spaces.value)
  {
    hide Ensured, Dropped;
    var t := SpacePass(w, c, s, now, o).0;
    var w1 := w.(choice := Forgotten(w.choice, c));
    if Resolved(c, s).Some? {
      RenderAppends(w1, s, now, o);
    } else if c.spaces.Some? && s.name !in c.spaces.value {
      assert Previous(w1, s) == None;
      assert t.calls[|w.calls|] == Asks(Egress(s.name));
      assert t.calls[|w.calls|..][0] == Asks(Egress(s.name));
      assert Asks(Egress(s.name)) in t.calls[|w.calls|..];
    }
  }

  lemma RepeatRemembers(w: World, c: Caches, s: Space, now: nat, o: PassScript)
    requires c.envs.Some? && s.uid.Some? && w.leading && o.fence && "" !in c.envs.value
    requires Remembered(w, c, s) && (c.spaces.Some? ==> s.name in c.spaces.value)
    ensures Remembered(SpacePass(w, c, s, now, o).0, c, s) && SpacePass(w, c, s, now, o).0.leading
  {
    hide Ensured, Dropped, Fresh;
    if SpacePass(w, c, s, now, o).1 == Done {
      DoneRemembers(w, c, s, now, o);
      DoneLeads(w, c, s, now, o);
    }
  }

  function Repeats(w: World, c: Caches, s: Space, passes: seq<(nat, PassScript)>): World
    decreases |passes|
  {
    if passes == [] then w else Repeats(SpacePass(w, c, s, passes[0].0, passes[0].1).0, c, s, passes[1..])
  }

  lemma {:induction false} RepeatsQuiet(w: World, c: Caches, s: Space, passes: seq<(nat, PassScript)>)
    requires c.envs.Some? && s.uid.Some? && w.leading && "" !in c.envs.value
    requires Remembered(w, c, s) && (c.spaces.Some? ==> s.name in c.spaces.value)
    requires forall p :: p in passes ==> p.1.fence
    ensures w.calls <= Repeats(w, c, s, passes).calls && Quiet(Repeats(w, c, s, passes).calls[|w.calls|..])
    decreases |passes|
  {
    hide SpacePass, Remembered;
    if passes != [] {
      var (now, o) := passes[0];
      RepeatIsQuietExactly(w, c, s, now, o);
      RepeatRemembers(w, c, s, now, o);
      var t := SpacePass(w, c, s, now, o).0;
      RepeatsQuiet(t, c, s, passes[1..]);
      var u := Repeats(t, c, s, passes[1..]);
      assert u.calls[|w.calls|..] == t.calls[|w.calls|..] + u.calls[|t.calls|..];
    }
  }

  /** Steady state. After a completed pass of a space in the cache, any number of further passes over
      the same inputs in the same term, however their own applies end, delete nothing and ask nothing. */
  lemma {:induction false} SettledIsQuiet(w: World, c: Caches, s: Space, now: nat, o: PassScript,
      passes: seq<(nat, PassScript)>)
    requires SpacePass(w, c, s, now, o).1 == Done
    requires c.spaces.Some? ==> s.name in c.spaces.value
    requires "" !in c.envs.value && forall p :: p in passes ==> p.1.fence
    ensures var settled := SpacePass(w, c, s, now, o).0;
            var later := Repeats(settled, c, s, passes);
            settled.calls <= later.calls && Quiet(later.calls[|settled.calls|..])
  {
    hide SpacePass;
    DoneRemembers(w, c, s, now, o);
    DoneLeads(w, c, s, now, o);
    RepeatsQuiet(SpacePass(w, c, s, now, o).0, c, s, passes);
  }

  // ----- exactly when an egress half is stranded -----

  /** What a completed pass leaves of the egress half. A rendered wish has it, with its own body. A
      wish that renders nothing has none, except when the memory said nothing had been rendered and
      the policy was there all the same. */
  lemma EgressAfterPass(w: World, c: Caches, s: Space, now: nat, o: PassScript)
    requires SpacePass(w, c, s, now, o).1 == Done && Coherent(w.store)
    ensures var after := SpacePass(w, c, s, now, o).0.store.objects;
            var prev := Previous(w.(choice := Forgotten(w.choice, c)), s);
            && (Resolved(c, s).Some? ==> Egress(s.name) in after && after[Egress(s.name)] == EgressBody(s))
            && (Resolved(c, s).None? ==>
                  (Egress(s.name) !in after <==> !(prev == Some("") && Egress(s.name) in w.store.objects)))
  {
    var w1 := w.(choice := Forgotten(w.choice, c), leading := w.leading && o.fence);
    if Resolved(c, s).Some? {
      EnsureCoherentIff(w1.store, Egress(s.name), EgressBody(s), now, o.egress);
    }
  }

  /** Every space remembered as rendering nothing really has no egress half. */
  predicate MemoryHolds(w: World, s: Space)
    requires s.uid.Some?
  {
    Previous(w, s) == Some("") ==> Egress(s.name) !in w.store.objects
  }

  /** The egress apply of a rendering pass takes effect. */
  predicate EgressLands(w: World, c: Caches, s: Space, now: nat, o: PassScript) {
    c.envs.Some? && s.uid.Some? && w.leading && o.fence && Resolved(c, s).Some? &&
    !Fresh(w.store, Egress(s.name), EgressBody(s), now) && !o.egress.apply.Refused?
  }

  /** A request of the rendering ends so that the pass fails after the egress apply took effect: the
      egress call itself, or the ingress apply when it is sent. */
  predicate RenderingFails(w: World, s: Space, now: nat, o: PassScript)
    requires s.uid.Some?
  {
    || LandsAndFails(o.egress)
    || (!Fresh(w.store, Ingress(s.environment, s.name), IngressBody(s), now)
        && (o.ingress.apply.Refused? || LandsAndFails(o.ingress)))
  }

  /** A pass over a truthful memory leaves it truthful exactly unless it rendered from a memory of
      nothing, its egress apply took effect, and a request of the rendering then failed: that half is
      stranded. */
  lemma StrandedExactly(w: World, c: Caches, s: Space, now: nat, o: PassScript)
    requires s.uid.Some? && MemoryHolds(w.(choice := Forgotten(w.choice, c)), s)
    requires c.envs.Some? ==> "" !in c.envs.value
    ensures MemoryHolds(SpacePass(w, c, s, now, o).0, s) <==>
            !(Previous(w.(choice := Forgotten(w.choice, c)), s) == Some("") && EgressLands(w, c, s, now, o) &&
                RenderingFails(w, s, now, o))
  {
    var (t, r) := SpacePass(w, c, s, now, o);
    if r != Done {
      FencedKeepsMemory(w, c, s, now, o);
    } else {
      DoneRemembers(w, c, s, now, o);
    }
  }

  /** Such a run: a space remembered as rendering nothing picks an environment, its egress apply lands,
      its ingress apply is refused; the wish is then cleared. The completed pass that follows leaves
      the egress half in place, granting reach to an environment nobody names. */
  lemma StrandedExample(name: string, env: string, uid: string)
    requires env != ""
    ensures var fine := Requests(Reliable, Reliable);
            var all := PassScript(true, fine, fine, true, true, Reliable, true, Reliable);
            var wish, cleared := Space(name, Some(uid), "alice", env), Space(name, Some(uid), "alice", "");
            var w := World(Store(map[], map[]), map[name := (uid, "")], true, []);
            var (w1, r1) := SpacePass(w, Caches(Some(map[name := wish]), Some(map[env := "r1"]), "r1"), wish, 0,
                                      all.(ingress := Requests(Refused, Reliable)));
            var later := Caches(Some(map[name := cleared]), Some(map[env := "r1"]), "r1");
            var (w2, r2) := SpacePass(w1, later, cleared, 10, all);
            r1 == Failed && r2 == Done && w2.store.objects == map[Egress(name) := ToEnv(env, "alice", uid)]
  {
    var wish := Space(name, Some(uid), "alice", env);
    var c := Caches(Some(map[name := wish]), Some(map[env := "r1"]), "r1");
    var choice := map[name := (uid, "")];
    assert Forgotten(choice, c) == choice;
    assert Forgotten(choice, c.(spaces := Some(map[name := wish.(environment := "")]))) == choice;
    assert Resolved(c, wish) == Some(env);
  }

  // ----- what a pass does, read off its inputs -----

  /** The memory holds `e` as the last choice of this very space, and the cache has not dropped it. */
  predicate Recalls(w: World, c: Caches, s: Space, e: string) {
    && (c.spaces.None? || s.name in c.spaces.value)
    && s.name in w.choice && s.uid.Some? && w.choice[s.name] == (s.uid.value, e)
  }

  /** The wish names another environment than the one the memory holds. */
  predicate MovedFrom(w: World, c: Caches, s: Space, e: string) {
    Recalls(w, c, s, e) && e != "" && e != s.environment
  }

  predicate Exists(c: Caches, env: string) {
    c.envs.Some? && env in c.envs.value && c.envs.value[env] == c.region
  }

  /** Every request made since `w` satisfies `p`. */
  predicate NewCalls(w: World, t: World, p: Call -> bool) {
    w.calls <= t.calls && forall k :: |w.calls| <= k < |t.calls| ==> p(t.calls[k])
  }

  /** A pass asks, applies and deletes nothing unless the environments are listed, it leads, its fence passes
      and the space has a uid; and deletes a half only if the fence asked just before passes too. */
  lemma {:induction false} PassIsFenced(w: World, c: Caches, s: Space, now: nat, o: PassScript)
    ensures var (t, r) := SpacePass(w, c, s, now, o);
            && NewCalls(w, t, (call: Call) =>
                 && c.envs.Some? && w.leading && o.fence && s.uid.Some?
                 && (call.Deletes? && call.key.name.SpaceEnv? ==> o.fenceEgress)
                 && (call.Deletes? && call.key.name.SpaceGrant? ==> o.fenceIngress))
            && (!(w.leading && o.fence) ==> r != Done && t.store == w.store && (c.envs.Some? ==> !t.leading))
  {
    if c.envs.Some? && w.leading && o.fence && s.uid.Some? {
      var w1 := w.(choice := Forgotten(w.choice, c), leading := w.leading && o.fence);
      var prev := Previous(w1, s);
      RenderOnlyApplies(w1, s, now, o);
      RetractIsFenced(w1, s, prev, o);
      var w2 := if Resolved(c, s).Some? then Render(w1, s, now, o).0 else Retract(w1, s, prev, o).0;
      LeaveIsFenced(w2, s, prev, o);
    }
    hide Render, Retract, Leave;
  }

  lemma RenderOnlyApplies(w: World, s: Space, now: nat, o: PassScript)
    requires s.uid.Some?
    ensures NewCalls(w, Render(w, s, now, o).0, (call: Call) => call.Applies?)
  {
    hide Ensured, Fresh;
  }

  lemma RetractIsFenced(w: World, s: Space, prev: Option<string>, o: PassScript)
    ensures NewCalls(w, Retract(w, s, prev, o).0, (call: Call) =>
              call.key == Egress(s.name) && !call.Applies? && (call.Deletes? ==> o.fenceEgress))
  {
    hide Dropped;
  }

  lemma LeaveIsFenced(w: World, s: Space, prev: Option<string>, o: PassScript)
    ensures NewCalls(w, Leave(w, s, prev, o).0, (call: Call) =>
              call.Deletes? && call.key.name.SpaceGrant? && o.fenceIngress)
  {
    hide Dropped;
  }

  /** A space that has moved: the pass that completes has deleted its grant in the environment it left, by
      its last request and no other, and the grant is gone. One that has not moved deletes no grant. */
  lemma {:induction false} LeavesTheOld(w: World, c: Caches, s: Space, now: nat, o: PassScript, e: string)
    requires SpacePass(w, c, s, now, o).1 == Done
    ensures var t := SpacePass(w, c, s, now, o).0;
            && w.calls <= t.calls
            && (MovedFrom(w, c, s, e) ==>
                  && Ingress(e, s.name) !in t.store.objects
                  && |t.calls| > |w.calls| && t.calls[|t.calls| - 1] == Deletes(Ingress(e, s.name))
                  && forall k :: |w.calls| <= k < |t.calls| - 1 ==>
                      !(t.calls[k].Deletes? && t.calls[k].key.name.SpaceGrant?))
            && ((forall x :: !MovedFrom(w, c, s, x)) ==>
                  NewCalls(w, t, (call: Call) => !(call.Deletes? && call.key.name.SpaceGrant?)))
  {
    var w1 := w.(choice := Forgotten(w.choice, c), leading := w.leading && o.fence);
    var prev := Previous(w1, s);
    assert prev.Some? ==> Recalls(w, c, s, prev.value);
    assert prev.Some? && prev.value != "" && prev.value != s.environment ==> MovedFrom(w, c, s, prev.value);
    assert MovedFrom(w, c, s, e) ==> prev == Some(e);
    RenderOnlyApplies(w1, s, now, o);
    RetractIsFenced(w1, s, prev, o);
    var w2 := if Resolved(c, s).Some? then Render(w1, s, now, o).0 else Retract(w1, s, prev, o).0;
    LeaveIsOneDelete(w2, s, prev, o);
    hide Render, Retract, Leave, Recalls, MovedFrom;
  }

  lemma LeaveIsOneDelete(w: World, s: Space, prev: Option<string>, o: PassScript)
    requires Leave(w, s, prev, o).1 == Done
    ensures var t := Leave(w, s, prev, o).0;
            if prev.Some? && prev.value != "" && prev.value != s.environment
            then Ingress(prev.value, s.name) !in t.store.objects &&
                t.calls == w.calls + [Deletes(Ingress(prev.value, s.name))]
            else t == w
  {
  }

  /** A wish whose environment is there leaves both its halves, each naming the other side and owned by the
      space; any other leaves no egress half, but for one the memory said was never rendered. */
  lemma {:induction false} RendersExactly(w: World, c: Caches, s: Space, now: nat, o: PassScript)
    requires SpacePass(w, c, s, now, o).1 == Done && Coherent(w.store)
    ensures s.uid.Some?
    ensures var t := SpacePass(w, c, s, now, o).0;
            && (Exists(c, s.environment) ==>
                  && Egress(s.name) in t.store.objects && Ingress(s.environment, s.name) in t.store.objects
                  && t.store.objects[Egress(s.name)] == ToEnv(s.environment, s.owner, s.uid.value)
                  && t.store.objects[Ingress(s.environment, s.name)] == FromSpace(s.name, s.owner, s.uid.value)
                  && t.choice[s.name] == (s.uid.value, s.environment))
            && (!Exists(c, s.environment) ==>
                  && NewCalls(w, t, (call: Call) => !call.Applies?)
                  && (Egress(s.name) in t.store.objects <==> Recalls(w, c, s, "") && Egress(s.name) in w.store.objects)
                  && s.name in t.choice && t.choice[s.name] == (s.uid.value, ""))
  {
    DoneRemembers(w, c, s, now, o);
    var w1 := w.(choice := Forgotten(w.choice, c), leading := w.leading && o.fence);
    assert Previous(w1, s) == Some("") <==> Recalls(w, c, s, "");
    if Resolved(c, s).Some? {
      EnsureCoherentIff(w1.store, Egress(s.name), EgressBody(s), now, o.egress);
      RenderedBoth(w1, s, now, o);
    } else {
      RetractAppliesNothing(w1, s, Previous(w1, s), o);
      EgressAfterPass(w, c, s, now, o);
    }
  }

  lemma RenderedBoth(w: World, s: Space, now: nat, o: PassScript)
    requires s.uid.Some? && Coherent(w.store) && Render(w, s, now, o).1 == Done
    ensures var t := Render(w, s, now, o).0.store.objects;
            && Egress(s.name) in t && t[Egress(s.name)] == EgressBody(s)
            && Ingress(s.environment, s.name) in t && t[Ingress(s.environment, s.name)] == IngressBody(s)
  {
    var w1 := EnsureStep(w, Egress(s.name), EgressBody(s), now, o.egress).0;
    EnsureCoherentIff(w.store, Egress(s.name), EgressBody(s), now, o.egress);
  }

  lemma RetractAppliesNothing(w: World, s: Space, prev: Option<string>, o: PassScript)
    ensures NewCalls(w, Retract(w, s, prev, o).0, (call: Call) => !call.Applies?)
  {
    hide Dropped;
  }

  /** A pass that leads, whose caches are listed and whose requests all work completes. */
  lemma PassCompletes(w: World, c: Caches, s: Space, now: nat)
    requires w.leading && c.envs.Some? && s.uid.Some?
    ensures var fine := Requests(Reliable, Reliable);
            SpacePass(w, c, s, now, PassScript(true, fine, fine, true, true, Reliable, true, Reliable)).1 == Done
  {
  }

  // ----- what a sweep does, read off its inputs -----

  /** A listed policy that goes: a space's grant, of a space that does not name this environment, not young. */
  predicate Goes(c: Caches, env: string, young: set<Key>, k: Key)
    requires c.spaces.Some?
  {
    && k.name.SpaceGrant? && k !in young
    && !(k.name.space in c.spaces.value && c.spaces.value[k.name.space].environment == env)
  }

  /** The fence asked before the `i`-th delete passes. */
  predicate FencePassed(o: seq<(bool, Net)>, i: nat) {
    i < |o| ==> o[i].0
  }

  predicate FencesPassed(w: World, t: World, o: seq<(bool, Net)>) {
    forall i :: 0 <= i < |t.calls| - |w.calls| ==> FencePassed(o, i)
  }

  /** The requests of a sweep: one delete for each grant that goes, and nothing else. */
  lemma {:induction false} SweepLoopCalls(w: World, c: Caches, env: string, listing: seq<Key>, young: set<Key>,
      o: seq<(bool, Net)>)
    requires c.spaces.Some?
    ensures var t := SweepLoop(w, listing, KeptHere(c, env), young, o).0;
            && NewCalls(w, t, (call: Call) =>
                 call.Deletes? && call.key in listing && Goes(c, env, young, call.key) && w.leading)
            && FencesPassed(w, t, o)
    decreases |listing|
  {
    if listing != [] {
      var keep, rest := KeptHere(c, env), listing[1..];
      assert listing == [listing[0]] + rest;
      GoesIsOrphan(c, env, young, listing[0]);
      if Orphan(listing[0], keep, young) {
        var (fence, net) := if o == [] then (true, Reliable) else o[0];
        var (w1, ok) := FenceStep(w, fence);
        if ok {
          var (w2, dropped) := DropStep(w1, listing[0], net);
          var later := if o == [] then [] else o[1..];
          SweepLoopCalls(w2, c, env, rest, young, later);
          SweepShift(w, w2, SweepLoop(w2, rest, keep, young, later).0, o, later);
        }
      } else {
        SweepLoopCalls(w, c, env, rest, young, o);
      }
    }
  }

  lemma GoesIsOrphan(c: Caches, env: string, young: set<Key>, k: Key)
    requires c.spaces.Some?
    ensures Orphan(k, KeptHere(c, env), young) <==> Goes(c, env, young, k)
  {
  }

  /** What it leaves of the object `k`. */
  predicate Spared(w: World, after: (World, Result), c: Caches, env: string, listing: seq<Key>, young: set<Key>,
      o: seq<(bool, Net)>, k: Key)
    requires c.spaces.Some?
  {
    var (t, r) := after;
    && (k in t.store.objects ==> k in w.store.objects && t.store.objects[k] == w.store.objects[k])
    && (k in w.store.objects && !(k in listing && Goes(c, env, young, k)) ==> k in t.store.objects)
    && (r == Done && k in listing && Goes(c, env, young, k) ==> k !in t.store.objects)
    && (w.leading && o == [] ==> r == Done)
  }

  lemma {:induction false} SweepLoopObjects(w: World, c: Caches, env: string, listing: seq<Key>, young: set<Key>,
      o: seq<(bool, Net)>, k: Key)
    requires c.spaces.Some?
    ensures Spared(w, SweepLoop(w, listing, KeptHere(c, env), young, o), c, env, listing, young, o, k)
    decreases |listing|
  {
    if listing != [] {
      var keep, rest := KeptHere(c, env), listing[1..];
      assert k in listing <==> k == listing[0] || k in rest;
      GoesIsOrphan(c, env, young, listing[0]);
      hide KeptHere, Goes, Orphan;
      if Orphan(listing[0], keep, young) {
        var (fence, net) := if o == [] then (true, Reliable) else o[0];
        var (w1, ok) := FenceStep(w, fence);
        if ok {
          SweepLoopObjects(DropStep(w1, listing[0], net).0, c, env, rest, young, if o == [] then [] else o[1..], k);
        }
      } else {
        SweepLoopObjects(w, c, env, rest, young, o, k);
      }
    }
  }

  /** The fences after the first delete are the later ones. */
  lemma SweepShift(w: World, w2: World, t: World, o: seq<(bool, Net)>, later: seq<(bool, Net)>)
    requires |w2.calls| == |w.calls| + 1 && later == (if o == [] then [] else o[1..]) && FencePassed(o, 0)
    requires FencesPassed(w2, t, later)
    ensures FencesPassed(w, t, o)
  {
    forall i | 0 <= i < |t.calls| - |w.calls| ensures FencePassed(o, i) {
      if i > 0 {
        assert FencePassed(later, i - 1);
      }
    }
  }

  /** A sweep deletes exactly the listed grants that go, one fence before each; all of them if it completes,
      and none from an unlisted cache or a failed listing. */
  lemma {:induction false} SweepsExactly(w: World, c: Caches, listing: Option<seq<Key>>, env: string, young: set<Key>,
      o: seq<(bool, Net)>)
    ensures var (t, r) := EnvSweep(w, c, listing, env, young, o);
            && (c.spaces.None? || listing.None? ==> r != Done && t.store == w.store && t.calls == w.calls)
            && (c.spaces.Some? && listing.Some? ==>
                  && NewCalls(w, t, (call: Call) =>
                       call.Deletes? && call.key in listing.value && Goes(c, env, young, call.key) && w.leading)
                  && FencesPassed(w, t, o)
                  && (forall k :: k in w.store.objects && !(k in listing.value && Goes(c, env, young, k)) ==>
                        k in t.store.objects && t.store.objects[k] == w.store.objects[k])
                  && (r == Done ==> forall k :: k in listing.value && Goes(c, env, young, k) ==> k !in t.store.objects)
                  && (w.leading && o == [] ==> r == Done))
  {
    if c.spaces.Some? && listing.Some? {
      var w0 := w.(choice := Forgotten(w.choice, c));
      SweepLoopCalls(w0, c, env, listing.value, young, o);
      var (t, r) := SweepLoop(w0, listing.value, KeptHere(c, env), young, o);
      SweepLoopObjects(w0, c, env, listing.value, young, o, Egress(env));
      forall k
        ensures k in t.store.objects ==> k in w.store.objects && t.store.objects[k] == w.store.objects[k]
        ensures k in w.store.objects && !(k in listing.value && Goes(c, env, young, k)) ==> k in t.store.objects
        ensures r == Done && k in listing.value && Goes(c, env, young, k) ==> k !in t.store.objects
      {
        SweepLoopObjects(w0, c, env, listing.value, young, o, k);
      }
    }
    hide SweepLoop;
  }
}
