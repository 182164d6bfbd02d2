/** The space reconcilers request by request: any number of passes and sweeps under way at once, each
    stopping at every await. What SpaceConvergence proves of whole passes is proved here of any
    interleaving of their requests. */
module SpaceInterleaving {
  import opened Wrappers
  import opened ApplyCache
  import opened SpaceGrants
  import opened SpaceConvergence

  /** The next thing a pass of space `n`, or a sweep of `env`, will do. `ingress` says which half; `prev`
      is what the memory said of the space's last choice. */
  datatype Pc =
    | Fencing(n: string)
    | Checking(n: string, ingress: bool, prev: Option<string>)
    | Sending(n: string, ingress: bool, prev: Option<string>)
    | Releasing(n: string, ingress: bool, prev: Option<string>)
    | Asking(n: string, prev: Option<string>)
    | Retiring(n: string, prev: Option<string>)
    | Dropping(n: string, prev: Option<string>)
    | Leaving(n: string, prev: Option<string>)
    | Withdrawing(n: string, prev: Option<string>)
    | Listing(env: string)
    | Sweeping(env: string, left: seq<Key>)
    | Clearing(env: string, left: seq<Key>)

  /** `rendered` and `swept` are history: the spaces that had a completed ingress apply, and the
      environments that had a completed sweep. */
  datatype Sys = Sys(w: World, passes: map<nat, Pc>, rendered: set<string>, swept: set<string>)

  /** How the request a step makes ends. */
  datatype Outcome = Outcome(ok: bool, now: nat, net: Net, listing: Option<seq<Key>>)

  datatype Action =
    | StartPass(p: nat, n: string)
    | StartSweep(p: nat, env: string)
    | Step(p: nat, o: Outcome)
    | Restart
    | Lead(leading: bool)

  ghost predicate Enabled(s: Sys, c: Caches, a: Action)
    requires Ready(c)
  {
    match a
    case StartPass(p, n) => p !in s.passes && n in c.spaces.value
    case StartSweep(p, _) => p !in s.passes
    case Step(p, o) =>
      p in s.passes && (s.passes[p].Listing? && o.listing.Some? ==>
          Lists(s.w.store.objects, s.passes[p].env, o.listing.value))
    case _ => true
  }

  function KeyOf(s: Space, ingress: bool): Key {
    if ingress then Ingress(s.environment, s.name) else Egress(s.name)
  }

  function BodyOf(s: Space, ingress: bool): Body
    requires s.uid.Some?
  {
    if ingress then IngressBody(s) else EgressBody(s)
  }

  function Forget(w: World, key: Key): World {
    w.(store := w.store.(applied := w.store.applied - {key}))
  }

  /** A delete request; true when it is answered well. */
  function Deleted(w: World, key: Key, net: Net): World {
    if net.Refused? then w else w.(store := w.store.(objects := w.store.objects - {key}))
  }

  /** The pass goes on to `pc`, or ends. */
  function Next(s: Sys, p: nat, w: World, pc: Option<Pc>): Sys {
    s.(w := w, passes := if pc.Some? then s.passes[p := pc.value] else s.passes - {p})
  }

  /** After a half is applied. */
  function Applied(s: Sys, p: nat, w: World, x: Space, ingress: bool, prev: Option<string>): Sys {
    if ingress then Next(s, p, w, Some(Leaving(x.name, prev))).(rendered := s.rendered + {x.name})
    else Next(s, p, w, Some(Checking(x.name, true, prev)))
  }

  /** A completed pass remembers what it rendered. */
  function Remembered(s: Sys, c: Caches, p: nat, w: World, x: Space): Sys
    requires Ready(c) && x.uid.Some?
  {
    var env := if Resolved(c, x).Some? then x.environment else "";
    Next(s, p, w.(choice := w.choice[x.name := (x.uid.value, env)]), None)
  }

  /** One step of a pass of `x`. */
  function SpaceStep(s: Sys, c: Caches, p: nat, x: Space, o: Outcome): Sys
    requires Ready(c) && x.uid.Some? && p in s.passes && !s.passes[p].Listing? && !s.passes[p].Sweeping? &&
        !s.passes[p].Clearing?
  {
    var w, pc := s.w, s.passes[p];
    match pc
    case Fencing(n) =>
      var (w1, ok) := FenceStep(w, o.ok);
      if !ok then Next(s, p, w1, None)
      else if Resolved(c, x).Some? then Next(s, p, w1, Some(Checking(n, false, Previous(w1, x))))
      else Next(s, p, w1, Some(Asking(n, Previous(w1, x))))
    case Checking(n, ingress, prev) =>
      if Fresh(w.store, KeyOf(x, ingress), BodyOf(x, ingress), o.now) then Applied(s, p, w, x, ingress, prev)
      else Next(s, p, w, Some(Sending(n, ingress, prev)))
    case Sending(n, ingress, prev) =>
      if o.net.Refused? then Next(s, p, w, None)
      else
        var landed := w.(store := w.store.(objects := w.store.objects[KeyOf(x, ingress) := BodyOf(x, ingress)]));
        Next(s, p, landed, if o.net.ReplyLost? then None else Some(Releasing(n, ingress, prev)))
    case Releasing(_, ingress, prev) =>
      if !o.net.Reliable? then Next(s, p, w, None)
      else
        var stamp := Stamp(BodyOf(x, ingress), o.now);
        Applied(s, p, w.(store := w.store.(applied := w.store.applied[KeyOf(x, ingress) := stamp])), x, ingress, prev)
    case Asking(n, prev) =>
      if prev == Some("") then Next(s, p, w, Some(Leaving(n, prev)))
      else if prev.None? && !o.ok then Next(s, p, w, None)
      else if prev.None? && Egress(n) !in w.store.objects then Next(s, p, w, Some(Leaving(n, prev)))
      else Next(s, p, w, Some(Retiring(n, prev)))
    case Retiring(n, prev) =>
      var (w1, ok) := FenceStep(w, o.ok);
      if ok then Next(s, p, Forget(w1, Egress(n)), Some(Dropping(n, prev))) else Next(s, p, w1, None)
    case Dropping(n, prev) =>
      Next(s, p, Deleted(w, Egress(n), o.net), if o.net.Reliable? then Some(Leaving(n, prev)) else None)
    case Leaving(n, prev) =>
      if prev.None? || prev.value == "" || prev.value == x.environment then Remembered(s, c, p, w, x)
      else
        var (w1, ok) := FenceStep(w, o.ok);
        if ok then Next(s, p, Forget(w1, Ingress(prev.value, n)), Some(Withdrawing(n, prev))) else Next(s, p, w1, None)
    case Withdrawing(n, prev) =>
      var w1 := if prev.Some? then Deleted(w, Ingress(prev.value, n), o.net) else w;
      if o.net.Reliable? then Remembered(s, c, p, w1, x) else Next(s, p, w1, None)
  }

  /** One step of a sweep. */
  function SweepStep(s: Sys, c: Caches, p: nat, o: Outcome): Sys
    requires Ready(c) && p in s.passes && (s.passes[p].Listing? || s.passes[p].Sweeping? || s.passes[p].Clearing?)
  {
    var w, pc := s.w, s.passes[p];
    match pc
    case Listing(env) => Next(s, p, w, if o.listing.Some? then Some(Sweeping(env, o.listing.value)) else None)
    case Sweeping(env, left) =>
      if left == [] then Next(s, p, w, None).(swept := s.swept + {env})
      else if !Orphan(left[0], KeptHere(c, env), {}) then Next(s, p, w, Some(Sweeping(env, left[1..])))
      else
        var (w1, ok) := FenceStep(w, o.ok);
        if ok then Next(s, p, Forget(w1, left[0]), Some(Clearing(env, left))) else Next(s, p, w1, None)
    case Clearing(env, left) =>
      if left == [] then Next(s, p, w, None)
      else Next(s, p, Deleted(w, left[0], o.net), if o.net.Reliable? then Some(Sweeping(env, left[1..])) else None)
  }

  predicate IsSweep(pc: Pc) {
    pc.Listing? || pc.Sweeping? || pc.Clearing?
  }

  function Stepped(s: Sys, c: Caches, p: nat, o: Outcome): Sys
    requires Ready(c) && p in s.passes && (!IsSweep(s.passes[p]) ==> s.passes[p].n in c.spaces.value)
  {
    if IsSweep(s.passes[p]) then SweepStep(s, c, p, o) else SpaceStep(s, c, p, c.spaces.value[s.passes[p].n], o)
  }

  ghost function Do(s: Sys, c: Caches, a: Action): Sys
    requires Ready(c) && Enabled(s, c, a) && SpacesListed(s, c)
  {
    match a
    case StartPass(p, n) => s.(w := s.w.(choice := Forgotten(s.w.choice, c)), passes := s.passes[p := Fencing(n)])
    case StartSweep(p, env) => s.(w := s.w.(choice := Forgotten(s.w.choice, c)), passes := s.passes[p := Listing(env)])
    case Step(p, o) => Stepped(s, c, p, o)
    case Restart => s.(w := World(Store(s.w.store.objects, map[]), map[], false, s.w.calls), passes := map[])
    case Lead(leading) => s.(w := s.w.(leading := leading))
  }

  /** Passes are of spaces in the cache. */
  ghost predicate SpacesListed(s: Sys, c: Caches)
    requires Ready(c)
  {
    forall p :: p in s.passes && !IsSweep(s.passes[p]) ==> s.passes[p].n in c.spaces.value
  }

  // ----- what every step keeps -----

  /** No step undoes a right grant, or makes one nobody wants. */
  ghost predicate Onward(w: World, t: World, c: Caches, env: string)
    requires Ready(c)
  {
    && (forall n :: Wanted(c, env, n) && Right(w, c, env, n) ==> Right(t, c, env, n))
    && forall n :: !Wanted(c, env, n) && Ingress(env, n) in t.store.objects ==> Ingress(env, n) in w.store.objects
  }

  /** What the place a pass has come to says. */
  ghost predicate PcInv(w: World, c: Caches, env: string, pc: Pc)
    requires Ready(c)
  {
    match pc
    case Checking(n, _, _) => n in c.spaces.value && Resolved(c, c.spaces.value[n]).Some?
    case Sending(n, _, _) => n in c.spaces.value && Resolved(c, c.spaces.value[n]).Some?
    case Releasing(n, ingress, _) =>
      && n in c.spaces.value && Resolved(c, c.spaces.value[n]).Some?
      && (ingress && Wanted(c, env, n) ==> Right(w, c, env, n))
    case Withdrawing(n, prev) => n in c.spaces.value && prev.Some? && prev.value != c.spaces.value[n].environment
    case Sweeping(at, left) => LeftInv(w, c, env, at, left)
    case Clearing(at, left) => left != [] && Orphan(left[0], KeptHere(c, at), {}) && LeftInv(w, c, env, at, left)
    case _ => true
  }

  /** What a sweep has still to look at is of its namespace and holds every grant there that nobody wants. */
  ghost predicate LeftInv(w: World, c: Caches, env: string, at: string, left: seq<Key>)
    requires Ready(c)
  {
    && (forall k :: k in left ==> k.ns == EnvNs(at))
    && (at == env ==> forall n :: !Wanted(c, env, n) && Ingress(env, n) in w.store.objects ==> Ingress(env, n) in left)
  }

  ghost predicate Memory(w: World, c: Caches, env: string)
    requires Ready(c)
  {
    forall n :: Sound(w, c, env, n)
  }

  ghost predicate Reached(s: Sys, c: Caches, env: string)
    requires Ready(c)
  {
    && (forall n :: n in s.rendered && Wanted(c, env, n) ==> Right(s.w, c, env, n))
    && (env in s.swept ==> forall n :: !Wanted(c, env, n) ==> Right(s.w, c, env, n))
  }

  ghost predicate Inv(s: Sys, c: Caches, env: string)
    requires Ready(c)
  {
    && SpacesListed(s, c) && Memory(s.w, c, env) && Reached(s, c, env)
    && forall p :: p in s.passes ==> PcInv(s.w, c, env, s.passes[p])
  }

  lemma OthersKept(w: World, t: World, c: Caches, env: string, pc: Pc)
    requires Ready(c) && PcInv(w, c, env, pc) && Onward(w, t, c, env)
    ensures PcInv(t, c, env, pc)
  {
    hide Right, Wanted;
  }

  /** The three ways a step changes the objects and the memory. */
  lemma SameObjects(w: World, t: World, c: Caches, env: string)
    requires Ready(c) && t.store.objects == w.store.objects
    requires forall k :: k in t.store.applied ==> k in w.store.applied && t.store.applied[k] == w.store.applied[k]
    ensures Onward(w, t, c, env) && (Memory(w, c, env) ==> Memory(t, c, env))
  {
    if Memory(w, c, env) {
      forall n ensures Sound(t, c, env, n) {
        assert Sound(w, c, env, n);
      }
    }
  }

  lemma DeletedOnward(w: World, c: Caches, env: string, key: Key, net: Net)
    requires Ready(c) && Memory(w, c, env) && (key.ns == EnvNs(env) && key.name.SpaceGrant? ==>
        !Wanted(c, env, key.name.space))
    ensures Onward(w, Deleted(w, key, net), c, env) && Memory(Deleted(w, key, net), c, env)
  {
    forall n ensures Sound(Deleted(w, key, net), c, env, n) {
      assert Sound(w, c, env, n);
    }
  }

  lemma SentOnward(w: World, t: World, c: Caches, env: string, x: Space, ingress: bool)
    requires Ready(c) && Memory(w, c, env) && x.name in c.spaces.value && c.spaces.value[x.name] == x
    requires t == w.(store := w.store.(objects := w.store.objects[KeyOf(x, ingress) := BodyOf(x, ingress)]))
    ensures Onward(w, t, c, env) && Memory(t, c, env)
    ensures ingress && Wanted(c, env, x.name) ==> Right(t, c, env, x.name)
  {
    forall n ensures Sound(t, c, env, n) {
      assert Sound(w, c, env, n);
    }
  }

  lemma StampOnward(w: World, t: World, c: Caches, env: string, x: Space, ingress: bool, now: nat)
    requires Ready(c) && Memory(w, c, env) && x.name in c.spaces.value && c.spaces.value[x.name] == x
    requires ingress && Wanted(c, env, x.name) ==> Right(w, c, env, x.name)
    requires var stamp := Stamp(BodyOf(x, ingress), now);
             t == w.(store := w.store.(applied := w.store.applied[KeyOf(x, ingress) := stamp]))
    ensures Onward(w, t, c, env) && Memory(t, c, env)
  {
    forall n ensures Sound(t, c, env, n) {
      assert Sound(w, c, env, n);
    }
  }

  lemma FreshIsRight(w: World, c: Caches, env: string, x: Space, now: nat)
    requires Ready(c) && Memory(w, c, env) && x.name in c.spaces.value && c.spaces.value[x.name] == x
    requires Wanted(c, env, x.name) && Fresh(w.store, KeyOf(x, true), BodyOf(x, true), now)
    ensures Right(w, c, env, x.name)
  {
    assert Sound(w, c, env, x.name);
  }

  lemma SpaceWorldOnward(s: Sys, c: Caches, env: string, p: nat, o: Outcome)
    requires Ready(c) && Inv(s, c, env) && p in s.passes && !IsSweep(s.passes[p])
    ensures var t := SpaceStep(s, c, p, c.spaces.value[s.passes[p].n], o);
            Onward(s.w, t.w, c, env) && Memory(t.w, c, env)
  {
    var x := c.spaces.value[s.passes[p].n];
    var t := SpaceStep(s, c, p, x, o);
    assert PcInv(s.w, c, env, s.passes[p]);
    match s.passes[p]
    case Sending(n, ingress, prev) =>
      if !o.net.Refused? {
        SentOnward(s.w, t.w, c, env, x, ingress);
      } else {
        SameObjects(s.w, t.w, c, env);
      }
    case Releasing(n, ingress, prev) =>
      if o.net.Reliable? {
        StampOnward(s.w, t.w, c, env, x, ingress, o.now);
      } else {
        SameObjects(s.w, t.w, c, env);
      }
    case Dropping(n, prev) =>
      DeletedOnward(s.w, c, env, Egress(n), o.net);
    case Withdrawing(n, prev) =>
      var w1 := Deleted(s.w, Ingress(prev.value, n), o.net);
      DeletedOnward(s.w, c, env, Ingress(prev.value, n), o.net);
      SameObjects(w1, t.w, c, env);
    case _ =>
      SameObjects(s.w, t.w, c, env);
  }

  lemma SweepWorldOnward(s: Sys, c: Caches, env: string, p: nat, o: Outcome)
    requires Ready(c) && Inv(s, c, env) && p in s.passes && IsSweep(s.passes[p])
    ensures var t := SweepStep(s, c, p, o); Onward(s.w, t.w, c, env) && Memory(t.w, c, env)
  {
    var t := SweepStep(s, c, p, o);
    assert PcInv(s.w, c, env, s.passes[p]);
    if s.passes[p].Clearing? {
      DeletedOnward(s.w, c, env, s.passes[p].left[0], o.net);
    } else {
      SameObjects(s.w, t.w, c, env);
    }
  }

  lemma SpaceStepKeeps(s: Sys, c: Caches, env: string, p: nat, o: Outcome)
    requires Ready(c) && Inv(s, c, env) && p in s.passes && !IsSweep(s.passes[p])
    ensures Inv(SpaceStep(s, c, p, c.spaces.value[s.passes[p].n], o), c, env)
  {
    var x := c.spaces.value[s.passes[p].n];
    var t := SpaceStep(s, c, p, x, o);
    SpaceWorldOnward(s, c, env, p, o);
    assert PcInv(s.w, c, env, s.passes[p]);
    if s.passes[p].Checking? && s.passes[p].ingress && Wanted(c, env, x.name)
       && Fresh(s.w.store, KeyOf(x, true), BodyOf(x, true), o.now) {
      FreshIsRight(s.w, c, env, x, o.now);
    }
    SpacePcKept(s, c, env, p, o);
    KeepRest(s, t, c, env, p);
    ReachedKept(s, c, env, p, o);
  }

  lemma KeepRest(s: Sys, t: Sys, c: Caches, env: string, p: nat)
    requires Ready(c) && Inv(s, c, env) && Onward(s.w, t.w, c, env)
    requires forall q :: q in t.passes && q != p ==> q in s.passes && t.passes[q] == s.passes[q]
    requires p in t.passes ==> PcInv(t.w, c, env, t.passes[p])
    ensures forall q :: q in t.passes ==> PcInv(t.w, c, env, t.passes[q])
  {
    hide PcInv, Onward;
    forall q | q in t.passes && q != p ensures PcInv(t.w, c, env, t.passes[q]) {
      OthersKept(s.w, t.w, c, env, s.passes[q]);
    }
  }

  lemma SpacePcKept(s: Sys, c: Caches, env: string, p: nat, o: Outcome)
    requires Ready(c) && Inv(s, c, env) && p in s.passes && !IsSweep(s.passes[p])
    ensures var t := SpaceStep(s, c, p, c.spaces.value[s.passes[p].n], o);
            p in t.passes ==> PcInv(t.w, c, env, t.passes[p]) && !IsSweep(t.passes[p]) && t.passes[p].n == s.passes[p].n
  {
    var x := c.spaces.value[s.passes[p].n];
    var t := SpaceStep(s, c, p, x, o);
    assert PcInv(s.w, c, env, s.passes[p]);
    if s.passes[p].Sending? && !o.net.Refused? {
      SentOnward(s.w, t.w, c, env, x, s.passes[p].ingress);
    }
    hide Onward, Memory, Fresh;
  }

  lemma ReachedKept(s: Sys, c: Caches, env: string, p: nat, o: Outcome)
    requires Ready(c) && Inv(s, c, env) && p in s.passes && !IsSweep(s.passes[p])
    requires var t := SpaceStep(s, c, p, c.spaces.value[s.passes[p].n], o); Onward(s.w, t.w, c, env)
    ensures Reached(SpaceStep(s, c, p, c.spaces.value[s.passes[p].n], o), c, env)
  {
    var x := c.spaces.value[s.passes[p].n];
    var t := SpaceStep(s, c, p, x, o);
    assert PcInv(s.w, c, env, s.passes[p]);
    if x.name in t.rendered && x.name !in s.rendered && Wanted(c, env, x.name) && s.passes[p].Checking? {
      FreshIsRight(s.w, c, env, x, o.now);
    }
    forall n | n in t.rendered && Wanted(c, env, n) ensures Right(t.w, c, env, n) {
      assert n in s.rendered || n == x.name;
    }
  }

  lemma SweepStepKeeps(s: Sys, c: Caches, env: string, p: nat, o: Outcome)
    requires Ready(c) && Inv(s, c, env) && p in s.passes && IsSweep(s.passes[p]) && Enabled(s, c, Step(p, o))
    ensures Inv(SweepStep(s, c, p, o), c, env)
  {
    var t := SweepStep(s, c, p, o);
    SweepWorldOnward(s, c, env, p, o);
    assert PcInv(s.w, c, env, s.passes[p]);
    SweepPcKept(s, c, env, p, o);
    KeepRest(s, t, c, env, p);
  }

  lemma SweepPcKept(s: Sys, c: Caches, env: string, p: nat, o: Outcome)
    requires Ready(c) && Inv(s, c, env) && p in s.passes && IsSweep(s.passes[p]) && Enabled(s, c, Step(p, o))
    ensures var t := SweepStep(s, c, p, o); p in t.passes ==> PcInv(t.w, c, env, t.passes[p]) && IsSweep(t.passes[p])
  {
    assert PcInv(s.w, c, env, s.passes[p]);
    hide Memory;
  }

  /** Every request of every pass, and every restart and loss of the lease, keeps the invariant. */
  lemma StepKeeps(s: Sys, c: Caches, env: string, a: Action)
    requires Ready(c) && Inv(s, c, env) && Enabled(s, c, a)
    ensures Inv(Do(s, c, a), c, env)
  {
    var t := Do(s, c, a);
    match a
    case Step(p, o) =>
      if IsSweep(s.passes[p]) {
        SweepStepKeeps(s, c, env, p, o);
      } else {
        SpaceStepKeeps(s, c, env, p, o);
      }
    case StartPass(p, n) =>
      SameObjects(s.w, t.w, c, env);
      KeepRest(s, t, c, env, p);
    case StartSweep(p, at) =>
      SameObjects(s.w, t.w, c, env);
      KeepRest(s, t, c, env, p);
    case _ =>
      SameObjects(s.w, t.w, c, env);
      KeepRest(s, t, c, env, 0);
  }

  // ----- any run -----

  ghost predicate IsRun(s: Sys, c: Caches, actions: seq<Action>)
    requires Ready(c)
    decreases |actions|
  {
    actions == [] || (Enabled(s, c, actions[0]) && SpacesListed(s, c) && IsRun(Do(s, c, actions[0]), c, actions[1..]))
  }

  ghost function Final(s: Sys, c: Caches, actions: seq<Action>): Sys
    requires Ready(c) && IsRun(s, c, actions)
    decreases |actions|
  {
    if actions == [] then s else Final(Do(s, c, actions[0]), c, actions[1..])
  }

  lemma {:induction false} RunKeeps(s: Sys, c: Caches, env: string, actions: seq<Action>)
    requires Ready(c) && Inv(s, c, env) && IsRun(s, c, actions)
    ensures Inv(Final(s, c, actions), c, env)
    decreases |actions|
  {
    hide Inv, Do, Enabled;
    if actions != [] {
      StepKeeps(s, c, env, actions[0]);
      RunKeeps(Do(s, c, actions[0]), c, env, actions[1..]);
    }
  }

  // ----- with nobody in between, the steps are the pass -----

  /** The steps of one pass in a row, one outcome each; none after it has ended. */
  function Steps(s: Sys, c: Caches, p: nat, os: seq<Outcome>): Sys
    requires Ready(c)
    decreases |os|
  {
    if os == [] || p !in s.passes || (!IsSweep(s.passes[p]) && s.passes[p].n !in c.spaces.value) then s
    else Steps(Stepped(s, c, p, os[0]), c, p, os[1..])
  }

  lemma {:induction false} StepsConcat(s: Sys, c: Caches, p: nat, a: seq<Outcome>, b: seq<Outcome>)
    requires Ready(c)
    ensures Steps(s, c, p, a + b) == Steps(Steps(s, c, p, a), c, p, b)
    decreases |a|
  {
    hide Stepped;
    if a == [] {
      assert a + b == b;
    } else if p in s.passes && (IsSweep(s.passes[p]) || s.passes[p].n in c.spaces.value) {
      assert (a + b)[1..] == a[1..] + b;
      StepsConcat(Stepped(s, c, p, a[0]), c, p, a[1..], b);
    } else {
      StepsStop(s, c, p, b);
    }
  }

  lemma StepsStop(s: Sys, c: Caches, p: nat, b: seq<Outcome>)
    requires Ready(c) && (p !in s.passes || (!IsSweep(s.passes[p]) && s.passes[p].n !in c.spaces.value))
    ensures Steps(s, c, p, b) == s
  {
  }

  lemma OneStep(s: Sys, c: Caches, p: nat, o: Outcome)
    requires Ready(c) && p in s.passes && (!IsSweep(s.passes[p]) ==> s.passes[p].n in c.spaces.value)
    ensures Steps(s, c, p, [o]) == Stepped(s, c, p, o)
  {
    assert [o][1..] == [];
  }

  /** Equal but for the log of requests, which the steps do not keep. */
  predicate Same(w: World, t: World) {
    w.store == t.store && w.choice == t.choice && w.leading == t.leading
  }

  function Answer(ok: bool): Outcome {
    Outcome(ok, 0, Reliable, None)
  }

  function Reply(net: Net, now: nat): Outcome {
    Outcome(true, now, net, None)
  }

  /** A half is applied as one cached apply does it. */
  lemma HalfIsEnsure(s: Sys, c: Caches, p: nat, x: Space, ingress: bool, prev: Option<string>, now: nat, r: Requests)
    returns (os: seq<Outcome>)
    requires Ready(c) && x.name in c.spaces.value && c.spaces.value[x.name] == x
    requires p in s.passes && s.passes[p] == Checking(x.name, ingress, prev)
    ensures var (w, ok) := EnsureStep(s.w, KeyOf(x, ingress), BodyOf(x, ingress), now, r);
            var t := Steps(s, c, p, os);
            && Same(t.w, w)
            && (ok ==> t == Applied(s, p, t.w, x, ingress, prev)) && (!ok ==>
                p !in t.passes && t.rendered == s.rendered)
  {
    var check, send, release := Reply(Reliable, now), Reply(r.apply, now), Reply(r.release, now);
    var s1 := Stepped(s, c, p, check);
    OneStep(s, c, p, check);
    if Fresh(s.w.store, KeyOf(x, ingress), BodyOf(x, ingress), now) {
      return [check];
    }
    var s2 := Stepped(s1, c, p, send);
    OneStep(s1, c, p, send);
    StepsConcat(s, c, p, [check], [send]);
    if p !in s2.passes {
      return [check] + [send];
    }
    OneStep(s2, c, p, release);
    StepsConcat(s, c, p, [check] + [send], [release]);
    os := [check] + [send] + [release];
  }

  lemma RetractIsSteps(s: Sys, c: Caches, p: nat, x: Space, prev: Option<string>, o: PassScript)
    returns (os: seq<Outcome>)
    requires Ready(c) && x.name in c.spaces.value && c.spaces.value[x.name] == x
    requires p in s.passes && s.passes[p] == Asking(x.name, prev)
    ensures var (w, r) := Retract(s.w, x, prev, o);
            var t := Steps(s, c, p, os);
            && Same(t.w, w) && t.rendered == s.rendered
            && (r == Done ==> t == Next(s, p, t.w, Some(Leaving(x.name, prev)))) && (r != Done ==> p !in t.passes)
  {
    var ask, fence, drop := Answer(o.get), Answer(o.fenceEgress), Reply(o.dropEgress, 0);
    var s1 := Stepped(s, c, p, ask);
    OneStep(s, c, p, ask);
    if p !in s1.passes || !s1.passes[p].Retiring? {
      return [ask];
    }
    var s2 := Stepped(s1, c, p, fence);
    OneStep(s1, c, p, fence);
    StepsConcat(s, c, p, [ask], [fence]);
    if p !in s2.passes {
      return [ask] + [fence];
    }
    OneStep(s2, c, p, drop);
    StepsConcat(s, c, p, [ask] + [fence], [drop]);
    os := [ask] + [fence] + [drop];
  }

  lemma LeaveIsSteps(s: Sys, c: Caches, p: nat, x: Space, prev: Option<string>, o: PassScript)
    returns (os: seq<Outcome>)
    requires Ready(c) && x.name in c.spaces.value && c.spaces.value[x.name] == x
    requires p in s.passes && s.passes[p] == Leaving(x.name, prev)
    ensures var (w, r) := Leave(s.w, x, prev, o);
            var t := Steps(s, c, p, os);
            && p !in t.passes && t.rendered == s.rendered
            && Same(t.w, if r == Done
                         then w.(choice := w.choice[x.name := (x.uid.value, if Resolved(c, x).Some?
                             then x.environment else "")])
                         else w)
  {
    var fence, drop := Answer(o.fenceIngress), Reply(o.dropIngress, 0);
    var s1 := Stepped(s, c, p, fence);
    OneStep(s, c, p, fence);
    if p !in s1.passes {
      return [fence];
    }
    OneStep(s1, c, p, drop);
    StepsConcat(s, c, p, [fence], [drop]);
    os := [fence] + [drop];
  }

  /** However the requests of a pass end, its steps in a row leave the cluster, both memories and the
      leadership as the whole pass does. */
  lemma PassIsSteps(s: Sys, c: Caches, p: nat, x: Space, now: nat, o: PassScript) returns (os: seq<Outcome>)
    requires Ready(c) && x.name in c.spaces.value && c.spaces.value[x.name] == x && p !in s.passes
    ensures var t := Steps(Do0(s, c, p, x.name), c, p, os);
            p !in t.passes && Same(t.w, SpacePass(s.w, c, x, now, o).0)
  {
    var s0 := Do0(s, c, p, x.name);
    var fence := Answer(o.fence);
    var s1 := Stepped(s0, c, p, fence);
    OneStep(s0, c, p, fence);
    if p !in s1.passes {
      return [fence];
    }
    var prev := Previous(s1.w, x);
    var rest := RestIsSteps(s1, c, p, x, prev, now, o);
    StepsConcat(s0, c, p, [fence], rest);
    os := [fence] + rest;
  }

  /** A pass that has begun. */
  function Do0(s: Sys, c: Caches, p: nat, n: string): Sys {
    s.(w := s.w.(choice := Forgotten(s.w.choice, c)), passes := s.passes[p := Fencing(n)])
  }

  lemma RestIsSteps(s: Sys, c: Caches, p: nat, x: Space, prev: Option<string>, now: nat, o: PassScript)
    returns (os: seq<Outcome>)
    requires Ready(c) && x.name in c.spaces.value && c.spaces.value[x.name] == x && p in s.passes
    requires s.passes[p] == if Resolved(c, x).Some? then Checking(x.name, false, prev) else Asking(x.name, prev)
    ensures var (w2, r2) := if Resolved(c, x).Some? then Render(s.w, x, now, o) else Retract(s.w, x, prev, o);
            var (w3, r3) := if r2 == Done then Leave(w2, x, prev, o) else (w2, r2);
            var t := Steps(s, c, p, os);
            && p !in t.passes
            && Same(t.w, if r3 == Done
                         then w3.(choice := w3.choice[x.name := (x.uid.value, if Resolved(c, x).Some?
                             then x.environment else "")])
                         else w3)
  {
    var first: seq<Outcome>;
    if Resolved(c, x).Some? {
      first := RenderIsSteps(s, c, p, x, prev, now, o);
    } else {
      first := RetractIsSteps(s, c, p, x, prev, o);
    }
    var s2 := Steps(s, c, p, first);
    if p in s2.passes {
      var last := LeaveIsSteps(s2, c, p, x, prev, o);
      LeaveSame(s2.w, if Resolved(c, x).Some? then Render(s.w, x, now, o).0
          else Retract(s.w, x, prev, o).0, x, prev, o);
      StepsConcat(s, c, p, first, last);
      os := first + last;
    } else {
      os := first;
    }
    hide Render, Retract, Leave, Steps;
  }

  lemma LeaveSame(w: World, t: World, x: Space, prev: Option<string>, o: PassScript)
    requires Same(w, t)
    ensures Same(Leave(w, x, prev, o).0, Leave(t, x, prev, o).0) && Leave(w, x, prev, o).1 == Leave(t, x, prev, o).1
  {
  }

  lemma EnsureSame(w: World, t: World, key: Key, body: Body, now: nat, r: Requests)
    requires Same(w, t)
    ensures Same(EnsureStep(w, key, body, now, r).0, EnsureStep(t, key, body, now, r).0)
    ensures EnsureStep(w, key, body, now, r).1 == EnsureStep(t, key, body, now, r).1
  {
  }

  lemma RenderIsSteps(s: Sys, c: Caches, p: nat, x: Space, prev: Option<string>, now: nat, o: PassScript)
    returns (os: seq<Outcome>)
    requires Ready(c) && x.name in c.spaces.value && c.spaces.value[x.name] == x
    requires p in s.passes && s.passes[p] == Checking(x.name, false, prev)
    ensures var (w, r) := Render(s.w, x, now, o);
            var t := Steps(s, c, p, os);
            && Same(t.w, w)
            && (r == Done ==> p in t.passes && t.passes[p] == Leaving(x.name, prev) && x.name in t.rendered)
            && (r != Done ==> p !in t.passes)
  {
    var first := HalfIsEnsure(s, c, p, x, false, prev, now, o.egress);
    var s1 := Steps(s, c, p, first);
    var w1 := EnsureStep(s.w, Egress(x.name), EgressBody(x), now, o.egress).0;
    if p !in s1.passes {
      return first;
    }
    var second := HalfIsEnsure(s1, c, p, x, true, prev, now, o.ingress);
    EnsureSame(s1.w, w1, Ingress(x.environment, x.name), IngressBody(x), now, o.ingress);
    StepsConcat(s, c, p, first, second);
    os := first + second;
    hide EnsureStep, Steps;
  }

  /** So are a sweep's, given the same listing; and a sweep that completes is recorded. */
  lemma {:induction false} SweepIsSteps(s: Sys, c: Caches, p: nat, env: string, left: seq<Key>, o: seq<(bool, Net)>)
    returns (os: seq<Outcome>)
    requires Ready(c) && p in s.passes && s.passes[p] == Sweeping(env, left)
    ensures var (w, r) := SweepLoop(s.w, left, KeptHere(c, env), {}, o);
            var t := Steps(s, c, p, os);
            && p !in t.passes && Same(t.w, w)
            && t.swept == if r == Done then s.swept + {env} else s.swept
    decreases |left|
  {
    var (fence, net) := if o == [] then (true, Reliable) else o[0];
    var first := Answer(fence);
    var s1 := Stepped(s, c, p, first);
    OneStep(s, c, p, first);
    if p !in s1.passes {
      return [first];
    }
    if s1.passes[p].Sweeping? {
      var rest := SweepIsSteps(s1, c, p, env, left[1..], o);
      StepsConcat(s, c, p, [first], rest);
      return [first] + rest;
    }
    var drop := Reply(net, 0);
    var s2 := Stepped(s1, c, p, drop);
    OneStep(s1, c, p, drop);
    StepsConcat(s, c, p, [first], [drop]);
    if p !in s2.passes {
      return [first] + [drop];
    }
    var later := if o == [] then [] else o[1..];
    var rest := SweepIsSteps(s2, c, p, env, left[1..], later);
    SweepSame(s2.w, DropStep(FenceStep(s.w, fence).0, left[0], net).0, left[1..], KeptHere(c, env), later);
    StepsConcat(s, c, p, [first] + [drop], rest);
    os := [first] + [drop] + rest;
  }

  lemma {:induction false} SweepSame(w: World, t: World, left: seq<Key>, keep: set<string>, o: seq<(bool, Net)>)
    requires Same(w, t)
    ensures Same(SweepLoop(w, left, keep, {}, o).0, SweepLoop(t, left, keep, {}, o).0)
    ensures SweepLoop(w, left, keep, {}, o).1 == SweepLoop(t, left, keep, {}, o).1
    decreases |left|
  {
    if left != [] {
      var later := if o == [] then [] else o[1..];
      if Orphan(left[0], keep, {}) {
        var (fence, net) := if o == [] then (true, Reliable) else o[0];
        var w1, t1 := FenceStep(w, fence).0, FenceStep(t, fence).0;
        SweepSame(DropStep(w1, left[0], net).0, DropStep(t1, left[0], net).0, left[1..], keep, later);
      } else {
        SweepSame(w, t, left[1..], keep, o);
      }
    }
  }

  /** Convergence with nothing atomic but a request. Start from any cluster and any choice memory, with a
      sound apply memory; let any number of passes and sweeps run at once, their requests interleaving,
      failing and losing their replies, the fences refusing, the process restarting. Once every space
      naming the environment has had its ingress apply completed and the environment a sweep, its
      namespace holds exactly the grants of those spaces, each with its own body. */
  lemma ConvergesInterleaved(s: Sys, c: Caches, env: string, actions: seq<Action>)
    requires Ready(c) && Memory(s.w, c, env) && IsRun(s, c, actions)
    requires s.passes == map[] && s.rendered == {} && s.swept == {}
    requires forall n :: n in c.spaces.value && c.spaces.value[n].environment == env ==>
        n in Final(s, c, actions).rendered
    requires env in Final(s, c, actions).swept
    ensures var t := Final(s, c, actions).w;
            && GrantsIn(t, env) == (set n | n in c.spaces.value && c.spaces.value[n].environment == env)
            && forall n :: n in c.spaces.value && c.spaces.value[n].environment == env ==>
                 Ingress(env, n) in t.store.objects &&
                 t.store.objects[Ingress(env, n)] == IngressBody(c.spaces.value[n])
  {
    assert KeptHere(c, env) == set n | n in c.spaces.value && c.spaces.value[n].environment == env;
    assert Inv(s, c, env);
    RunKeeps(s, c, env, actions);
    var t := Final(s, c, actions);
    forall n ensures Right(t.w, c, env, n) {
      WantedIsListed(c, env, n);
    }
    hide Right, GrantsIn;
    RightEverywhere(t.w, c, env);
  }
}
