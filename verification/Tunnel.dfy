/** The gateway's counted places: a permit out of a global cap, a count per workspace and a count per
    owner, taken and given back in separate lock regions by any number of connections. */
module Tunnel {
  import opened Wrappers

  const MAX_PER_WS := 10
  const MAX_PER_OWNER := 100
  const MAX_TUNNELS := 1000

  type Counts = map<string, nat>

  function Count(m: Counts, key: string): nat {
    if key in m then m[key] else 0
  }

  ghost predicate NoZero(m: Counts) {
    forall k :: k in m ==> m[k] != 0
  }

  /** What `take` leaves: a refusal changes nothing, since a refused key is already there. */
  function Taken(m: Counts, key: string, limit: nat): Counts {
    if Count(m, key) >= limit then m[key := Count(m, key)] else m[key := Count(m, key) + 1]
  }

  /** What `release` leaves: the entry goes with its last holder. */
  function Released(m: Counts, key: string): Counts {
    if Count(m, key) > 1 then m[key := m[key] - 1] else m - {key}
  }

  /** Where a connection is. `Reserving` holds only the permit; `Open` is a live slot; `Leaving` has
      given back its workspace count; `Parting` holds nothing but the permit it is about to return. */
  datatype Stage = Reserving | Open | Leaving | Parting
  datatype Conn = Conn(ws: string, owner: Option<string>, stage: Stage)

  datatype Sys = Sys(permits: nat, perWs: Counts, perOwner: Counts, conns: map<nat, Conn>)

  datatype Action =
    | Acquire(id: nat, ws: string)
    | TakeWs(id: nat)
    | Charge(id: nat, owner: string)
    | DropWs(id: nat)
    | DropOwner(id: nat)
    | ReturnPermit(id: nat)

  predicate At(s: Sys, id: nat, stage: Stage) {
    id in s.conns && s.conns[id].stage == stage
  }

  /** A slot is charged to an owner at most once, as both callers do; a refused charge may be repeated. */
  predicate Enabled(s: Sys, a: Action) {
    match a
    case Acquire(id, _) => id !in s.conns
    case TakeWs(id) => At(s, id, Reserving)
    case Charge(id, _) => At(s, id, Open) && s.conns[id].owner.None?
    case DropWs(id) => At(s, id, Open)
    case DropOwner(id) => At(s, id, Leaving)
    case ReturnPermit(id) => At(s, id, Parting)
  }

  function Do(s: Sys, a: Action): Sys
    requires a.Charge? ==> At(s, a.id, Open)
    requires !a.Charge? ==> Enabled(s, a)
  {
    var c := if a.id in s.conns then s.conns[a.id] else Conn("", None, Parting);
    match a
    case Acquire(id, ws) =>
      if s.permits == 0 then s else s.(permits := s.permits - 1, conns := s.conns[id := Conn(ws, None, Reserving)])
    case TakeWs(id) =>
      var next := if Count(s.perWs, c.ws) >= MAX_PER_WS then Parting else Open;
      s.(perWs := Taken(s.perWs, c.ws, MAX_PER_WS), conns := s.conns[id := c.(stage := next)])
    case Charge(id, owner) =>
      var charged := if Count(s.perOwner, owner) >= MAX_PER_OWNER then c else c.(owner := Some(owner));
      s.(perOwner := Taken(s.perOwner, owner, MAX_PER_OWNER), conns := s.conns[id := charged])
    case DropWs(id) =>
      s.(perWs := Released(s.perWs, c.ws), conns := s.conns[id := c.(stage := Leaving)])
    case DropOwner(id) =>
      s.(perOwner := if c.owner.Some? then Released(s.perOwner, c.owner.value) else s.perOwner,
         conns := s.conns[id := c.(stage := Parting)])
    case ReturnPermit(id) =>
      s.(permits := s.permits + 1, conns := s.conns - {id})
  }

  const FRESH := Sys(MAX_TUNNELS, map[], map[], map[])

  ghost predicate IsRun(s: Sys, actions: seq<Action>)
    decreases |actions|
  {
    actions == [] || (Enabled(s, actions[0]) && IsRun(Do(s, actions[0]), actions[1..]))
  }

  function Run(s: Sys, actions: seq<Action>): Sys
    requires IsRun(s, actions)
    decreases |actions|
  {
    if actions == [] then s else Run(Do(s, actions[0]), actions[1..])
  }

  // ---- what the counts have to say ----

  predicate HoldsWs(c: Conn, ws: string) {
    c.stage == Open && c.ws == ws
  }

  predicate HoldsOwner(c: Conn, owner: string) {
    (c.stage == Open || c.stage == Leaving) && c.owner == Some(owner)
  }

  /** The connections holding a place counted against `ws`. */
  function OfWs(conns: map<nat, Conn>, ws: string): set<nat> {
    set id | id in conns && HoldsWs(conns[id], ws)
  }

  function OfOwner(conns: map<nat, Conn>, owner: string): set<nat> {
    set id | id in conns && HoldsOwner(conns[id], owner)
  }

  ghost predicate WsCounted(s: Sys) {
    forall ws: string :: Count(s.perWs, ws) == |OfWs(s.conns, ws)| <= MAX_PER_WS
  }

  ghost predicate OwnersCounted(s: Sys) {
    forall o: string :: Count(s.perOwner, o) == |OfOwner(s.conns, o)| <= MAX_PER_OWNER
  }

  /** Only an open slot is ever charged. */
  ghost predicate Uncharged(s: Sys) {
    forall id :: At(s, id, Reserving) ==> s.conns[id].owner.None?
  }

  ghost predicate Inv(s: Sys) {
    && Uncharged(s)
    && s.permits + |s.conns| == MAX_TUNNELS
    && WsCounted(s) && OwnersCounted(s)
    && NoZero(s.perWs) && NoZero(s.perOwner)
  }

  lemma TakenCounts(m: Counts, key: string, limit: nat, k: string)
    requires NoZero(m) && limit > 0
    ensures NoZero(Taken(m, key, limit))
    ensures Count(Taken(m, key, limit), k) == Count(m, k) + if k == key && Count(m, key) < limit then 1 else 0
  {
  }

  lemma ReleasedCounts(m: Counts, key: string, k: string)
    requires NoZero(m) && Count(m, key) > 0
    ensures NoZero(Released(m, key))
    ensures Count(Released(m, key), k) == Count(m, k) - if k == key then 1 else 0
  {
  }

  /** How one connection's change shows in the sets counted: only in those it enters or leaves. */
  lemma WsMoves(conns: map<nat, Conn>, id: nat, c: Conn, ws: string)
    ensures var was := id in conns && HoldsWs(conns[id], ws);
            |OfWs(conns[id := c], ws)| == |OfWs(conns, ws)| - (if was then 1 else 0) + (if HoldsWs(c, ws) then 1 else 0)
  {
    var base := OfWs(conns, ws) - {id};
    assert OfWs(conns[id := c], ws) == if HoldsWs(c, ws) then base + {id} else base;
    assert OfWs(conns, ws) == if id in conns && HoldsWs(conns[id], ws) then base + {id} else base;
    hide OfWs, HoldsWs;
  }

  lemma OwnerMoves(conns: map<nat, Conn>, id: nat, c: Conn, o: string)
    ensures var was := id in conns && HoldsOwner(conns[id], o);
            |OfOwner(conns[id := c], o)| ==
            |OfOwner(conns, o)| - (if was then 1 else 0) + (if HoldsOwner(c, o) then 1 else 0)
  {
    var base := OfOwner(conns, o) - {id};
    assert OfOwner(conns[id := c], o) == if HoldsOwner(c, o) then base + {id} else base;
    assert OfOwner(conns, o) == if id in conns && HoldsOwner(conns[id], o) then base + {id} else base;
    hide OfOwner, HoldsOwner;
  }

  lemma SizePut(conns: map<nat, Conn>, id: nat, c: Conn)
    ensures |conns[id := c]| == if id in conns then |conns| else |conns| + 1
  {
    assert conns[id := c].Keys == conns.Keys + {id};
  }

  lemma SizeLess(conns: map<nat, Conn>, id: nat)
    requires id in conns
    ensures |conns - {id}| == |conns| - 1
  {
    assert (conns - {id}).Keys == conns.Keys - {id};
  }

  lemma PermitsKept(s: Sys, a: Action)
    requires s.permits + |s.conns| == MAX_TUNNELS && Enabled(s, a)
    ensures Do(s, a).permits + |Do(s, a).conns| == MAX_TUNNELS
  {
    hide Taken, Released, Count;
    var t := Do(s, a);
    if a.ReturnPermit? {
      SizeLess(s.conns, a.id);
    } else if a.id in t.conns {
      SizePut(s.conns, a.id, t.conns[a.id]);
    }
  }

  lemma WsKept(s: Sys, a: Action)
    requires Inv(s) && Enabled(s, a)
    ensures WsCounted(Do(s, a)) && NoZero(Do(s, a).perWs)
  {
    hide OwnersCounted, HoldsOwner;
    var t := Do(s, a);
    if a.Acquire? && s.permits == 0 {
      return;
    }
    var c := if a.id in s.conns then s.conns[a.id] else Conn("", None, Parting);
    forall ws: string
      ensures Count(t.perWs, ws) == |OfWs(t.conns, ws)| <= MAX_PER_WS && NoZero(t.perWs)
    {
      assert Count(s.perWs, ws) == |OfWs(s.conns, ws)| <= MAX_PER_WS;
      if a.ReturnPermit? {
        assert OfWs(t.conns, ws) == OfWs(s.conns, ws);
      } else {
        WsMoves(s.conns, a.id, t.conns[a.id], ws);
        if a.TakeWs? {
          TakenCounts(s.perWs, c.ws, MAX_PER_WS, ws);
        } else if a.DropWs? {
          assert a.id in OfWs(s.conns, c.ws);
          assert Count(s.perWs, c.ws) == |OfWs(s.conns, c.ws)|;
          ReleasedCounts(s.perWs, c.ws, ws);
        }
      }
    }
  }

  lemma OwnersKept(s: Sys, a: Action)
    requires Inv(s) && Enabled(s, a)
    ensures OwnersCounted(Do(s, a)) && NoZero(Do(s, a).perOwner)
  {
    hide WsCounted, HoldsWs;
    var t := Do(s, a);
    if a.Acquire? && s.permits == 0 {
      return;
    }
    var c := if a.id in s.conns then s.conns[a.id] else Conn("", None, Parting);
    forall o: string
      ensures Count(t.perOwner, o) == |OfOwner(t.conns, o)| <= MAX_PER_OWNER && NoZero(t.perOwner)
    {
      assert Count(s.perOwner, o) == |OfOwner(s.conns, o)| <= MAX_PER_OWNER;
      if a.ReturnPermit? {
        assert OfOwner(t.conns, o) == OfOwner(s.conns, o);
      } else {
        OwnerMoves(s.conns, a.id, t.conns[a.id], o);
        if a.Charge? {
          TakenCounts(s.perOwner, a.owner, MAX_PER_OWNER, o);
        } else if a.DropOwner? && c.owner.Some? {
          assert a.id in OfOwner(s.conns, c.owner.value);
          assert Count(s.perOwner, c.owner.value) == |OfOwner(s.conns, c.owner.value)|;
          ReleasedCounts(s.perOwner, c.owner.value, o);
        }
      }
    }
  }

  lemma UnchargedKept(s: Sys, a: Action)
    requires Uncharged(s) && Enabled(s, a)
    ensures Uncharged(Do(s, a))
  {
    hide Taken, Released;
  }

  /** Every step of every connection keeps the accounts. */
  lemma StepKeeps(s: Sys, a: Action)
    requires Inv(s) && Enabled(s, a)
    ensures Inv(Do(s, a))
  {
    hide Do, Enabled, Uncharged, WsCounted, OwnersCounted, NoZero;
    UnchargedKept(s, a);
    PermitsKept(s, a);
    WsKept(s, a);
    OwnersKept(s, a);
  }

  /** Over every interleaving: counts equal live slots, caps hold, nothing is left at zero. */
  lemma {:induction false} RunKeeps(s: Sys, actions: seq<Action>)
    requires Inv(s) && IsRun(s, actions)
    ensures Inv(Run(s, actions))
    decreases |actions|
  {
    hide Inv;
    if actions != [] {
      StepKeeps(s, actions[0]);
      RunKeeps(Do(s, actions[0]), actions[1..]);
    }
  }

  lemma FreshIsSound()
    ensures Inv(FRESH)
  {
    forall k: string
      ensures OfWs(map[], k) == {} && OfOwner(map[], k) == {}
    {
    }
  }

  /** The counters carry no history of their own: sound accounts over the same connections are the same. */
  lemma AccountsFollowConns(s: Sys, t: Sys)
    requires Inv(s) && Inv(t) && s.conns == t.conns
    ensures s == t
  {
    forall k: string
      ensures k in s.perWs <==> k in t.perWs
      ensures k in s.perWs ==> s.perWs[k] == t.perWs[k]
      ensures k in s.perOwner <==> k in t.perOwner
      ensures k in s.perOwner ==> s.perOwner[k] == t.perOwner[k]
    {
      assert Count(s.perWs, k) == Count(t.perWs, k) == |OfWs(s.conns, k)|;
      assert Count(s.perOwner, k) == Count(t.perOwner, k) == |OfOwner(s.conns, k)|;
    }
    assert s.perWs == t.perWs && s.perOwner == t.perOwner;
  }

  /** So nothing leaks: once every connection has gone, the gateway is exactly as it was started. */
  lemma AllGoneIsFresh(actions: seq<Action>)
    requires IsRun(FRESH, actions) && Run(FRESH, actions).conns == map[]
    ensures Run(FRESH, actions) == FRESH
  {
    hide Inv;
    FreshIsSound();
    RunKeeps(FRESH, actions);
    AccountsFollowConns(Run(FRESH, actions), FRESH);
  }

  /** Whether a place is given: exactly when the cap has room, in terms of the slots alive. */
  lemma PlaceGivenExactly(s: Sys, id: nat)
    requires Inv(s) && At(s, id, Reserving)
    ensures At(Do(s, TakeWs(id)), id, Open) <==> |OfWs(s.conns, s.conns[id].ws)| < MAX_PER_WS
    ensures |OfWs(s.conns, s.conns[id].ws)| >= MAX_PER_WS ==> Do(s, TakeWs(id)).perWs == s.perWs
  {
    assert Count(s.perWs, s.conns[id].ws) == |OfWs(s.conns, s.conns[id].ws)|;
  }

  /** Why a slot may be charged only once: a second charge keeps the accounts exactly when it is refused. */
  lemma SecondChargeExactly(s: Sys, id: nat, owner: string)
    requires Inv(s) && At(s, id, Open)
    ensures Inv(Do(s, Charge(id, owner))) <==> s.conns[id].owner.None? || Count(s.perOwner, owner) >= MAX_PER_OWNER
  {
    var t := Do(s, Charge(id, owner));
    var c := s.conns[id];
    if c.owner.None? {
      StepKeeps(s, Charge(id, owner));
    } else if Count(s.perOwner, owner) >= MAX_PER_OWNER {
      assert s.conns[id := c] == s.conns;
      assert s.perOwner[owner := Count(s.perOwner, owner)] == s.perOwner;
      assert t == s;
    } else {
      var first := c.owner.value;
      OwnerMoves(s.conns, id, t.conns[id], first);
      TakenCounts(s.perOwner, owner, MAX_PER_OWNER, first);
      assert Count(s.perOwner, first) == |OfOwner(s.conns, first)|;
      assert Count(t.perOwner, first) != |OfOwner(t.conns, first)|;
    }
  }

  // ---- the code, with nobody in between ----

  /** A reservation with nobody in between: the permit and the place, or no change at all. */
  lemma ReserveSteps(s: Sys, ws: string, id: nat)
    requires Inv(s) && id !in s.conns && s.permits > 0
    ensures Count(s.perWs, ws) == |OfWs(s.conns, ws)|
    ensures Count(s.perWs, ws) >= MAX_PER_WS ==> Taken(s.perWs, ws, MAX_PER_WS) == s.perWs
    ensures Count(s.perWs, ws) < MAX_PER_WS ==>
      Inv(Sys(s.permits - 1, Taken(s.perWs, ws, MAX_PER_WS), s.perOwner, s.conns[id := Conn(ws, None, Open)]))
  {
    var held := Do(s, Acquire(id, ws));
    var t := Do(held, TakeWs(id));
    assert Inv(t) by {
      hide Inv;
      StepKeeps(s, Acquire(id, ws));
      StepKeeps(held, TakeWs(id));
    }
    assert Count(s.perWs, ws) == |OfWs(s.conns, ws)|;
    hide Inv;
    if Count(s.perWs, ws) < MAX_PER_WS {
      assert t.conns == s.conns[id := Conn(ws, None, Open)];
    }
  }

  lemma DropSteps(s: Sys, id: nat)
    requires Inv(s) && At(s, id, Open)
    ensures var c := s.conns[id];
            var owners := if c.owner.Some? then Released(s.perOwner, c.owner.value) else s.perOwner;
            Inv(Sys(s.permits + 1, Released(s.perWs, c.ws), owners, s.conns - {id}))
  {
    hide Inv;
    var s1 := Do(s, DropWs(id));
    var s2 := Do(s1, DropOwner(id));
    var s3 := Do(s2, ReturnPermit(id));
    StepKeeps(s, DropWs(id));
    StepKeeps(s1, DropOwner(id));
    StepKeeps(s2, ReturnPermit(id));
    assert s3.conns == s.conns - {id};
  }

  class Counter {
    var held: Counts

    constructor ()
      ensures held == map[]
    {
      held := map[];
    }

    method Take(key: string, limit: nat) returns (ok: bool)
      modifies this
      ensures ok <==> Count(old(held), key) < limit
      ensures held == Taken(old(held), key, limit)
    {
      if key !in held {
        held := held[key := 0];
      }
      var n := held[key];
      if n >= limit {
        return false;
      }
      held := held[key := n + 1];
      ok := true;
    }

    method Release(key: string)
      modifies this
      ensures held == Released(old(held), key)
    {
      if key in held && held[key] > 1 {
        held := held[key := held[key] - 1];
      } else {
        held := held - {key};
      }
    }
  }

  class Gateway {
    var permits: nat
    const perWs: Counter
    const perOwner: Counter
    /** The connections under way, by an identity of their own. */
    ghost var conns: map<nat, Conn>

    constructor ()
      ensures Valid() && View() == FRESH
      ensures fresh(perWs) && fresh(perOwner)
    {
      permits, conns := MAX_TUNNELS, map[];
      perWs := new Counter();
      perOwner := new Counter();
      new;
      FreshIsSound();
    }

    ghost function View(): Sys
      reads this, perWs, perOwner
    {
      Sys(permits, perWs.held, perOwner.held, conns)
    }

    ghost predicate Valid()
      reads this, perWs, perOwner
    {
      perWs != perOwner && Inv(View())
    }

    /** The permit comes first; when the workspace then refuses, it goes straight back. */
    method Reserve(ws: string, ghost id: nat) returns (slot: Option<Slot>)
      requires Valid() && id !in conns
      modifies this, perWs
      ensures Valid()
      ensures slot.Some? <==> old(permits) > 0 && |OfWs(old(conns), ws)| < MAX_PER_WS
      ensures slot.None? ==> View() == old(View())
      ensures slot.Some? ==> fresh(slot.value) && slot.value.gw == this && slot.value.id == id
      ensures slot.Some? ==> slot.value.ws == ws && slot.value.owner == None && slot.value.Valid()
      ensures slot.Some? ==> conns == old(conns)[id := Conn(ws, None, Open)]
    {
      hide Uncharged, WsCounted, OwnersCounted, NoZero, OfWs;
      if permits == 0 {
        return None;
      }
      ReserveSteps(View(), ws, id);
      permits := permits - 1;
      var ok := perWs.Take(ws, MAX_PER_WS);
      if !ok {
        permits := permits + 1;
        return None;
      }
      conns := conns[id := Conn(ws, None, Open)];
      var s := new Slot(this, ws, id);
      slot := Some(s);
    }
  }

  class Slot {
    const gw: Gateway
    const ws: string
    var owner: Option<string>
    ghost const id: nat

    constructor (gw: Gateway, ws: string, ghost id: nat)
      ensures this.gw == gw && this.ws == ws && this.id == id && owner == None
    {
      this.gw, this.ws, this.id, owner := gw, ws, id, None;
    }

    ghost predicate Valid()
      reads this, gw, gw.perWs, gw.perOwner
    {
      gw.Valid() && id in gw.conns && gw.conns[id] == Conn(ws, owner, Open)
    }

    method Charge(to: string) returns (ok: bool)
      requires Valid() && owner == None
      modifies this`owner, gw`conns, gw.perOwner
      ensures Valid()
      ensures ok <==> |OfOwner(old(gw.conns), to)| < MAX_PER_OWNER
      ensures ok ==> owner == Some(to)
      ensures !ok ==> owner == None && gw.View() == old(gw.View())
    {
      ghost var before := gw.View();
      assert Count(before.perOwner, to) == |OfOwner(before.conns, to)|;
      StepKeeps(before, Action.Charge(id, to));
      ok := gw.perOwner.Take(to, MAX_PER_OWNER);
      if ok {
        owner := Some(to);
      }
      gw.conns := gw.conns[id := Conn(ws, owner, Open)];
      assert gw.View() == Do(before, Action.Charge(id, to));
      if !ok {
        assert gw.conns == before.conns;
        assert gw.perOwner.held == before.perOwner;
      }
    }

    /** Everything the slot held goes back, and nothing else moves. */
    method Drop()
      requires Valid()
      modifies gw`permits, gw`conns, gw.perWs, gw.perOwner
      ensures gw.Valid()
      ensures gw.conns == old(gw.conns) - {id} && gw.permits == old(gw.permits) + 1
    {
      hide Uncharged, WsCounted, OwnersCounted, NoZero;
      DropSteps(gw.View(), id);
      gw.perWs.Release(ws);
      if owner.Some? {
        gw.perOwner.Release(owner.value);
      }
      gw.permits := gw.permits + 1;
      gw.conns := gw.conns - {id};
    }
  }
}
