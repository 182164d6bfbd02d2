/** Placement: every node watches the objects with no node and races to write its own name on one. */
module Claim {
  import opened Wrappers

  /** A status block as stored, field by field. */
  type Status = map<string, string>
  /** One version of the object; versions number the writes to it. */
  datatype Obj = Obj(version: nat, status: Status)

  const BEST_FIT_SECS: int := 15

  function NodeOf(o: Obj): string {
    if "nodeName" in o.status then o.status["nodeName"] else ""
  }

  /** This node's replica row: synced, and the cut it holds of each worktree. */
  datatype Replica = Replica(synced: bool, branches: map<string, string>)
  /** What is known about the volume behind the object. */
  datatype Placement = Placement(hasSnapshots: bool, mine: Option<Replica>, newest: Option<string>, worktree: string)

  /** Everything the decision reads besides the object. `owner` is the volume's owner or empty,
      `roomiest` the node a fresh parent is left to. */
  datatype Facts = Facts(retired: bool, owner: string, ownerGone: bool, placement: Placement,
                         fits: bool, unplacedSecs: int, roomiest: Option<string>)

  datatype Verdict = Claims(patch: Status) | Decline | Later | NoCapacity

  function UpToDate(r: Replica, worktree: string, newest: Option<string>): bool {
    match newest
    case None => r.synced
    case Some(cut) => worktree in r.branches && r.branches[worktree] == cut
  }

  function MayClaim(me: string, owner: string, p: Placement): bool {
    !p.hasSnapshots || owner == me || (p.mine.Some? && UpToDate(p.mine.value, p.worktree, p.newest))
  }

  function Patch(me: string, phase: string, condition: string): Status {
    map["phase" := phase, "nodeName" := me, "conditions" := condition]
  }

  function Decide(me: string, o: Obj, f: Facts, phase: string, condition: string): Verdict {
    if NodeOf(o) != "" || f.retired then Decline
    else if f.owner != "" && f.owner != me && !f.ownerGone then Decline
    else if !MayClaim(me, f.owner, f.placement) then Later
    else if !f.placement.hasSnapshots && !f.fits then NoCapacity
    else if !f.placement.hasSnapshots && f.unplacedSecs < BEST_FIT_SECS && f.roomiest.Some? && f.roomiest.value != me
    then Later
    else Claims(Patch(me, phase, condition))
  }

  /** The claim's own fields laid over the status of the object it was decided on. */
  function Merged(o: Obj, patch: Status): Status {
    o.status + patch
  }

  /** `after` is a claim of `over` by `me`: the node was empty, and only the three fields differ. */
  predicate ClaimOf(me: string, over: Status, after: Status) {
    && ("nodeName" in over ==> over["nodeName"] == "")
    && "nodeName" in after && after["nodeName"] == me
    && (forall k :: k in over ==> k in after)
    && forall k :: k in after && k !in {"phase", "nodeName", "conditions"} ==> k in over && after[k] == over[k]
  }

  /** Where the bytes are: nowhere yet, at this node's own volume, or in this node's replica, which then holds
      the worktree's newest cut, or is synced when there is none. */
  predicate BytesAtHand(me: string, f: Facts) {
    var p := f.placement;
    || !p.hasSnapshots
    || f.owner == me
    || (p.mine.Some? && match p.newest
                        case Some(cut) => p.worktree in p.mine.value.branches &&
                            p.mine.value.branches[p.worktree] == cut
                        case None => p.mine.value.synced)
  }

  /** A node may claim: the object names none, the node is not being retired, no other live node owns the
      volume, and the bytes are at hand. A parent without bytes must fit besides, and is left to the
      roomiest node for its first seconds. */
  predicate Eligible(me: string, o: Obj, f: Facts) {
    && ("nodeName" in o.status ==> o.status["nodeName"] == "") && !f.retired
    && (f.owner == "" || f.owner == me || f.ownerGone)
    && BytesAtHand(me, f)
    && (!f.placement.hasSnapshots ==>
          f.fits && (f.unplacedSecs >= BEST_FIT_SECS || f.roomiest.None? || f.roomiest.value == me))
  }

  /** The decision is to claim exactly for an eligible node; a node without the bytes asks again later, and
      one without the room says so. */
  lemma DecidesExactly(me: string, o: Obj, f: Facts, phase: string, condition: string)
    ensures Decide(me, o, f, phase, condition).Claims? <==> Eligible(me, o, f)
    ensures Decide(me, o, f, phase, condition).Claims? ==>
              Decide(me, o, f, phase, condition).patch == map["phase" := phase, "nodeName" := me,
                  "conditions" := condition]
    ensures (NodeOf(o) == "" && !f.retired && (f.owner == "" || f.owner == me || f.ownerGone)) ==>
              && (!BytesAtHand(me, f) ==> Decide(me, o, f, phase, condition).Later?)
              && (!f.placement.hasSnapshots && !f.fits ==> Decide(me, o, f, phase, condition).NoCapacity?)
  {
  }

  lemma MergeIsClaim(me: string, o: Obj, f: Facts, phase: string, condition: string)
    requires Decide(me, o, f, phase, condition).Claims?
    ensures ClaimOf(me, o.status, Merged(o, Decide(me, o, f, phase, condition).patch))
    ensures Eligible(me, o, f)
  {
    DecidesExactly(me, o, f, phase, condition);
  }

  // ----- the code: one optimistic attempt, then one re-read and one more -----

  class Api {
    var stored: Obj

    constructor (o: Obj)
      ensures stored == o
    {
      stored := o;
    }

    method ReplaceStatus(o: Obj, status: Status) returns (ok: bool)
      modifies this
      ensures ok <==> old(stored).version == o.version
      ensures stored == if ok then Obj(o.version + 1, status) else old(stored)
    {
      ok := stored.version == o.version;
      if ok {
        stored := Obj(o.version + 1, status);
      }
    }

    /** Somebody else's writes landing between two of this node's steps. */
    method Interfere(o: Option<Obj>)
      modifies this
      ensures stored == if o.Some? && o.value.version > old(stored).version then o.value else old(stored)
    {
      if o.Some? && o.value.version > stored.version {
        stored := o.value;
      }
    }

    /** `cached` is the watch's copy, perhaps stale; `facts` and `meanwhile` are what each attempt finds
        out and what lands before its write. */
    method ClaimIt(me: string, cached: Obj, phase: string, condition: string,
                   facts: seq<Facts>, meanwhile: seq<Option<Obj>>) returns (won: bool, over: Obj)
      requires |facts| == |meanwhile| == 2
      requires cached.version == stored.version ==> cached == stored
      modifies this
      ensures won ==> stored.version == over.version + 1 && ClaimOf(me, over.status, stored.status)
      ensures won ==> exists i :: 0 <= i < 2 && Eligible(me, over, facts[i])
      ensures !won ==> stored == old(stored) || exists i :: 0 <= i < 2 && meanwhile[i] == Some(stored)
      ensures meanwhile == [None, None] ==>
                (won <==> (&& Eligible(me, cached, facts[0])
                           && (cached == old(stored) || Eligible(me, old(stored), facts[1]))))
    {
      var o := cached;
      over := o;
      for attempt := 0 to 2
        invariant stored == old(stored) || exists i :: 0 <= i < attempt && meanwhile[i] == Some(stored)
        invariant attempt == 0 ==> o == cached && stored == old(stored)
        invariant attempt > 0 ==> Eligible(me, cached, facts[0])
        invariant attempt > 0 && meanwhile == [None, None] ==> o == stored == old(stored) && cached != stored
        invariant attempt == 2 ==> meanwhile != [None, None]
      {
        DecidesExactly(me, o, facts[attempt], phase, condition);
        match Decide(me, o, facts[attempt], phase, condition) {
          case Claims(patch) =>
            Interfere(meanwhile[attempt]);
            var ok := ReplaceStatus(o, Merged(o, patch));
            if ok {
              MergeIsClaim(me, o, facts[attempt], phase, condition);
              return true, o;
            }
            o := stored;
          case _ =>
            return false, o;
        }
      }
      return false, o;
    }
  }

  // ----- every interleaving -----

  /** A node's claim in progress: the attempt and the version it works from. */
  datatype Pc = Idle | Deciding(attempt: nat, k: nat) | Writing(attempt: nat, k: nat, f: Facts, patch: Status) | Losing

  /** All versions of the object so far, the last one stored; `k` above indexes it. */
  datatype Sys = Sys(versions: seq<Status>, nodes: map<string, Pc>)

  datatype Action =
    | Wake(node: string, seen: nat)
    | Choose(node: string, f: Facts, phase: string, condition: string)
    | Put(node: string, net: Net)
    | Reread(node: string)
    | Unplace(status: Status)
    | OtherWrite(status: Status)

  function At(s: Sys, k: nat): Obj
    requires k < |s.versions|
  {
    Obj(k, s.versions[k])
  }

  function Current(s: Sys): Obj
    requires s.versions != []
  {
    At(s, |s.versions| - 1)
  }

  /** Foreign writers never place the object: they take its node away or leave it as it is. */
  predicate Enabled(s: Sys, a: Action) {
    s.versions != [] &&
    match a
    case Unplace(status) => NodeOf(Obj(0, status)) == ""
    case OtherWrite(status) => NodeOf(Obj(0, status)) == NodeOf(Current(s))
    case _ =>
      a.node in s.nodes &&
      var pc := s.nodes[a.node];
      match a
      case Wake(_, k) => pc.Idle? && k < |s.versions|
      case Choose(_, _, _, _) => pc.Deciding? && pc.k < |s.versions|
      case Put(_, _) => pc.Writing? && pc.k < |s.versions|
      case _ => pc.Losing?
  }

  /** The write finds the version it was decided on and takes effect. */
  predicate Lands(s: Sys, a: Action) {
    Enabled(s, a) && a.Put? && !a.net.Refused? && s.nodes[a.node].k == |s.versions| - 1
  }

  function Do(s: Sys, a: Action): Sys
    requires Enabled(s, a)
  {
    match a
    case Wake(n, k) => s.(nodes := s.nodes[n := Deciding(0, k)])
    case Choose(n, f, phase, condition) =>
      var pc := s.nodes[n];
      var v := Decide(n, At(s, pc.k), f, phase, condition);
      s.(nodes := s.nodes[n := if v.Claims? then Writing(pc.attempt, pc.k, f, v.patch) else Idle])
    case Put(n, net) =>
      var pc := s.nodes[n];
      if Lands(s, a) then Sys(s.versions + [Merged(At(s, pc.k), pc.patch)], s.nodes[n := Idle])
      else s.(nodes := s.nodes[n := if net.Refused? || pc.attempt == 1 then Idle else Losing])
    case Reread(n) => s.(nodes := s.nodes[n := Deciding(1, |s.versions| - 1)])
    case Unplace(status) => s.(versions := s.versions + [status])
    case OtherWrite(status) => s.(versions := s.versions + [status])
  }

  /** A node that wakes to the stored version and is let alone claims it exactly when eligible, writing its
      three fields over the rest. */
  lemma AttemptIsExact(s: Sys, n: string, f: Facts, phase: string, condition: string)
    requires s.versions != [] && n in s.nodes && s.nodes[n].Idle?
    ensures var awake := Do(s, Wake(n, |s.versions| - 1));
            var chosen := Do(awake, Choose(n, f, phase, condition));
            && (chosen.nodes[n].Writing? <==> Eligible(n, Current(s), f))
            && (Eligible(n, Current(s), f) ==>
                  Do(chosen, Put(n, Reliable)).versions == s.versions +
                    [Current(s).status + map["phase" := phase, "nodeName" := n, "conditions" := condition]])
            && (!Eligible(n, Current(s), f) ==> chosen.versions == s.versions && chosen.nodes[n].Idle?)
  {
    DecidesExactly(n, Current(s), f, phase, condition);
  }

  ghost predicate IsRun(states: seq<Sys>, actions: seq<Action>) {
    && |states| == |actions| + 1 && states[0].versions != []
    && (forall n :: n in states[0].nodes ==> n != "" && states[0].nodes[n] == Idle)
    && forall i :: 0 <= i < |actions| ==> Enabled(states[i], actions[i]) && states[i + 1] == Do(states[i], actions[i])
  }

  /** A write in flight was decided on the version it will compare with. */
  ghost predicate Decided(s: Sys, n: string) {
    n in s.nodes && s.nodes[n].Writing? ==>
      var pc := s.nodes[n];
      pc.k < |s.versions| && exists phase, condition ::
          Decide(n, At(s, pc.k), pc.f, phase, condition) == Claims(pc.patch)
  }

  lemma {:induction false} RunKeeps(states: seq<Sys>, actions: seq<Action>, i: nat)
    requires IsRun(states, actions) && i < |states|
    ensures states[i].versions != [] && forall n :: n in states[i].nodes ==> n != "" && Decided(states[i], n)
  {
    if i > 0 {
      RunKeeps(states, actions, i - 1);
      var s, a, t := states[i - 1], actions[i - 1], states[i];
      forall n | n in t.nodes ensures n != "" && Decided(t, n) {
        assert Decided(s, n);
        if t.nodes[n].Writing? {
          assert At(t, t.nodes[n].k) == At(s, t.nodes[n].k);
          if a.Choose? && a.node == n {
            assert Decide(n, At(s, t.nodes[n].k), a.f, a.phase, a.condition) == Claims(t.nodes[n].patch);
          }
        }
      }
    }
  }

  /** What a claim that lands does: it replaces a version with no node by one naming its own node and
      differing in nothing but phase, node and conditions; and its node passed the placement rule on
      that very version. */
  lemma LandedClaim(states: seq<Sys>, actions: seq<Action>, i: nat)
    requires IsRun(states, actions) && i < |actions| && Lands(states[i], actions[i])
    ensures var s, t, n := states[i], states[i + 1], actions[i].node;
            && s.versions != [] && t.versions != []
            && ClaimOf(n, Current(s).status, Current(t).status) && NodeOf(Current(t)) == n != ""
            && Eligible(n, Current(s), s.nodes[n].f)
  {
    RunKeeps(states, actions, i);
    var s, n := states[i], actions[i].node;
    assert Decided(s, n);
    var phase, condition :| Decide(n, At(s, s.nodes[n].k), s.nodes[n].f, phase, condition) == Claims(s.nodes[n].patch);
    MergeIsClaim(n, At(s, s.nodes[n].k), s.nodes[n].f, phase, condition);
  }

  /** The object keeps the node it was claimed for until it is un-placed. */
  lemma {:induction false} ClaimedStays(states: seq<Sys>, actions: seq<Action>, i: nat, j: nat)
    requires IsRun(states, actions) && i < j < |states| && Lands(states[i], actions[i])
    requires forall k :: i < k < j ==> !actions[k].Unplace?
    ensures states[j].versions != [] && NodeOf(Current(states[j])) == actions[i].node != ""
    ensures forall k :: i < k < j ==> !Lands(states[k], actions[k])
    decreases j
  {
    if j == i + 1 {
      LandedClaim(states, actions, i);
    } else {
      ClaimedStays(states, actions, i, j - 1);
      if Lands(states[j - 1], actions[j - 1]) {
        LandedClaim(states, actions, j - 1);
        assert false;
      }
    }
  }

  /** Exactly one claim lands between two un-placements: between any two that land there is one. */
  lemma OneWinner(states: seq<Sys>, actions: seq<Action>, i: nat, j: nat)
    requires IsRun(states, actions) && i < j < |actions|
    requires Lands(states[i], actions[i]) && Lands(states[j], actions[j])
    ensures exists k :: i < k < j && actions[k].Unplace?
  {
    if forall k :: i < k < j ==> !actions[k].Unplace? {
      ClaimedStays(states, actions, i, j);
      LandedClaim(states, actions, j);
      assert false;
    }
  }
}
