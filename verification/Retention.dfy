/** Sync-point retention: after a cut turns Ready, the older sync points of its worktree go, except
    those a clone still waits for or a peer still sends from. */
module Retention {
  import opened Wrappers

  datatype Phase = Pending | Creating | Working | Ready | Error
  /** A snapshot record; without a status it has not been cut yet. */
  datatype Cut = Cut(volume: string, worktree: string, transient: bool, status: Option<Phase>)

  datatype Source = SeededFrom(volume: string, cut: string) | CloneOf(volume: string, commit: Option<string>) | Blank
  /** A Volume (ready once its bytes are copied), or a Workspace or Environment (ready once checked out). */
  datatype Claimant = Claimant(ready: bool, source: Option<Source>)
  /** One node's replica row; `branches` is the newest cut it holds of each worktree. */
  datatype Replica = Replica(volume: string, node: string, branches: Option<map<string, string>>)

  predicate IsReady(c: Cut) {
    c.status == Some(Ready)
  }

  /** A volume still to be seeded from `cut` of `volume`. */
  predicate Seeds(v: Claimant, volume: string, cut: string) {
    !v.ready && v.source == Some(SeededFrom(volume, cut))
  }

  /** A workspace or environment still to be checked out from `cut` of `volume`. */
  predicate Grafts(p: Claimant, volume: string, cut: string) {
    !p.ready && p.source == Some(CloneOf(volume, Some(cut)))
  }

  /** The four listings one pass reads after its own volume's snapshots; None is a failed listing. */
  datatype Listings = Listings(volumes: Option<seq<Claimant>>, workspaces: Option<seq<Claimant>>,
                               environments: Option<seq<Claimant>>, replicas: Option<seq<Replica>>)

  predicate Complete(l: Listings) {
    l.volumes.Some? && l.workspaces.Some? && l.environments.Some? && l.replicas.Some?
  }

  /** Somebody listed still needs `cut` of `volume`. */
  ghost predicate AwaitedIn(volumes: seq<Claimant>, parents: seq<Claimant>, volume: string, cut: string) {
    (exists v :: v in volumes && Seeds(v, volume, cut)) || (exists p :: p in parents && Grafts(p, volume, cut))
  }

  /** Another node's next incremental send of `worktree` starts from `cut`. */
  predicate SendsFrom(r: Replica, me: string, volume: string, worktree: string, cut: string) {
    && r.volume == volume && r.node != me
    && r.branches.Some? && worktree in r.branches.value && r.branches.value[worktree] == cut
  }

  ghost predicate Protected(l: Listings, me: string, volume: string, worktree: string, cut: string)
    requires Complete(l)
  {
    || AwaitedIn(l.volumes.value, l.workspaces.value + l.environments.value, volume, cut)
    || exists r :: r in l.replicas.value && SendsFrom(r, me, volume, worktree, cut)
  }

  predicate ReadyTransient(cuts: map<string, Cut>, n: string, volume: string, worktree: string) {
    n in cuts && cuts[n].volume == volume && cuts[n].worktree == worktree && cuts[n].transient && IsReady(cuts[n])
  }

  /** A pass for `head` has something to act on. */
  predicate HeadIsSyncPoint(cuts: map<string, Cut>, volume: string, head: string) {
    head in cuts && ReadyTransient(cuts, head, volume, cuts[head].worktree)
  }

  /** The cut a complete pass for `head` deletes. */
  ghost predicate Pruned(cuts: map<string, Cut>, l: Listings, me: string, volume: string, head: string, n: string)
    requires Complete(l)
  {
    && HeadIsSyncPoint(cuts, volume, head) && n != head
    && ReadyTransient(cuts, n, volume, cuts[head].worktree)
    && !Protected(l, me, volume, cuts[head].worktree, n)
  }

  /** A record that retention for `head` may delete, field by field: both are Ready sync points of one
      worktree of the volume, no claim still to be served names it, and no other node's row has it as the
      newest cut of that worktree. */
  ghost predicate Expendable(cuts: map<string, Cut>, l: Listings, me: string, volume: string, head: string, n: string)
    requires Complete(l)
  {
    && head in cuts && n in cuts && n != head
    && cuts[head].volume == volume && cuts[head].transient && cuts[head].status == Some(Ready)
    && cuts[n].volume == volume && cuts[n].transient && cuts[n].status == Some(Ready)
    && cuts[n].worktree == cuts[head].worktree
    && (forall v :: v in l.volumes.value ==> v.ready || v.source != Some(SeededFrom(volume, n)))
    && (forall p :: p in l.workspaces.value + l.environments.value ==>
        p.ready || p.source != Some(CloneOf(volume, Some(n))))
    && forall r :: r in l.replicas.value && r.volume == volume && r.node != me && r.branches.Some? ==>
         cuts[head].worktree !in r.branches.value || r.branches.value[cuts[head].worktree] != n
  }

  lemma PrunedIsExpendable(cuts: map<string, Cut>, l: Listings, me: string, volume: string, head: string, n: string)
    requires Complete(l)
    ensures Pruned(cuts, l, me, volume, head, n) <==> Expendable(cuts, l, me, volume, head, n)
  {
    if Expendable(cuts, l, me, volume, head, n) {
      assert !Protected(l, me, volume, cuts[head].worktree, n);
    }
    if Pruned(cuts, l, me, volume, head, n) {
      forall v | v in l.volumes.value ensures v.ready || v.source != Some(SeededFrom(volume, n)) {
        assert !Seeds(v, volume, n);
      }
      forall p | p in l.workspaces.value + l.environments.value ensures p.ready ||
          p.source != Some(CloneOf(volume, Some(n))) {
        assert !Grafts(p, volume, n);
      }
      forall r | r in l.replicas.value && r.volume == volume && r.node != me && r.branches.Some?
        ensures cuts[head].worktree !in r.branches.value || r.branches.value[cuts[head].worktree] != n
      {
        assert !SendsFrom(r, me, volume, cuts[head].worktree, n);
      }
    }
  }

  // ----- the code: three loops filling a set, one deleting -----

  class Api {
    var cuts: map<string, Cut>

    constructor (cuts: map<string, Cut>)
      ensures this.cuts == cuts
    {
      this.cuts := cuts;
    }

    method SeededFromCuts(l: Listings, volume: string) returns (held: Option<set<string>>)
      ensures held.Some? <==> l.volumes.Some? && l.workspaces.Some? && l.environments.Some?
      ensures held.Some? ==> forall n :: n in held.value <==>
                AwaitedIn(l.volumes.value, l.workspaces.value + l.environments.value, volume, n)
      ensures held.Some? ==> forall n :: n in held.value <==>
                || (exists v :: v in l.volumes.value && !v.ready && v.source == Some(SeededFrom(volume, n)))
                || (exists p :: p in l.workspaces.value + l.environments.value &&
                                !p.ready && p.source == Some(CloneOf(volume, Some(n))))
    {
      if l.volumes.None? || l.workspaces.None? || l.environments.None? {
        return None;
      }
      var found: set<string> := {};
      var volumes := l.volumes.value;
      for i := 0 to |volumes|
        invariant forall n :: n in found <==> exists k :: 0 <= k < i && Seeds(volumes[k], volume, n)
      {
        if volumes[i].ready {
          continue;
        }
        match volumes[i].source {
          case Some(SeededFrom(src, cut)) =>
            if src == volume {
              found := found + {cut};
            }
          case _ =>
        }
      }
      var ws := GraftedOnto(l.workspaces.value, volume);
      var es := GraftedOnto(l.environments.value, volume);
      return Some(found + ws + es);
    }

    method GraftedOnto(parents: seq<Claimant>, volume: string) returns (held: set<string>)
      ensures forall n :: n in held <==> exists p :: p in parents && Grafts(p, volume, n)
      ensures forall n :: n in held <==>
                exists p :: p in parents && !p.ready && p.source == Some(CloneOf(volume, Some(n)))
    {
      held := {};
      for i := 0 to |parents|
        invariant forall n :: n in held <==> exists k :: 0 <= k < i && Grafts(parents[k], volume, n)
      {
        if parents[i].ready {
          continue;
        }
        match parents[i].source {
          case Some(CloneOf(src, Some(cut))) =>
            if src == volume {
              held := held + {cut};
            }
          case _ =>
        }
      }
    }

    /** `stuck` holds the names whose delete is refused; each such failure is passed over. */
    method Retain(l: Listings, listed: bool, me: string, volume: string, head: string, stuck: set<string>)
      modifies this
      ensures !listed || !Complete(l) ==> cuts == old(cuts)
      ensures listed && Complete(l) ==> forall n ::
                n in cuts <==> n in old(cuts) && (n in stuck || !Pruned(old(cuts), l, me, volume, head, n))
      ensures forall n :: n in cuts ==> n in old(cuts) && cuts[n] == old(cuts)[n]
      ensures forall n :: n in old(cuts) && n !in cuts ==>
          listed && Complete(l) && Expendable(old(cuts), l, me, volume, head, n)
      ensures listed && Complete(l) && stuck == {} ==>
                forall n :: n in old(cuts) && Expendable(old(cuts), l, me, volume, head, n) ==> n !in cuts
      ensures listed && Complete(l) && HeadIsSyncPoint(old(cuts), volume, head) ==>
                var w := old(cuts)[head].worktree;
                && head in cuts
                && (forall n :: ReadyTransient(cuts, n, volume, w) <==>
                      ReadyTransient(old(cuts), n, volume, w) && (n == head || n in stuck ||
                          Protected(l, me, volume, w, n)))
                && (forall n :: n in old(cuts) && !ReadyTransient(old(cuts), n, volume, w) ==> n in cuts)
    {
      if listed && Complete(l) {
        forall n ensures Pruned(cuts, l, me, volume, head, n) <==> Expendable(cuts, l, me, volume, head, n) {
          PrunedIsExpendable(cuts, l, me, volume, head, n);
        }
      }
      hide Expendable;
      if !listed {
        return;
      }
      var ready := map n | n in cuts && cuts[n].volume == volume && IsReady(cuts[n]) :: cuts[n];
      if head !in ready || !ready[head].transient {
        return;
      }
      var worktree := ready[head].worktree;
      var seeded := SeededFromCuts(l, volume);
      if seeded.None? || l.replicas.None? {
        return;
      }
      var peerHeld := set r | r in l.replicas.value && r.volume == volume && r.node != me &&
                              r.branches.Some? && worktree in r.branches.value :: r.branches.value[worktree];
      ghost var before := cuts;
      var left := ready.Keys;
      while left != {}
        invariant left <= ready.Keys
        invariant forall n :: n in cuts ==> n in before && cuts[n] == before[n]
        invariant forall n :: n in cuts <==>
                    n in before && (n in left || n in stuck || !Pruned(before, l, me, volume, head, n))
      {
        var n :| n in left;
        left := left - {n};
        assert n in peerHeld <==> exists r :: r in l.replicas.value && SendsFrom(r, me, volume, worktree, n);
        if n != head && ready[n].transient && ready[n].worktree == worktree && n !in seeded.value {
          if n in peerHeld {
            continue;
          }
          if n !in stuck {
            cuts := cuts - {n};
          }
        }
      }
    }
  }

  // ----- over whole runs: a pass is its listings, in order, and then its deletes -----

  datatype Kind = Volumes | Workspaces | Environments

  function Listing(l: Listings, k: Kind): Option<seq<Claimant>> {
    match k
    case Volumes => l.volumes
    case Workspaces => l.workspaces
    case Environments => l.environments
  }

  function WithListing(l: Listings, k: Kind, x: seq<Claimant>): Listings {
    match k
    case Volumes => l.(volumes := Some(x))
    case Workspaces => l.(workspaces := Some(x))
    case Environments => l.(environments := Some(x))
  }

  /** A claim of this kind on `cut` of `volume` that is still to be served. */
  predicate Awaits(k: Kind, c: Claimant, volume: string, cut: string) {
    !c.ready && c.source == Some(if k.Volumes? then SeededFrom(volume, cut) else CloneOf(volume, Some(cut)))
  }

  /** A pass and what it has listed so far. */
  datatype Pass = Pass(me: string, volume: string, head: string, cuts: Option<map<string, Cut>>, l: Listings)

  const NOTHING_LISTED := Listings(None, None, None, None)

  /** `names` holds the volume each snapshot name was ever given to: names are random, so none serves
      two. Any number of passes run at once. */
  datatype Cluster = Cluster(cuts: map<string, Cut>, claims: map<(Kind, string), Claimant>, replicas: seq<Replica>,
                             names: map<string, string>, passes: map<nat, Pass>)

  datatype Action =
    | Start(pass: nat, me: string, volume: string, head: string)
    | ListCuts(pass: nat)
    | List(pass: nat, kind: Kind, listing: seq<Claimant>)
    | ListReplicas(pass: nat)
    | Delete(pass: nat, n: string)
    | Abandon(pass: nat)
    | Claim(kind: Kind, name: string, claim: Option<Claimant>)
    | Record(n: string, cut: Cut)
    | Replicate(replicas: seq<Replica>)

  /** The listing names every claim of its kind, and nothing else. */
  ghost predicate Lists(s: Cluster, k: Kind, listing: seq<Claimant>) {
    && (forall c :: (k, c) in s.claims ==> s.claims[(k, c)] in listing)
    && forall x :: x in listing ==> exists c :: (k, c) in s.claims && s.claims[(k, c)] == x
  }

  /** A failed listing abandons the pass; every other action may come at any time. */
  ghost predicate Enabled(s: Cluster, a: Action) {
    match a
    case Start(p, _, _, _) => p !in s.passes
    case ListCuts(p) => p in s.passes && s.passes[p].cuts.None?
    case List(p, k, x) =>
      && p in s.passes && s.passes[p].cuts.Some? && Listing(s.passes[p].l, k).None? && Lists(s, k, x)
      && (k != Volumes ==> s.passes[p].l.volumes.Some?) && (k == Environments ==> s.passes[p].l.workspaces.Some?)
    case ListReplicas(p) => p in s.passes && s.passes[p].l.environments.Some? && s.passes[p].l.replicas.None?
    case Delete(p, n) => p in s.passes && Prunes(s.passes[p], n)
    case Abandon(p) => p in s.passes
    case Claim(_, _, _) => true
    case Record(n, cut) => n in s.names ==> s.names[n] == cut.volume
    case Replicate(_) => true
  }

  ghost predicate Prunes(p: Pass, n: string) {
    p.cuts.Some? && Complete(p.l) && Pruned(p.cuts.value, p.l, p.me, p.volume, p.head, n)
  }

  function Do(s: Cluster, a: Action): Cluster
    requires (a.ListCuts? || a.List? || a.ListReplicas?) ==> a.pass in s.passes
  {
    match a
    case Start(p, me, volume, head) => s.(passes := s.passes[p := Pass(me, volume, head, None, NOTHING_LISTED)])
    case ListCuts(p) => s.(passes := s.passes[p := s.passes[p].(cuts := Some(s.cuts))])
    case List(p, k, x) => s.(passes := s.passes[p := s.passes[p].(l := WithListing(s.passes[p].l, k, x))])
    case ListReplicas(p) => s.(passes := s.passes[p := s.passes[p].(l := s.passes[p].l.(replicas := Some(s.replicas)))])
    case Delete(_, n) => s.(cuts := s.cuts - {n})
    case Abandon(p) => s.(passes := s.passes - {p})
    case Claim(k, c, claim) => s.(claims := if claim.Some? then s.claims[(k, c) := claim.value]
        else s.claims - {(k, c)})
    case Record(n, cut) => s.(cuts := s.cuts[n := cut], names := s.names[n := cut.volume])
    case Replicate(r) => s.(replicas := r)
  }

  ghost predicate IsRun(states: seq<Cluster>, actions: seq<Action>) {
    && |states| == |actions| + 1 && states[0].passes == map[]
    && (forall n :: n in states[0].cuts ==> n in states[0].names && states[0].names[n] == states[0].cuts[n].volume)
    && forall i :: 0 <= i < |actions| ==> Enabled(states[i], actions[i]) && states[i + 1] == Do(states[i], actions[i])
  }

  /** Every record, stored or listed, is of the volume its name was given to. */
  ghost predicate Named(s: Cluster) {
    && (forall n :: n in s.cuts ==> n in s.names && s.names[n] == s.cuts[n].volume)
    && forall p :: p in s.passes && s.passes[p].cuts.Some? ==>
         forall n :: n in s.passes[p].cuts.value ==> n in s.names && s.names[n] == s.passes[p].cuts.value[n].volume
  }

  lemma NamedStep(s: Cluster, a: Action)
    requires Named(s) && Enabled(s, a)
    ensures Named(Do(s, a)) && forall n :: n in s.names ==> n in Do(s, a).names && Do(s, a).names[n] == s.names[n]
  {
    hide Lists, Prunes;
  }

  lemma {:induction false} NamedRun(states: seq<Cluster>, actions: seq<Action>, i: nat, j: nat)
    requires IsRun(states, actions) && i <= j < |states|
    ensures Named(states[i]) && Named(states[j])
    ensures forall n :: n in states[i].names ==> n in states[j].names && states[j].names[n] == states[i].names[n]
    decreases j
  {
    hide Named, Enabled, Do;
    if i < j {
      NamedRun(states, actions, i, j - 1);
      NamedStep(states[j - 1], actions[j - 1]);
    } else if i > 0 {
      NamedRun(states, actions, i - 1, j - 1);
      NamedStep(states[i - 1], actions[i - 1]);
    } else {
      NamedStart(states[0]);
    }
  }

  lemma NamedStart(s: Cluster)
    requires s.passes == map[] && forall n :: n in s.cuts ==> n in s.names && s.names[n] == s.cuts[n].volume
    ensures Named(s)
  {
  }

  /** Event `l` is the listing of this kind that the pass holds before event `i`. */
  ghost predicate ListedAt(states: seq<Cluster>, actions: seq<Action>, i: nat, p: nat, k: Kind, l: nat) {
    && l < i < |states| && |states| == |actions| + 1
    && actions[l].List? && actions[l].pass == p && actions[l].kind == k
    && p in states[i].passes && Listing(states[i].passes[p].l, k) == Some(actions[l].listing)
    && forall m :: l < m < i ==> !(actions[m].Abandon? && actions[m].pass == p)
  }

  /** What a pass has listed was listed at some moment, and was the truth then. */
  lemma {:induction false} WasListed(states: seq<Cluster>, actions: seq<Action>, i: nat, p: nat, k: Kind)
    returns (l: nat)
    requires IsRun(states, actions) && i < |states|
    requires p in states[i].passes && Listing(states[i].passes[p].l, k).Some?
    ensures ListedAt(states, actions, i, p, k, l) && Lists(states[l], k, actions[l].listing)
  {
    hide Lists, Prunes;
    var a := actions[i - 1];
    if a.List? && a.pass == p && a.kind == k {
      l := i - 1;
    } else {
      l := WasListed(states, actions, i - 1, p, k);
    }
  }

  /** A claim of this kind and name on `cut` is being waited for. */
  predicate Awaited(s: Cluster, k: Kind, c: string, volume: string, cut: string) {
    (k, c) in s.claims && Awaits(k, s.claims[(k, c)], volume, cut)
  }

  /** Nobody of any kind waited for the cut when that kind was listed. */
  ghost predicate UnclaimedWhenListed(states: seq<Cluster>, v: nat, w: nat, e: nat, volume: string, n: string)
    requires v < |states| && w < |states| && e < |states|
  {
    && (forall c :: !Awaited(states[v], Volumes, c, volume, n))
    && (forall c :: !Awaited(states[w], Workspaces, c, volume, n))
    && (forall c :: !Awaited(states[e], Environments, c, volume, n))
  }

  lemma AwaitedIsListed(s: Cluster, k: Kind, listing: seq<Claimant>, volume: string, n: string)
    requires Lists(s, k, listing)
    ensures (exists x :: x in listing && Awaits(k, x, volume, n)) <==> exists c :: Awaited(s, k, c, volume, n)
  {
    if x :| x in listing && Awaits(k, x, volume, n) {
      var c :| (k, c) in s.claims && s.claims[(k, c)] == x;
      assert Awaited(s, k, c, volume, n);
    }
    if c :| Awaited(s, k, c, volume, n) {
      assert s.claims[(k, c)] in listing;
    }
  }

  /** What a complete set of listings protects, kind by kind. */
  lemma AwaitedByKind(l: Listings, volume: string, n: string)
    requires Complete(l)
    ensures AwaitedIn(l.volumes.value, l.workspaces.value + l.environments.value, volume, n) <==>
      exists k, x :: x in Listing(l, k).value && Awaits(k, x, volume, n)
  {
    if k, x :| x in Listing(l, k).value && Awaits(k, x, volume, n) {
      assert k != Volumes ==> x in l.workspaces.value + l.environments.value;
    }
    if v :| v in l.volumes.value && Seeds(v, volume, n) {
      assert v in Listing(l, Volumes).value && Awaits(Volumes, v, volume, n);
    }
    if p :| p in l.workspaces.value + l.environments.value && Grafts(p, volume, n) {
      assert p in Listing(l, Workspaces).value || p in Listing(l, Environments).value;
      assert Awaits(Workspaces, p, volume, n) && Awaits(Environments, p, volume, n);
    }
  }

  /** Exactly which cuts a pass may delete, whatever else happens while it runs: of the older sync points
      it listed and no peer sends from, those nobody waited for when its own kind was listed. A claim
      that appeared later is not seen, however long the pass then takes. */
  lemma {:induction false} DeletesExactly(states: seq<Cluster>, actions: seq<Action>, i: nat, p: nat, n: string)
    returns (v: nat, w: nat, e: nat)
    requires IsRun(states, actions) && i < |states| && p in states[i].passes
    requires var x := states[i].passes[p];
             x.cuts.Some? && Complete(x.l) && HeadIsSyncPoint(x.cuts.value, x.volume, x.head) && n != x.head
             && ReadyTransient(x.cuts.value, n, x.volume, x.cuts.value[x.head].worktree)
             && forall r :: r in x.l.replicas.value ==> !SendsFrom(r, x.me, x.volume, x.cuts.value[x.head].worktree, n)
    ensures ListedAt(states, actions, i, p, Volumes, v) && ListedAt(states, actions, i, p, Workspaces, w)
    ensures ListedAt(states, actions, i, p, Environments, e)
    ensures Enabled(states[i], Delete(p, n)) <==> UnclaimedWhenListed(states, v, w, e, states[i].passes[p].volume, n)
  {
    v := WasListed(states, actions, i, p, Volumes);
    w := WasListed(states, actions, i, p, Workspaces);
    e := WasListed(states, actions, i, p, Environments);
    var x := states[i].passes[p];
    hide Lists, IsRun, Awaited, Awaits, AwaitedIn, ReadyTransient, SendsFrom;
    AwaitedIsListed(states[v], Volumes, x.l.volumes.value, x.volume, n);
    AwaitedIsListed(states[w], Workspaces, x.l.workspaces.value, x.volume, n);
    AwaitedIsListed(states[e], Environments, x.l.environments.value, x.volume, n);
    AwaitedByKind(x.l, x.volume, n);
  }

  /** No pass deletes a cut that somebody waited for when the pass listed that kind of claim. */
  lemma SparesAwaited(states: seq<Cluster>, actions: seq<Action>, m: nat, p: nat, n: string, k: Kind, c: string)
    returns (l: nat)
    requires IsRun(states, actions) && m < |states| && p in states[m].passes && Prunes(states[m].passes[p], n)
    ensures ListedAt(states, actions, m, p, k, l) && l < m && !Awaited(states[l], k, c, states[m].passes[p].volume, n)
  {
    l := WasListed(states, actions, m, p, k);
    hide IsRun, Lists, ListedAt, Awaited, Awaits, AwaitedIn;
    var x := states[m].passes[p];
    assert Listing(x.l, k) == Some(actions[l].listing) by {
      ListedMeans(states, actions, m, p, k, l);
    }
    AwaitedIsListed(states[l], k, Listing(x.l, k).value, x.volume, n);
    AwaitedByKind(x.l, x.volume, n);
  }

  lemma ListedMeans(states: seq<Cluster>, actions: seq<Action>, i: nat, p: nat, k: Kind, l: nat)
    requires ListedAt(states, actions, i, p, k, l)
    ensures p in states[i].passes && actions[l].List? && Listing(states[i].passes[p].l, k) == Some(actions[l].listing)
  {
  }

  /** A claim protects its cut from the moment it is made: while it waits, the cut survives any passes,
      writes and other claims, unless a pass deletes it that listed the claim's kind before. */
  lemma {:induction false} AwaitedSurvives(states: seq<Cluster>, actions: seq<Action>, i: nat, j: nat, k: Kind,
      c: string, n: string)
    requires IsRun(states, actions) && i <= j < |states| && n in states[i].cuts
    requires forall m :: i <= m < j ==> Awaited(states[m], k, c, states[i].cuts[n].volume, n)
    requires forall m, l :: (i <= m < j && actions[m].Delete? && actions[m].n == n
                             && ListedAt(states, actions, m, actions[m].pass, k, l)) ==> i <= l
    ensures n in states[j].cuts && states[j].cuts[n].volume == states[i].cuts[n].volume
    decreases j
  {
    hide Awaited, ListedAt, Prunes, Lists;
    if i < j {
      AwaitedSurvives(states, actions, i, j - 1, k, c, n);
      var s, a := states[j - 1], actions[j - 1];
      NamedRun(states, actions, i, j - 1);
      if a.Delete? && a.n == n {
        PrunesOwn(s, a.pass, n);
        var l := SparesAwaited(states, actions, j - 1, a.pass, n, k, c);
        assert false;
      }
      RecordStays(s, a, n);
    }
  }

  lemma PrunesOwn(s: Cluster, p: nat, n: string)
    requires Named(s) && p in s.passes && Prunes(s.passes[p], n) && n in s.cuts
    ensures s.passes[p].volume == s.cuts[n].volume
  {
  }

  lemma RecordStays(s: Cluster, a: Action, n: string)
    requires Named(s) && Enabled(s, a) && n in s.cuts && !(a.Delete? && a.n == n)
    ensures n in Do(s, a).cuts && Do(s, a).cuts[n].volume == s.cuts[n].volume
  {
    hide Prunes, Lists;
  }

  /** And that is all it protects from: a claim that appears once a pass has listed its kind loses the
      cut the pass was going to delete. */
  lemma LateClaimLoses(s: Cluster, p: nat, n: string, k: Kind, c: string, claim: Claimant)
    requires Enabled(s, Delete(p, n)) && Awaits(k, claim, s.passes[p].volume, n)
    ensures var t := Do(s, Action.Claim(k, c, Some(claim)));
            && Enabled(t, Delete(p, n)) && Awaited(t, k, c, s.passes[p].volume, n)
            && var u := Do(t, Delete(p, n));
               n !in u.cuts && Awaited(u, k, c, s.passes[p].volume, n)
  {
    hide Prunes, Awaits;
  }

  // ----- two passes over one worktree -----

  /** A sync point is lost to overlapping passes by being listed: while no pass under way, whatever its
      head, has it among what its listings let it delete, nothing deletes it. */
  lemma {:induction false} HeadSurvives(states: seq<Cluster>, actions: seq<Action>, i: nat, j: nat, n: string)
    requires IsRun(states, actions) && i <= j < |states| && n in states[i].cuts
    requires forall m, p :: i <= m < j && p in states[m].passes ==> !Prunes(states[m].passes[p], n)
    ensures n in states[j].cuts
    decreases j
  {
    hide Prunes, Lists;
    if i < j {
      HeadSurvives(states, actions, i, j - 1, n);
      NamedRun(states, actions, i, j - 1);
      RecordStays(states[j - 1], actions[j - 1], n);
    }
  }

  /** Both passes have listed, and each runs for a sync point of the one worktree. */
  ghost predicate Rivals(p: Pass, q: Pass, worktree: string) {
    && p.volume == q.volume && p.head != q.head && p.cuts.Some? && q.cuts.Some? && Complete(p.l) && Complete(q.l)
    && HeadIsSyncPoint(p.cuts.value, p.volume, p.head) && p.cuts.value[p.head].worktree == worktree
    && HeadIsSyncPoint(q.cuts.value, q.volume, q.head) && q.cuts.value[q.head].worktree == worktree
  }

  /** Two passes over one worktree delete each other's heads, leaving neither, exactly when each listed the
      other's head as Ready and found it unprotected. The one that listed before the other's head turned
      Ready spares it. */
  lemma HeadsFall(s: Cluster, p: nat, q: nat, worktree: string)
    requires p in s.passes && q in s.passes && Rivals(s.passes[p], s.passes[q], worktree)
    ensures var x, y := s.passes[p], s.passes[q];
            && (Enabled(s, Delete(p, y.head)) && Enabled(Do(s, Delete(p, y.head)), Delete(q, x.head)) <==>
                  && ReadyTransient(x.cuts.value, y.head, x.volume, worktree)
                  && ReadyTransient(y.cuts.value, x.head, y.volume, worktree)
                  && !Protected(x.l, x.me, x.volume, worktree, y.head)
                  && !Protected(y.l, y.me, y.volume, worktree, x.head))
            && (var t := Do(Do(s, Delete(p, y.head)), Delete(q, x.head)); x.head !in t.cuts && y.head !in t.cuts)
  {
    hide Protected, ReadyTransient;
  }
}
