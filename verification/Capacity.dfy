/** Room on a node: what its pods request, what it has promised to parents without a pod, and whether
    one more parent fits. */
module Capacity {
  import opened Wrappers

  /** Cpu in millicores and memory in MiB. */
  datatype Want = Want(cpu: nat, mem: nat)
  const NOTHING := Want(0, 0)

  function Plus(a: Want, b: Want): Want {
    Want(a.cpu + b.cpu, a.mem + b.mem)
  }

  function Times(n: nat, w: Want): Want {
    Want(n * w.cpu, n * w.mem)
  }

  lemma PlusNothing(a: Want)
    ensures Plus(a, NOTHING) == a && Plus(NOTHING, a) == a
  {
  }

  lemma PlusShuffle(a: Want, b: Want, c: Want, d: Want)
    ensures Plus(Plus(a, b), Plus(c, d)) == Plus(Plus(a, c), Plus(b, d))
    ensures Plus(a, Plus(b, c)) == Plus(Plus(a, b), c)
    ensures Plus(Plus(a, b), c) == Plus(Plus(a, c), b)
  {
  }

  predicate AtMost(a: Want, b: Want) {
    a.cpu <= b.cpu && a.mem <= b.mem
  }

  /** A pod on the node: `ended` once Succeeded or Failed, `workspace` its label when it has one. */
  datatype Pod = Pod(ended: bool, ns: string, workspace: Option<string>, requests: seq<Want>)
  /** A parent claimed here. A workspace is one pod of size `want`, an environment one pod of size
      `want` for each of its services, in its own namespace. */
  datatype Parent =
    | Workspace(name: string, running: bool, want: Want)
    | Environment(name: string, running: bool, want: Want, services: nat, ns: string)

  function Sum(wants: seq<Want>): Want {
    if wants == [] then NOTHING else Plus(wants[0], Sum(wants[1..]))
  }

  /** What the pods that have not ended request, over all their containers. */
  function Requested(pods: seq<Pod>): Want {
    if pods == [] then NOTHING else Plus(RequestOf(pods[0]), Requested(pods[1..]))
  }

  function RequestOf(pod: Pod): Want {
    if pod.ended then NOTHING else Sum(pod.requests)
  }

  function WantOf(p: Parent): Want {
    match p
    case Workspace(_, _, w) => w
    case Environment(_, _, w, n, _) => Times(n, w)
  }

  predicate IsPodOf(pod: Pod, p: Parent) {
    match p
    case Workspace(name, _, _) => pod.workspace == Some(name)
    case Environment(_, _, _, _, ns) => pod.ns == ns
  }

  predicate HasPod(pods: seq<Pod>, p: Parent) {
    exists pod :: pod in pods && IsPodOf(pod, p)
  }

  /** What one parent is still owed: its size while it runs and has no pod. */
  function Owed(p: Parent, pods: seq<Pod>): Want {
    if p.running && !HasPod(pods, p) then WantOf(p) else NOTHING
  }

  /** All of them but those named `skip`. */
  function Committed(parents: seq<Parent>, pods: seq<Pod>, skip: Option<string>): Want {
    if parents == [] then NOTHING
    else
      var i := |parents| - 1;
      Plus(Committed(parents[..i], pods, skip),
           if skip == Some(parents[i].name) then NOTHING else Owed(parents[i], pods))
  }

  datatype Room = Room(alloc: Want, pods: Want, committed: Want)

  function SaturatingSub(a: nat, b: nat): nat {
    if a < b then 0 else a - b
  }

  function Free(r: Room): Want {
    Want(SaturatingSub(r.alloc.cpu, r.pods.cpu + r.committed.cpu),
         SaturatingSub(r.alloc.mem, r.pods.mem + r.committed.mem))
  }

  predicate Fits(r: Room, want: Want) {
    Free(r).cpu >= want.cpu && Free(r).mem >= want.mem
  }

  /** What the pods of a listing request, one by one: an ended pod nothing, any other the sum over its
      containers; and two listings in a row what both do. */
  lemma RequestedIsSum(pod: Pod, a: seq<Pod>, b: seq<Pod>)
    ensures Requested([]) == NOTHING
    ensures Requested([pod]) == if pod.ended then Want(0, 0) else Sum(pod.requests)
    ensures Requested(a + b) == Plus(Requested(a), Requested(b))
  {
    RequestedConcat(a, b);
    RequestedOfOne(pod);
    hide Plus, Sum, RequestOf;
  }

  lemma RequestedOfOne(pod: Pod)
    ensures Requested([pod]) == if pod.ended then Want(0, 0) else Sum(pod.requests)
  {
    hide Sum, Plus;
    assert [pod][1..] == [];
    PlusNothing(RequestOf(pod));
  }

  lemma {:induction false} SumConcat(a: seq<Want>, b: seq<Want>)
    ensures Sum(a + b).cpu == Sum(a).cpu + Sum(b).cpu && Sum(a + b).mem == Sum(a).mem + Sum(b).mem
    ensures forall w :: Sum([w]) == w
  {
    forall w: Want ensures Sum([w]) == w {
      assert [w][1..] == [];
    }
    if a == [] {
      assert a + b == b;
    } else {
      SumConcat(a[1..], b);
      assert (a + b)[1..] == a[1..] + b;
    }
  }

  /** What one claimed parent adds to the promises: its whole size while it runs, is not the asker and has
      no pod (of its own label, or in its own namespace); nothing otherwise. */
  lemma PromiseOfOne(p: Parent, pods: seq<Pod>, skip: Option<string>)
    ensures Committed([], pods, skip) == Want(0, 0)
    ensures var podless := if p.Workspace? then forall pod :: pod in pods ==> pod.workspace != Some(p.name)
                           else forall pod :: pod in pods ==> pod.ns != p.ns;
            Committed([p], pods, skip) == if p.running && skip != Some(p.name) && podless then WantOf(p) else Want(0, 0)
  {
    PodsOfOne(p, pods);
    CommittedOfOne(p, pods, skip);
    hide Committed, HasPod, WantOf;
  }

  lemma CommittedOfOne(p: Parent, pods: seq<Pod>, skip: Option<string>)
    ensures Committed([], pods, skip) == NOTHING
    ensures Committed([p], pods, skip) == if skip == Some(p.name) then NOTHING else Owed(p, pods)
  {
    hide Owed, Plus;
    assert [p][..0] == [];
    PlusNothing(Owed(p, pods));
    PlusNothing(NOTHING);
  }

  lemma PodsOfOne(p: Parent, pods: seq<Pod>)
    ensures HasPod(pods, p) <==> !(if p.Workspace? then forall pod :: pod in pods ==> pod.workspace != Some(p.name)
                                   else forall pod :: pod in pods ==> pod.ns != p.ns)
  {
    hide WantOf;
    if pod :| pod in pods && IsPodOf(pod, p) {
      assert HasPod(pods, p);
    }
  }

  /** A workspace asks for one pod of its size, an environment for one of its size per service. */
  lemma SizeOfOne(p: Parent)
    ensures p.Workspace? ==> WantOf(p) == p.want
    ensures p.Environment? ==> WantOf(p).cpu == p.services * p.want.cpu && WantOf(p).mem == p.services * p.want.mem
  {
  }

  // ----- the code's two accumulating loops -----

  /** `workspaces` and `environments` are the parents claimed on this node. */
  method ClaimedHere(workspaces: seq<Parent>, environments: seq<Parent>, pods: seq<Pod>, skip: Option<string>)
    returns (total: Want)
    ensures total == Committed(workspaces + environments, pods, skip)
  {
    hide Plus, HasPod, WantOf;
    total := NOTHING;
    for i := 0 to |workspaces|
      invariant total == Committed(workspaces[..i], pods, skip)
    {
      assert workspaces[..i + 1][..i] == workspaces[..i];
      PlusNothing(total);
      if skip == Some(workspaces[i].name) {
        continue;
      }
      if workspaces[i].running && !HasPod(pods, workspaces[i]) {
        total := Plus(total, WantOf(workspaces[i]));
      }
    }
    assert workspaces[..|workspaces|] == workspaces + environments[..0];
    for i := 0 to |environments|
      invariant total == Committed(workspaces + environments[..i], pods, skip)
    {
      assert (workspaces + environments[..i + 1])[..|workspaces| + i] == workspaces + environments[..i];
      PlusNothing(total);
      if skip == Some(environments[i].name) {
        continue;
      }
      if environments[i].running && !HasPod(pods, environments[i]) {
        total := Plus(total, WantOf(environments[i]));
      }
    }
    assert workspaces + environments[..|environments|] == workspaces + environments;
  }

  // ----- the arithmetic of a fit -----

  /** In each dimension a fit means: nothing is wanted, or pods, promises and want are within the
      allocatable. The subtraction saturates, so a node already past it still fits a zero want. */
  lemma FreeMeans(r: Room)
    ensures Free(r).cpu == if r.pods.cpu + r.committed.cpu > r.alloc.cpu then 0
        else r.alloc.cpu - r.pods.cpu - r.committed.cpu
    ensures Free(r).mem == if r.pods.mem + r.committed.mem > r.alloc.mem then 0
        else r.alloc.mem - r.pods.mem - r.committed.mem
  {
  }

  lemma FitsMeans(r: Room, want: Want)
    ensures Fits(r, want) <==>
              && (want.cpu == 0 || r.pods.cpu + r.committed.cpu + want.cpu <= r.alloc.cpu)
              && (want.mem == 0 || r.pods.mem + r.committed.mem + want.mem <= r.alloc.mem)
  {
  }

  // ----- a burst of claims -----

  /** One node: what it may hand out, the pods on it and the parents claimed by it. */
  datatype Node = Node(alloc: Want, pods: seq<Pod>, parents: seq<Parent>)

  function Load(n: Node): Want {
    Plus(Requested(n.pods), Committed(n.parents, n.pods, None))
  }

  function RoomOf(n: Node): Room {
    Room(n.alloc, Requested(n.pods), Committed(n.parents, n.pods, None))
  }

  /** The pods a parent is converted into: they are its own, none has ended, and they request what it
      wants. They are nobody else's here. */
  predicate PodsOf(n: Node, p: Parent, pods: seq<Pod>) {
    && (pods == [] ==> WantOf(p) == NOTHING)
    && (forall pod :: pod in pods ==> !pod.ended && IsPodOf(pod, p))
    && Requested(pods) == WantOf(p)
    && forall pod, q :: pod in pods && q in n.parents && q != p ==> !IsPodOf(pod, q)
  }

  datatype Event = Admit(parent: Parent) | Start(parent: Parent, pods: seq<Pod>)

  /** A fresh parent is admitted when it fits; a promised one starts with all its pods. */
  predicate Allowed(n: Node, e: Event) {
    match e
    case Admit(p) => Fits(RoomOf(n), WantOf(p)) && p !in n.parents && !HasPod(n.pods, p)
    case Start(p, pods) => p in n.parents && p.running && !HasPod(n.pods, p) && PodsOf(n, p, pods)
  }

  function After(n: Node, e: Event): Node {
    match e
    case Admit(p) => n.(parents := n.parents + [p])
    case Start(_, pods) => n.(pods := n.pods + pods)
  }

  predicate NoDuplicates(parents: seq<Parent>) {
    forall i, j :: 0 <= i < j < |parents| ==> parents[i] != parents[j]
  }

  lemma {:induction false} RequestedConcat(a: seq<Pod>, b: seq<Pod>)
    ensures Requested(a + b) == Plus(Requested(a), Requested(b))
  {
    hide RequestOf, Plus;
    if a == [] {
      assert a + b == b;
      PlusNothing(Requested(b));
    } else {
      RequestedConcat(a[1..], b);
      assert (a + b)[1..] == a[1..] + b;
      PlusShuffle(RequestOf(a[0]), Requested(a[1..]), Requested(b), NOTHING);
    }
  }

  lemma HasPodConcat(a: seq<Pod>, b: seq<Pod>, p: Parent)
    ensures HasPod(a + b, p) <==> HasPod(a, p) || HasPod(b, p)
  {
    if HasPod(a, p) {
      var pod :| pod in a && IsPodOf(pod, p);
      assert pod in a + b;
    }
    if HasPod(b, p) {
      var pod :| pod in b && IsPodOf(pod, p);
      assert pod in a + b;
    }
  }

  /** Starting one parent settles its promise and no other's. */
  lemma OwedAfterStart(n: Node, p: Parent, pods: seq<Pod>, q: Parent)
    requires q in n.parents && p.running && !HasPod(n.pods, p) && PodsOf(n, p, pods)
    ensures q == p ==> Owed(q, n.pods) == WantOf(p) && Owed(q, n.pods + pods) == NOTHING
    ensures q != p ==> Owed(q, n.pods + pods) == Owed(q, n.pods)
  {
    hide Requested;
    HasPodConcat(n.pods, pods, q);
    if q == p && pods != [] {
      assert pods[0] in pods;
    }
  }

  lemma {:induction false} CommittedAfterStart(parents: seq<Parent>, n: Node, p: Parent, pods: seq<Pod>)
    requires NoDuplicates(parents) && forall q :: q in parents ==> q in n.parents
    requires p.running && !HasPod(n.pods, p) && PodsOf(n, p, pods)
    ensures Plus(Committed(parents, n.pods + pods, None), if p in parents then WantOf(p) else NOTHING) ==
            Committed(parents, n.pods, None)
  {
    hide Owed, WantOf, PodsOf, HasPod, Plus;
    if parents == [] {
      PlusNothing(NOTHING);
    } else {
      var i := |parents| - 1;
      var front, q := parents[..i], parents[i];
      CommittedAfterStart(front, n, p, pods);
      OwedAfterStart(n, p, pods, q);
      var before := Committed(front, n.pods + pods, None);
      PlusNothing(before);
      if q == p {
        assert p !in front;
      } else {
        assert p in parents <==> p in front;
        PlusShuffle(before, Owed(q, n.pods), if p in front then WantOf(p) else NOTHING, NOTHING);
      }
    }
  }

  function Run(n: Node, events: seq<Event>): Option<Node>
    decreases |events|
  {
    if events == [] then Some(n)
    else if !Allowed(n, events[0]) then None
    else Run(After(n, events[0]), events[1..])
  }

  lemma AdmitKeeps(n: Node, p: Parent)
    requires AtMost(Load(n), n.alloc) && NoDuplicates(n.parents) && Allowed(n, Admit(p))
    ensures var t := After(n, Admit(p)); AtMost(Load(t), t.alloc) && NoDuplicates(t.parents)
  {
    FitsMeans(RoomOf(n), WantOf(p));
    assert (n.parents + [p])[..|n.parents|] == n.parents;
  }

  lemma StartKeeps(n: Node, p: Parent, pods: seq<Pod>)
    requires NoDuplicates(n.parents) && Allowed(n, Start(p, pods))
    ensures Load(After(n, Start(p, pods))) == Load(n)
  {
    hide Requested, Committed, HasPod, WantOf, Plus;
    RequestedConcat(n.pods, pods);
    CommittedAfterStart(n.parents, n, p, pods);
    PlusShuffle(Requested(n.pods), Committed(n.parents, n.pods + pods, None), WantOf(p), NOTHING);
    PlusShuffle(Requested(n.pods), WantOf(p), Committed(n.parents, n.pods + pods, None), NOTHING);
  }

  /** However claims and starts alternate, claims decided one at a time never promise more than the
      node can hand out. */
  lemma {:induction false} BurstStaysWithin(n: Node, events: seq<Event>)
    requires AtMost(Load(n), n.alloc) && NoDuplicates(n.parents) && Run(n, events).Some?
    ensures var t := Run(n, events).value; t.alloc == n.alloc && AtMost(Load(t), t.alloc)
    decreases |events|
  {
    hide Load, Allowed;
    if events != [] {
      match events[0] {
        case Admit(p) => AdmitKeeps(n, p);
        case Start(p, pods) => StartKeeps(n, p, pods);
      }
      BurstStaysWithin(After(n, events[0]), events[1..]);
    }
  }

  /** Parents that have a pod in both listings or in neither are owed the same. */
  lemma {:induction false} SameCommitted(parents: seq<Parent>, pods: seq<Pod>, others: seq<Pod>)
    requires forall q :: q in parents ==> (HasPod(pods, q) <==> HasPod(others, q))
    ensures Committed(parents, pods, None) == Committed(parents, others, None)
  {
    hide HasPod, WantOf, Plus;
    if parents != [] {
      SameCommitted(parents[..|parents| - 1], pods, others);
    }
  }

  /** The first of a parent's pods settles its promise as all of them do. */
  lemma FirstPodSettles(n: Node, p: Parent, first: seq<Pod>, rest: seq<Pod>, q: Parent)
    requires Allowed(n, Start(p, first + rest)) && first != [] && q in n.parents
    ensures HasPod(n.pods + first, q) <==> HasPod(n.pods + (first + rest), q)
  {
    hide Requested;
    HasPodConcat(n.pods, first, q);
    HasPodConcat(n.pods, first + rest, q);
    HasPodConcat(first, rest, q);
    assert first[0] in first + rest;
    if q == p {
      assert IsPodOf(first[0], p) && first[0] in first;
    }
  }

  /** Between a parent's first pod and its last the node counts too little, by exactly what the pods
      still to come request. */
  lemma HalfStartedUndercounts(n: Node, p: Parent, first: seq<Pod>, rest: seq<Pod>)
    requires NoDuplicates(n.parents) && Allowed(n, Start(p, first + rest)) && first != []
    ensures Plus(Load(n.(pods := n.pods + first)), Requested(rest)) == Load(n)
  {
    hide Requested, Committed, HasPod, Plus, Allowed, After;
    HalfStartedCommitted(n, p, first, rest);
    assert Load(n) == Plus(Requested(n.pods + (first + rest)), Committed(n.parents, n.pods + (first + rest), None)) by {
      StartKeeps(n, p, first + rest);
      StartedLoad(n, p, first + rest);
    }
    RequestedConcat(n.pods + first, rest);
    assert n.pods + first + rest == n.pods + (first + rest);
    PlusShuffle(Requested(n.pods + first), Committed(n.parents, n.pods + first, None), Requested(rest), NOTHING);
  }

  lemma StartedLoad(n: Node, p: Parent, pods: seq<Pod>)
    ensures Load(After(n, Start(p, pods))) == Plus(Requested(n.pods + pods), Committed(n.parents, n.pods + pods, None))
  {
    hide Requested, Committed, Plus;
  }

  lemma HalfStartedCommitted(n: Node, p: Parent, first: seq<Pod>, rest: seq<Pod>)
    requires Allowed(n, Start(p, first + rest)) && first != []
    ensures Committed(n.parents, n.pods + first, None) == Committed(n.parents, n.pods + (first + rest), None)
  {
    hide Requested, Committed, HasPod, Allowed;
    forall q | q in n.parents ensures HasPod(n.pods + first, q) <==> HasPod(n.pods + (first + rest), q) {
      FirstPodSettles(n, p, first, rest, q);
    }
    SameCommitted(n.parents, n.pods + first, n.pods + (first + rest));
  }

  /** So a claim decided in between is admitted against too little. Once the last pod has come, the node
      carries the claim on top of all it carried before; it is overcommitted exactly when the claim
      would have been refused before the first pod came. Any node, any parent, any split of its pods,
      any claim. */
  lemma HalfStartedOvercommits(n: Node, p: Parent, first: seq<Pod>, rest: seq<Pod>, q: Parent)
    requires NoDuplicates(n.parents) && AtMost(Load(n), n.alloc)
    requires Allowed(n, Start(p, first + rest)) && first != []
    requires Allowed(n.(pods := n.pods + first), Admit(q)) && !HasPod(rest, q)
    ensures var full := After(n.(pods := n.pods + first), Admit(q)).(pods := n.pods + (first + rest));
            && Load(full) == Plus(Load(n), if q.running then WantOf(q) else NOTHING)
            && (!AtMost(Load(full), full.alloc) <==> q.running && !Fits(RoomOf(n), WantOf(q)))
  {
    hide Requested, WantOf, PodsOf, IsPodOf;
    var pods := n.pods + (first + rest);
    StartKeeps(n, p, first + rest);
    assert pods == n.pods + first + rest;
    HasPodConcat(n.pods + first, rest, q);
    assert (n.parents + [q])[..|n.parents|] == n.parents;
    assert Committed(n.parents + [q], pods, None) == Plus(Committed(n.parents, pods, None), Owed(q, pods));
    FitsMeans(RoomOf(n), WantOf(q));
  }

  /** What is owed to the parents of one name. */
  function OwedTo(parents: seq<Parent>, pods: seq<Pod>, name: string): Want {
    if parents == [] then NOTHING
    else
      var i := |parents| - 1;
      Plus(OwedTo(parents[..i], pods, name), if parents[i].name == name then Owed(parents[i], pods) else NOTHING)
  }

  /** The start gate leaves out exactly what is owed to parents of the asking name. */
  lemma {:induction false} SkipLeavesOut(parents: seq<Parent>, pods: seq<Pod>, name: string)
    ensures Plus(Committed(parents, pods, Some(name)), OwedTo(parents, pods, name)) == Committed(parents, pods, None)
  {
    hide Owed, Plus;
    if parents == [] {
      PlusNothing(NOTHING);
    } else {
      var i := |parents| - 1;
      var front, owed := parents[..i], Owed(parents[i], pods);
      SkipLeavesOut(front, pods, name);
      PlusNothing(owed);
      PlusShuffle(Committed(front, pods, Some(name)), if parents[i].name == name then NOTHING else owed,
                  OwedTo(front, pods, name), if parents[i].name == name then owed else NOTHING);
    }
  }

  /** With names unique that is the asker's own promise. */
  lemma {:induction false} SkipLeavesOutTheAsker(parents: seq<Parent>, pods: seq<Pod>, p: Parent)
    requires p in parents && forall i, j :: 0 <= i < j < |parents| ==> parents[i].name != parents[j].name
    ensures Plus(Committed(parents, pods, Some(p.name)), Owed(p, pods)) == Committed(parents, pods, None)
    decreases |parents|
  {
    hide Owed, Plus;
    var i := |parents| - 1;
    var front := parents[..i];
    if parents[i] == p {
      SkipOfNobody(front, pods, p.name);
      PlusNothing(Committed(front, pods, Some(p.name)));
    } else {
      assert p in front;
      SkipLeavesOutTheAsker(front, pods, p);
      assert exists k :: 0 <= k < i && parents[k] == p;
      PlusShuffle(Committed(front, pods, Some(p.name)), Owed(p, pods), Owed(parents[i], pods), NOTHING);
    }
  }

  lemma {:induction false} SkipOfNobody(parents: seq<Parent>, pods: seq<Pod>, name: string)
    requires forall q :: q in parents ==> q.name != name
    ensures Committed(parents, pods, Some(name)) == Committed(parents, pods, None)
  {
    hide Owed, Plus;
    if parents != [] {
      SkipOfNobody(parents[..|parents| - 1], pods, name);
    }
  }

  /** What a node promised it can start: while its load is within what it may hand out, the start gate
      lets through every parent it claimed that has no pod yet. */
  lemma PromiseIsKept(n: Node, p: Parent)
    requires p in n.parents && forall i, j :: 0 <= i < j < |n.parents| ==> n.parents[i].name != n.parents[j].name
    requires p.running && !HasPod(n.pods, p) && AtMost(Load(n), n.alloc)
    ensures Fits(Room(n.alloc, Requested(n.pods), Committed(n.parents, n.pods, Some(p.name))), WantOf(p))
  {
    hide Requested, Committed, WantOf, HasPod;
    SkipLeavesOutTheAsker(n.parents, n.pods, p);
    FitsMeans(Room(n.alloc, Requested(n.pods), Committed(n.parents, n.pods, Some(p.name))), WantOf(p));
  }

  // ----- the roomiest node -----

  /** Node names, ordered as their strings are. */
  type NodeName = nat

  /** Most free cpu, then most free memory, then the lower name. */
  predicate Roomier(a: (NodeName, Room), b: (NodeName, Room)) {
    var fa, fb := Free(a.1), Free(b.1);
    fa.cpu > fb.cpu || (fa.cpu == fb.cpu && (fa.mem > fb.mem || (fa.mem == fb.mem && a.0 <= b.0)))
  }

  function PickRoomiest(rooms: seq<(NodeName, Room)>, want: Want): Option<NodeName> {
    var best := Roomiest(rooms, want);
    if best.None? then None else Some(best.value.0)
  }

  function Roomiest(rooms: seq<(NodeName, Room)>, want: Want): Option<(NodeName, Room)> {
    if rooms == [] then None
    else
      var best, last := Roomiest(rooms[..|rooms| - 1], want), rooms[|rooms| - 1];
      if Fits(last.1, want) && (best.None? || Roomier(last, best.value)) then Some(last) else best
  }

  lemma {:induction false} RoomiestIsBest(rooms: seq<(NodeName, Room)>, want: Want)
    ensures Roomiest(rooms, want).None? <==> forall x :: x in rooms ==> !Fits(x.1, want)
    ensures Roomiest(rooms, want).Some? ==>
              var best := Roomiest(rooms, want).value;
              && best in rooms && Fits(best.1, want)
              && (forall x :: x in rooms && Fits(x.1, want) ==> Roomier(best, x))
              && forall x :: x in rooms && Fits(x.1, want) ==>
                   var a, b := Free(best.1), Free(x.1);
                   a.cpu > b.cpu || (a.cpu == b.cpu && (a.mem > b.mem || (a.mem == b.mem && best.0 <= x.0)))
  {
    if rooms != [] {
      var front := rooms[..|rooms| - 1];
      RoomiestIsBest(front, want);
      assert rooms == front + [rooms[|rooms| - 1]];
    }
  }

  /** The node picked is a fitting one no fitting one comes before; none is picked only when none fits. */
  lemma PickIsBest(rooms: seq<(NodeName, Room)>, want: Want)
    ensures PickRoomiest(rooms, want).None? <==> forall x :: x in rooms ==> !Fits(x.1, want)
    ensures PickRoomiest(rooms, want).Some? ==>
              exists best :: best in rooms && best.0 == PickRoomiest(rooms, want).value && Fits(best.1, want) &&
                forall x :: x in rooms && Fits(x.1, want) ==> Roomier(best, x)
  {
    RoomiestIsBest(rooms, want);
    hide Roomiest, Fits, Roomier;
    if Roomiest(rooms, want).Some? {
      var best := Roomiest(rooms, want).value;
      assert best in rooms;
    }
  }

  /** Every node that reads the same rooms, in whatever order, elects the same one. */
  lemma EveryoneElectsTheSame(rooms: seq<(NodeName, Room)>, others: seq<(NodeName, Room)>, want: Want)
    requires forall x :: x in rooms <==> x in others
    ensures PickRoomiest(rooms, want) == PickRoomiest(others, want)
  {
    RoomiestIsBest(rooms, want);
    RoomiestIsBest(others, want);
  }
}
