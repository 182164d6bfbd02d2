/** The lock a probe or a roll takes before it touches the fleet: one object, created, judged and taken
    over by deleting exactly the version that was judged. */
module RollLock {
  import opened Wrappers

  type Uid = nat

  /** Who a process is. A run by hand records no pod, and roll.sh records neither pod nor job. */
  datatype Identity = Identity(name: string, pod: Option<Uid>, job: Option<Uid>, ownerRef: Option<Uid>)
  datatype Lock = Lock(uid: Uid, version: nat, holder: Identity)

  /** A job decides when one is recorded, else the pod; nothing recorded is judged dead. `dead` holds
      the jobs and pods that are gone or have finished. */
  predicate HolderIsLive(dead: set<Uid>, holder: Identity) {
    match (holder.job, holder.pod)
    case (Some(job), _) => job !in dead
    case (None, Some(pod)) => pod !in dead
    case (None, None) => false
  }

  /** Whether a takeover may go over this holder: its job has gone or ended, or it records no job and its pod
      has gone or ended, or it records neither. */
  predicate MayBeTaken(dead: set<Uid>, holder: Identity) {
    || (holder.job.Some? && holder.job.value in dead)
    || (holder.job.None? && holder.pod.Some? && holder.pod.value in dead)
    || (holder.job.None? && holder.pod.None?)
  }

  /** The lock records a pod or a job, and nothing it records is dead. */
  predicate RecordedLive(dead: set<Uid>, holder: Identity) {
    && (holder.pod.Some? || holder.job.Some?)
    && (holder.pod.Some? ==> holder.pod.value !in dead)
    && (holder.job.Some? ==> holder.job.value !in dead)
    && (holder.ownerRef.Some? ==> holder.ownerRef.value !in dead)
  }

  /** The API server: the one object and the next uid it will hand out. */
  datatype Server = Server(lock: Option<Lock>, next: Uid)

  /** None is AlreadyExists. */
  function Created(s: Server, holder: Identity): (Server, Option<Lock>) {
    if s.lock.Some? then (s, None)
    else
      var l := Lock(s.next, 1, holder);
      (Server(Some(l), s.next + 1), Some(l))
  }

  /** Delete preconditioned on uid and version. */
  predicate Matches(s: Server, l: Lock) {
    s.lock.Some? && s.lock.value.uid == l.uid && s.lock.value.version == l.version
  }

  function DeletedIf(s: Server, l: Lock): Server {
    if Matches(s, l) then s.(lock := None) else s
  }

  // ----- the code, with nobody in between -----

  datatype Acquired = Acquired(lock: Lock) | Held(other: Identity)

  class Api {
    var server: Server

    constructor ()
      ensures server == Server(None, 0)
    {
      server := Server(None, 0);
    }

    method Create(holder: Identity) returns (l: Option<Lock>)
      modifies this
      ensures old(server).lock.Some? ==> l == None && server == old(server)
      ensures old(server).lock.None? ==>
                l == Some(Lock(old(server).next, 1, holder)) && server == Server(l, old(server).next + 1)
    {
      if server.lock.Some? {
        return None;
      }
      l := Some(Lock(server.next, 1, holder));
      server := Server(l, server.next + 1);
    }

    method DeleteIf(l: Lock)
      modifies this
      ensures server == if old(server).lock.Some? && old(server).lock.value.uid == l.uid
                           && old(server).lock.value.version == l.version
                        then Server(None, old(server).next) else old(server)
    {
      if Matches(server, l) {
        server := server.(lock := None);
      }
    }

    method CreateOrTakeOver(me: Identity, dead: set<Uid>) returns (r: Acquired)
      modifies this
      ensures r.Acquired? <==> old(server).lock.None? || MayBeTaken(dead, old(server).lock.value.holder)
      ensures r.Acquired? ==> server.lock == Some(r.lock) && r.lock.holder == me && r.lock.uid == old(server).next
      ensures r.Held? ==> server == old(server) && r.other == server.lock.value.holder
    {
      var l := Create(me);
      if l.Some? {
        return Acquired(l.value);
      }
      r := TakeOver(me, dead);
    }

    method TakeOver(me: Identity, dead: set<Uid>) returns (r: Acquired)
      requires server.lock.Some?
      modifies this
      ensures r.Acquired? <==> MayBeTaken(dead, old(server).lock.value.holder)
      ensures r.Acquired? ==> server.lock == Some(r.lock) && r.lock.holder == me && r.lock.uid == old(server).next
      ensures r.Held? ==> server == old(server) && r.other == server.lock.value.holder
    {
      var existing := server.lock.value;
      if HolderIsLive(dead, existing.holder) {
        return Held(existing.holder);
      }
      DeleteIf(existing);
      var l := Create(me);
      r := Acquired(l.value);
    }

    method Release(l: Lock)
      modifies this
      ensures server == if old(server).lock.Some? && old(server).lock.value.uid == l.uid
                           && old(server).lock.value.version == l.version
                        then Server(None, old(server).next) else old(server)
    {
      DeleteIf(l);
    }
  }

  // ----- every interleaving -----

  /** Where one process stands between its requests. */
  datatype Pc =
    | Start
    | Conflicted
    | Judging(found: Lock)
    | Condemned(found: Lock)
    | Recreating
    | Holding(mine: Lock)
    | Ended
  datatype Proc = Proc(id: Identity, pc: Pc)

  datatype Sys = Sys(server: Server, dead: set<Uid>, procs: map<string, Proc>)

  /** `net` is how the request ends. A judge may rule by age only where nothing is recorded (roll.sh
      does, the probe does not: it rules such a lock dead). */
  datatype Action =
    | Create(proc: string, net: Net)
    | Read(proc: string)
    | Judge(proc: string, young: bool)
    | Delete(proc: string, net: Net)
    | Recreate(proc: string, net: Net)
    | Release(proc: string, net: Net)
    | Crash(proc: string)
    | Die(uid: Uid)
    | Collect

  predicate Enabled(s: Sys, a: Action) {
    match a
    case Die(_) => true
    case Collect => s.server.lock.Some? && s.server.lock.value.holder.ownerRef.Some? &&
        s.server.lock.value.holder.ownerRef.value in s.dead
    case _ =>
      a.proc in s.procs &&
      var pc := s.procs[a.proc].pc;
      match a
      case Create(_, _) => pc.Start?
      case Read(_) => pc.Conflicted?
      case Judge(_, _) => pc.Judging?
      case Delete(_, _) => pc.Condemned?
      case Recreate(_, _) => pc.Recreating?
      case Release(_, _) => pc.Holding?
      case _ => true
  }

  function Set(s: Sys, p: string, pc: Pc): Sys
    requires p in s.procs
  {
    s.(procs := s.procs[p := s.procs[p].(pc := pc)])
  }

  function DoCreate(s: Sys, p: string, net: Net, lost: Pc): Sys
    requires p in s.procs
  {
    if net.Refused? then Set(s, p, Ended)
    else
      var (server, l) := Created(s.server, s.procs[p].id);
      Set(s, p, if l.None? then lost else if net.ReplyLost? then Ended else Holding(l.value)).(server := server)
  }

  function Do(s: Sys, a: Action): Sys
    requires Enabled(s, a)
  {
    match a
    case Create(p, net) => DoCreate(s, p, net, Conflicted)
    case Read(p) => Set(s, p, if s.server.lock.None? then Ended else Judging(s.server.lock.value))
    case Judge(p, young) =>
      var l := s.procs[p].pc.found;
      var unrecorded := l.holder.pod.None? && l.holder.job.None?;
      Set(s, p, if HolderIsLive(s.dead, l.holder) || (unrecorded && young) then Ended else Condemned(l))
    case Delete(p, net) =>
      if net.Refused? then Set(s, p, Ended)
      else Set(s, p, if net.ReplyLost? then Ended else Recreating).(server := DeletedIf(s.server, s.procs[p].pc.found))
    case Recreate(p, net) => DoCreate(s, p, net, Ended)
    case Release(p, net) =>
      if net.Refused? then Set(s, p, Ended)
      else Set(s, p, Ended).(server := DeletedIf(s.server, s.procs[p].pc.mine))
    case Crash(p) => Set(s, p, Ended)
    case Die(u) => s.(dead := s.dead + {u})
    case Collect => s.(server := s.server.(lock := None))
  }

  /** Any lock may be there already; nobody has begun. */
  predicate Init(s: Sys) {
    && (s.server.lock.Some? ==> s.server.lock.value.uid < s.server.next)
    && forall p :: p in s.procs ==> s.procs[p].pc == Start
  }

  ghost predicate IsRun(states: seq<Sys>, actions: seq<Action>) {
    && |states| == |actions| + 1 && Init(states[0])
    && forall i :: 0 <= i < |actions| ==> Enabled(states[i], actions[i]) && states[i + 1] == Do(states[i], actions[i])
  }

  predicate PcInv(s: Sys, p: Proc) {
    match p.pc
    case Judging(l) => Known(s, l)
    case Condemned(l) => Known(s, l) && !RecordedLive(s.dead, l.holder)
    case Holding(l) =>
      Known(s, l) && l.holder == p.id && (RecordedLive(s.dead, l.holder) ==> s.server.lock == Some(l))
    case _ => true
  }

  /** A lock a process has seen was handed out, and its uid names no other lock. */
  predicate Known(s: Sys, l: Lock) {
    l.uid < s.server.next && (s.server.lock.Some? && s.server.lock.value.uid == l.uid ==> s.server.lock == Some(l))
  }

  predicate Inv(s: Sys) {
    && (s.server.lock.Some? ==> s.server.lock.value.uid < s.server.next)
    && (forall p :: p in s.procs ==> PcInv(s, s.procs[p]))
    && forall p, q :: p in s.procs && q in s.procs && p != q && s.procs[p].pc.Holding? && s.procs[q].pc.Holding? ==>
         s.procs[p].pc.mine.uid != s.procs[q].pc.mine.uid
  }

  /** The stored lock goes away under this action, and the action is not its own holder's release. */
  predicate TakenAway(s: Sys, a: Action, l: Lock)
    requires Enabled(s, a)
  {
    && s.server.lock == Some(l) && Do(s, a).server.lock != Some(l)
    && !(a.Release? && s.procs[a.proc].pc.mine == l)
  }

  /** A lock whose recorded holder is live is removed by its own release and by nothing else. */
  lemma LiveLockIsSafe(s: Sys, a: Action, l: Lock)
    requires Inv(s) && Enabled(s, a) && RecordedLive(s.dead, l.holder)
    ensures !TakenAway(s, a, l)
  {
    if a.Delete? || a.Release? {
      assert PcInv(s, s.procs[a.proc]);
    }
  }

  /** A step by one process leaves what the others know true. */
  lemma OthersKept(s: Sys, a: Action, q: string)
    requires Inv(s) && Enabled(s, a) && q in s.procs && Do(s, a).procs[q] == s.procs[q]
    requires a.Release? && s.procs[q].pc.Holding? ==> s.procs[a.proc].pc.mine.uid != s.procs[q].pc.mine.uid
    ensures PcInv(Do(s, a), s.procs[q])
  {
    assert PcInv(s, s.procs[q]);
    if s.procs[q].pc.Holding? {
      if RecordedLive(s.dead, s.procs[q].pc.mine.holder) {
        LiveLockIsSafe(s, a, s.procs[q].pc.mine);
      }
    }
  }

  lemma ActorKept(s: Sys, a: Action)
    requires Inv(s) && Enabled(s, a) && !a.Die? && !a.Collect?
    ensures a.proc in Do(s, a).procs && PcInv(Do(s, a), Do(s, a).procs[a.proc])
  {
    assert PcInv(s, s.procs[a.proc]);
  }

  lemma HolderIsNew(s: Sys, a: Action, q: string)
    requires Inv(s) && Enabled(s, a) && !a.Die? && !a.Collect? && q in s.procs && q != a.proc
    requires Do(s, a).procs[a.proc].pc.Holding? && s.procs[q].pc.Holding?
    ensures Do(s, a).procs[a.proc].pc.mine.uid != s.procs[q].pc.mine.uid
  {
    assert PcInv(s, s.procs[q]);
  }

  lemma {:induction false} StepKeeps(s: Sys, a: Action)
    requires Inv(s) && Enabled(s, a)
    ensures Inv(Do(s, a))
  {
    hide PcInv;
    var t := Do(s, a);
    forall q | q in t.procs ensures PcInv(t, t.procs[q]) {
      if !a.Die? && !a.Collect? && q == a.proc {
        ActorKept(s, a);
      } else {
        OthersKept(s, a, q);
      }
    }
    forall q | !a.Die? && !a.Collect? && q in s.procs && q != a.proc && t.procs[a.proc].pc.Holding? &&
        s.procs[q].pc.Holding?
      ensures t.procs[a.proc].pc.mine.uid != s.procs[q].pc.mine.uid
    {
      HolderIsNew(s, a, q);
    }
  }

  lemma {:induction false} RunKeeps(states: seq<Sys>, actions: seq<Action>, i: nat)
    requires IsRun(states, actions) && i < |states|
    ensures Inv(states[i])
  {
    if i > 0 {
      RunKeeps(states, actions, i - 1);
      StepKeeps(states[i - 1], actions[i - 1]);
    }
  }

  /** Over every run: while everything a lock records is live, only its holder's release removes it. */
  lemma RemovedOnlyByRelease(states: seq<Sys>, actions: seq<Action>, i: nat, l: Lock)
    requires IsRun(states, actions) && i < |actions|
    requires RecordedLive(states[i].dead, l.holder) && states[i].server.lock == Some(l)
    requires states[i + 1].server.lock != Some(l)
    ensures actions[i].Release? && states[i].procs[actions[i].proc].pc == Holding(l)
  {
    RunKeeps(states, actions, i);
    LiveLockIsSafe(states[i], actions[i], l);
  }

  /** A process that believes it holds the lock, and all it recorded is live. */
  predicate Believes(s: Sys, p: string) {
    p in s.procs && s.procs[p].pc.Holding? && RecordedLive(s.dead, s.procs[p].id)
  }

  /** So at most one process at a time believes it, and what it believes is true. */
  lemma MutualExclusion(states: seq<Sys>, actions: seq<Action>, i: nat, p: string, q: string)
    requires IsRun(states, actions) && i < |states| && Believes(states[i], p)
    ensures states[i].server.lock == Some(states[i].procs[p].pc.mine)
    ensures Believes(states[i], q) ==> p == q
  {
    RunKeeps(states, actions, i);
    assert PcInv(states[i], states[i].procs[p]);
    if Believes(states[i], q) {
      assert PcInv(states[i], states[i].procs[q]);
    }
  }

  // ----- outside the guarantee -----

  /** The uninterrupted requests of one probe that finds the lock taken. */
  function ProbeTakeover(p: string): seq<Action> {
    [Create(p, Reliable), Read(p), Judge(p, false), Delete(p, Reliable), Recreate(p, Reliable)]
  }

  /** Those actions in a row; None when one of them is not possible. */
  function Perform(s: Sys, actions: seq<Action>): Option<Sys>
    decreases |actions|
  {
    if actions == [] then Some(s)
    else if !Enabled(s, actions[0]) then None
    else Perform(Do(s, actions[0]), actions[1..])
  }

  /** A probe's takeover goes through exactly when the recorded holder is not live. A lock that records
      neither pod nor job, as roll.sh writes it, is therefore taken from a roll in progress at once,
      whatever its age: the roll goes on holding what it created, and so does the probe. */
  lemma UnrecordedIsTaken(s: Sys, p: string, l: Lock)
    requires p in s.procs && s.procs[p].pc == Start && s.server.lock == Some(l)
    ensures Perform(s, ProbeTakeover(p)).Some? <==> MayBeTaken(s.dead, l.holder)
    ensures l.holder.pod.None? && l.holder.job.None? ==> Perform(s, ProbeTakeover(p)).Some?
    ensures Perform(s, ProbeTakeover(p)).Some? ==>
              Perform(s, ProbeTakeover(p)).value.procs ==
              s.procs[p := Proc(s.procs[p].id, Holding(Lock(s.server.next, 1, s.procs[p].id)))]
  {
    var a := ProbeTakeover(p);
    var s1 := Do(s, a[0]);
    var s2 := Do(s1, a[1]);
    assert s2.procs[p].pc == Judging(l);
    var s3 := Do(s2, a[2]);
    assert a[1..][1..][1..] == [a[3], a[4]];
    assert Perform(s, a) == Perform(s1, a[1..]) == Perform(s2, a[1..][1..]) == Perform(s3, [a[3], a[4]]);
    if s3.procs[p].pc.Condemned? {
      var s4 := Do(s3, a[3]);
      assert [a[3], a[4]][1..] == [a[4]];
      var s5 := Do(s4, a[4]);
      assert Perform(s4, [a[4]]) == Perform(s5, []) == Some(s5);
    }
  }

  /** Over a free lock a process holds what it created, and its release leaves the lock free again. */
  lemma HeldAndReleased(s: Sys, p: string)
    requires p in s.procs && s.procs[p].pc == Start && s.server.lock == None
    ensures var held := Do(s, Create(p, Reliable));
            var mine := Lock(s.server.next, 1, s.procs[p].id);
            && held.server.lock == Some(mine) && held.procs[p].pc == Holding(mine)
            && Do(held, Release(p, Reliable)).server.lock == None && Do(held, Release(p, Reliable)).procs[p].pc == Ended
  {
  }
}
