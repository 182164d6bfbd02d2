/** Election and fencing under every interleaving: any number of pods, each beating on its own clock,
    each running any number of fenced passes, crashing, restarting and shutting down. One action is
    one await-free step of one task. */
module Election {
  import opened Wrappers
  import opened Lease

  /** Where a pod's election beat stands. */
  datatype Beat = Idle | Looked(cur: Option<Lease>) | Sent(reply: Reply)
  /** Where a shutdown stands. */
  datatype Exit = Running | Demoted | Reread(cur: Lease) | Gone
  /** Where one write fence stands: asked to lead, has read the lease (its `k`-th fence read), or has
      been refused and will demote. */
  datatype Check = Asked | Saw(k: nat, view: Option<View>) | Refusing

  datatype Pod = Pod(epoch: U32, beat: Beat, exit: Exit, checks: map<nat, Check>)

  const BOOTED := Pod(0, Idle, Running, map[])

  /** A fence that passed: which pod, and which fence read it passed on. */
  datatype Pass = Pass(pod: string, k: nat)

  /** A write whose sender stopped waiting for it: it may still reach the API server at any time. */
  datatype Bid = Bid(pod: string, cur: Option<Lease>, now: I64)
  datatype Blank = Blank(pod: string, cur: Lease)

  /** `bids` and `blanks` are the writes still out; one that landed stays, since sent again it would
      conflict. `won`, `found` and `passes` are history: who landed the acquire of each term, the term each
      fence read found, and the fences passed so far. No step depends on them. */
  datatype Sys = Sys(stored: Option<Lease>, pods: map<string, Pod>, bids: seq<Bid>, blanks: seq<Blank>,
                     won: map<nat, string>, found: seq<nat>, passes: seq<Pass>)

  datatype Action =
    | BeatRead(pod: string)
    | BeatUnreadable(pod: string)
    | BeatWrite(pod: string, now: I64, net: Net)
    | BeatSettle(pod: string)
    | BeatTimeout(pod: string, now: I64)
    | BidLands(pod: string, i: nat)
    | Crash(pod: string)
    | Stop(pod: string)
    | ExitRead(pod: string)
    | ExitWrite(pod: string, net: Net)
    | ExitTimeout(pod: string)
    | BlankLands(pod: string, i: nat)
    | FenceAsk(pod: string, task: nat)
    | FenceRead(pod: string, task: nat)
    | FenceUnreadable(pod: string, task: nat)
    | FenceCompare(pod: string, task: nat)
    | FenceDemote(pod: string, task: nat)

  predicate Enabled(s: Sys, a: Action) {
    a.pod in s.pods &&
    var p := s.pods[a.pod];
    match a
    case BeatRead(_) => p.beat.Idle? && p.exit.Running?
    case BeatUnreadable(_) => p.beat.Idle? && p.exit.Running?
    case BeatWrite(_, _, _) => p.beat.Looked?
    case BeatSettle(_) => p.beat.Sent?
    case BeatTimeout(n, now) => p.beat.Looked? && !Decide(Max0(now), n, Seen(p.beat.cur)).Wait?
    case BidLands(n, i) => i < |s.bids| && s.bids[i].pod == n
    case Crash(_) => true
    case Stop(_) => p.exit.Running?
    case ExitRead(_) => p.exit.Demoted? && s.stored.Some?
    case ExitWrite(_, _) => p.exit.Reread?
    case ExitTimeout(_) => p.exit.Reread?
    case BlankLands(n, i) => i < |s.blanks| && s.blanks[i].pod == n
    case FenceAsk(_, f) => f !in p.checks && p.epoch != 0
    case FenceRead(_, f) => f in p.checks && p.checks[f].Asked?
    case FenceUnreadable(_, f) => f in p.checks && p.checks[f].Asked?
    case FenceCompare(_, f) => f in p.checks && p.checks[f].Saw?
    case FenceDemote(_, f) => f in p.checks && p.checks[f].Refusing?
  }

  /** The action carries an election beat's write to the API server. */
  predicate Bids(s: Sys, a: Action) {
    Enabled(s, a) && (a.BeatWrite? || a.BidLands?)
  }

  /** That write: who sends it, the lease it was decided on, and the clock it was decided by. */
  function BidOf(s: Sys, a: Action): Bid
    requires Bids(s, a)
  {
    if a.BeatWrite? then Bid(a.pod, s.pods[a.pod].beat.cur, a.now) else s.bids[a.i]
  }

  function Decision(s: Sys, a: Action): Step
    requires Bids(s, a)
  {
    var b := BidOf(s, a);
    Decide(Max0(b.now), a.pod, Seen(b.cur))
  }

  /** How the API server answers it. */
  function Answer(s: Sys, a: Action): Reply
    requires Bids(s, a)
  {
    var b := BidOf(s, a);
    var spec := Proposal(a.pod, Decision(s, a), b.cur, b.now);
    if spec.None? || (a.BeatWrite? && a.net.Refused?) then Failed else Put(s.stored, b.cur, spec)
  }

  /** The action elects its pod: an acquire lands. */
  predicate Elects(s: Sys, a: Action) {
    Bids(s, a) && Decision(s, a).Acquire? && Answer(s, a).Landed?
  }

  /** The store and the history after an election beat's write arrives. */
  function Bidden(s: Sys, a: Action): Sys
    requires Bids(s, a)
  {
    var after := Stored(s.stored, Answer(s, a));
    s.(stored := after, won := if Elects(s, a) then s.won[Term(after) as nat := a.pod] else s.won)
  }

  /** The store after a hand-back's write arrives. */
  function Blanking(s: Sys, n: string, cur: Lease, net: Net): Sys {
    var spec := Blanked(n, cur);
    var reply := if spec.None? || net.Refused? then Failed else Put(s.stored, Some(cur), spec.value);
    s.(stored := Stored(s.stored, reply))
  }

  function Do(s: Sys, a: Action): Sys
    requires Enabled(s, a)
  {
    var p := s.pods[a.pod];
    match a
    case BeatRead(n) => Set(s, n, p.(beat := Looked(s.stored)))
    case BeatUnreadable(n) => Set(s, n, p.(epoch := 0))
    case BeatWrite(n, now, net) =>
      if Decision(s, a).Wait? then Set(s, n, p.(beat := Idle, epoch := 0))
      else Set(Bidden(s, a), n, p.(beat := Sent(if net.ReplyLost? then Failed else Answer(s, a))))
    case BeatSettle(n) => Set(s, n, p.(beat := Idle, epoch := Settle(n, p.beat.reply)))
    case BeatTimeout(n, now) => Set(s, n, p.(beat := Idle, epoch := 0)).(bids := s.bids + [Bid(n, p.beat.cur, now)])
    case BidLands(n, i) => Bidden(s, a)
    case Crash(n) => Set(s, n, BOOTED)
    case Stop(n) => Set(s, n, p.(beat := Idle, exit := Demoted, epoch := 0))
    case ExitRead(n) => Set(s, n, p.(exit := Reread(s.stored.value)))
    case ExitWrite(n, net) => Set(Blanking(s, n, p.exit.cur, net), n, p.(exit := Gone))
    case ExitTimeout(n) => Set(s, n, p.(exit := Gone)).(blanks := s.blanks + [Blank(n, p.exit.cur)])
    case BlankLands(n, i) => Blanking(s, n, s.blanks[i].cur, Reliable)
    case FenceAsk(n, f) => Set(s, n, p.(checks := p.checks[f := Asked]))
    case FenceRead(n, f) =>
      var saw := Saw(|s.found|, Seen(s.stored));
      Set(s, n, p.(checks := p.checks[f := saw])).(found := s.found + [Term(s.stored) as nat])
    case FenceUnreadable(n, f) => Set(s, n, p.(epoch := 0, checks := p.checks - {f}))
    case FenceCompare(n, f) =>
      var c := p.checks[f];
      if MayWrite(p.epoch, c.view)
      then Set(s, n, p.(checks := p.checks - {f})).(passes := s.passes + [Pass(n, c.k)])
      else Set(s, n, p.(checks := p.checks[f := Refusing]))
    case FenceDemote(n, f) => Set(s, n, p.(epoch := 0, checks := p.checks - {f}))
  }

  function Set(s: Sys, n: string, p: Pod): Sys {
    s.(pods := s.pods[n := p])
  }

  /** Any stored lease, every pod freshly booted; the stored term counts as won by whoever it names. */
  predicate Init(s: Sys) {
    && (forall n :: n in s.pods ==> n != "" && s.pods[n] == BOOTED)
    && s.won == (match Seen(s.stored)
                 case Some(v) =>
                   if v.holder != "" && v.transitions > 0 then map[v.transitions as nat := v.holder] else map[]
                 case None => map[])
    && s.bids == [] && s.blanks == [] && s.found == [] && s.passes == []
  }

  /** An acquire made from the largest signed 32-bit term wraps (see Lease.AcquireRaisesByOne). */
  predicate InRange(s: Sys, a: Action) {
    Elects(s, a) ==> Term(s.stored) < I32_MAX
  }

  ghost predicate IsRun(states: seq<Sys>, actions: seq<Action>) {
    && |states| == |actions| + 1 && Init(states[0])
    && forall i :: 0 <= i < |actions| ==>
         Enabled(states[i], actions[i]) && InRange(states[i], actions[i]) && states[i + 1] == Do(states[i], actions[i])
  }

  // ----- the invariant -----

  /** A held copy of the lease is not newer than the stored one, and is it if the versions agree. */
  predicate Copy(s: Sys, cur: Lease) {
    s.stored.Some? && cur.version <= s.stored.value.version &&
    (cur.version == s.stored.value.version ==> cur == s.stored.value)
  }

  predicate WonBy(s: Sys, term: nat, n: string) {
    term in s.won && s.won[term] == n
  }

  predicate PodInv(s: Sys, n: string, p: Pod) {
    && n != ""
    && (p.epoch != 0 ==> WonBy(s, p.epoch, n))
    && (p.beat.Looked? && p.beat.cur.Some? ==> Copy(s, p.beat.cur.value))
    && (p.beat.Sent? && Settle(n, p.beat.reply) != 0 ==> WonBy(s, Settle(n, p.beat.reply), n))
    && (p.exit.Reread? ==> Copy(s, p.exit.cur))
    && (!p.exit.Running? ==> p.epoch == 0 && p.beat.Idle?)
    && forall f :: f in p.checks ==> CheckInv(s, p.checks[f])
  }

  predicate CheckInv(s: Sys, c: Check) {
    match c
    case Asked => Term(s.stored) >= 1
    case Saw(k, view) => k < |s.found| && view.Some? && view.value.transitions == s.found[k] >= 1
    case Refusing => true
  }

  predicate StoreInv(s: Sys) {
    && (Seen(s.stored).Some? && Seen(s.stored).value.holder != "" && Term(s.stored) > 0 ==>
          WonBy(s, Term(s.stored), Seen(s.stored).value.holder))
    && forall t :: t in s.won ==> 1 <= t <= Term(s.stored)
  }

  predicate ReadsInv(s: Sys) {
    && (forall k :: 0 <= k < |s.found| ==> s.found[k] <= Term(s.stored))
    && forall j, k :: 0 <= j <= k < |s.found| ==> s.found[j] <= s.found[k]
  }

  predicate PassInv(s: Sys, x: Pass) {
    x.k < |s.found| && WonBy(s, s.found[x.k], x.pod)
  }

  predicate LooseInv(s: Sys) {
    && (forall i :: 0 <= i < |s.bids| && s.bids[i].cur.Some? ==> Copy(s, s.bids[i].cur.value))
    && forall i :: 0 <= i < |s.blanks| ==> Copy(s, s.blanks[i].cur)
  }

  predicate Inv(s: Sys) {
    && StoreInv(s) && ReadsInv(s) && LooseInv(s)
    && (forall n :: n in s.pods ==> PodInv(s, n, s.pods[n]))
    && forall i :: 0 <= i < |s.passes| ==> PassInv(s, s.passes[i])
  }

  /** What every step keeps of the world outside one pod. */
  predicate Grows(s: Sys, t: Sys) {
    && Term(s.stored) <= Term(t.stored)
    && (s.stored.Some? ==> t.stored.Some? && (t.stored == s.stored || t.stored.value.version > s.stored.value.version))
    && (forall k :: k in s.won ==> k in t.won && t.won[k] == s.won[k])
    && s.found <= t.found
  }

  lemma OthersKept(s: Sys, t: Sys, n: string, p: Pod)
    requires PodInv(s, n, p) && Grows(s, t)
    ensures PodInv(t, n, p)
  {
    hide Settle, Term;
  }

  lemma PassesKept(s: Sys, t: Sys)
    requires Inv(s) && Grows(s, t)
    ensures forall i :: 0 <= i < |s.passes| ==> PassInv(t, s.passes[i])
  {
  }

  /** The term after a landed write: one more for an acquire, the same for a renewal. */
  lemma LandedTerm(s: Sys, a: Action)
    requires Inv(s) && Bids(s, a) && InRange(s, a)
    requires Answer(s, a).Landed?
    ensures var after := Stored(s.stored, Answer(s, a));
            && Seen(after).Some? && Seen(after).value.holder == a.pod
            && Term(after) == Term(s.stored) + (if Elects(s, a) then 1 else 0)
            && (!Elects(s, a) ==> Seen(s.stored).Some? && Seen(s.stored).value.holder == a.pod)
            && (s.stored.Some? ==> after.value.version > s.stored.value.version)
  {
    assert PodInv(s, a.pod, s.pods[a.pod]);
  }

  lemma WriteGrows(s: Sys, a: Action)
    requires Inv(s) && Bids(s, a) && InRange(s, a)
    ensures Grows(s, Do(s, a)) && StoreInv(Do(s, a))
    ensures Answer(s, a).Landed? && Settle(a.pod, Answer(s, a)) != 0 ==>
              WonBy(Do(s, a), Settle(a.pod, Answer(s, a)), a.pod)
  {
    if Answer(s, a).Landed? {
      LandedTerm(s, a);
    }
  }

  lemma ExitGrows(s: Sys, a: Action)
    requires Inv(s) && Enabled(s, a) && (a.ExitWrite? || a.BlankLands?)
    ensures Grows(s, Do(s, a)) && StoreInv(Do(s, a)) && Term(Do(s, a).stored) == Term(s.stored)
  {
    assert PodInv(s, a.pod, s.pods[a.pod]);
  }

  /** Any step but a write leaves the store, and at most adds what a fence read found. */
  lemma QuietGrows(s: Sys, a: Action)
    requires Inv(s) && Enabled(s, a) && !Bids(s, a) && !a.ExitWrite? && !a.BlankLands?
    ensures Grows(s, Do(s, a)) && StoreInv(Do(s, a)) && ReadsInv(Do(s, a))
  {
    hide Settle, Decide, Proposal, Blanked, Put, Term, PodInv, LooseInv;
  }

  lemma {:induction false} StepGrows(s: Sys, a: Action)
    requires Inv(s) && Enabled(s, a) && InRange(s, a)
    ensures Grows(s, Do(s, a)) && StoreInv(Do(s, a)) && ReadsInv(Do(s, a))
  {
    hide Settle, Decision, Proposal, Blanked, Put, Term, PodInv, LooseInv;
    if Bids(s, a) {
      WriteGrows(s, a);
    } else if a.ExitWrite? || a.BlankLands? {
      ExitGrows(s, a);
    } else {
      QuietGrows(s, a);
    }
  }

  lemma ActorBeatKept(s: Sys, a: Action)
    requires Inv(s) && Enabled(s, a) && InRange(s, a)
    requires a.BeatRead? || a.BeatUnreadable? || a.BeatWrite? || a.BeatSettle? || a.BeatTimeout? || a.BidLands? ||
        a.Crash?
    requires PodInv(Do(s, a), a.pod, s.pods[a.pod])
    ensures PodInv(Do(s, a), a.pod, Do(s, a).pods[a.pod])
  {
    hide Put, Proposal, Decide;
    assert PodInv(s, a.pod, s.pods[a.pod]);
    if a.BeatWrite? {
      WriteGrows(s, a);
    }
  }

  lemma ActorExitKept(s: Sys, a: Action)
    requires Inv(s) && Enabled(s, a)
    requires a.Stop? || a.ExitRead? || a.ExitWrite? || a.ExitTimeout? || a.BlankLands?
    requires PodInv(Do(s, a), a.pod, s.pods[a.pod])
    ensures PodInv(Do(s, a), a.pod, Do(s, a).pods[a.pod])
  {
    hide Put, Blanked;
  }

  lemma ActorFenceKept(s: Sys, a: Action)
    requires Inv(s) && Enabled(s, a)
    requires a.FenceAsk? || a.FenceRead? || a.FenceUnreadable? || a.FenceCompare? || a.FenceDemote?
    requires PodInv(Do(s, a), a.pod, s.pods[a.pod])
    ensures PodInv(Do(s, a), a.pod, Do(s, a).pods[a.pod])
    ensures a.FenceCompare? && Do(s, a).passes != s.passes ==>
        PassInv(Do(s, a), Pass(a.pod, s.pods[a.pod].checks[a.task].k))
  {
    hide Settle, Bidden, Blanking, Decide, Decision, Answer, Elects;
    var p := s.pods[a.pod];
    assert PodInv(s, a.pod, p);
    if a.task in p.checks {
      assert CheckInv(s, p.checks[a.task]);
    }
  }

  lemma {:induction false} ActorKept(s: Sys, a: Action)
    requires Inv(s) && Enabled(s, a) && InRange(s, a) && Grows(s, Do(s, a))
    ensures PodInv(Do(s, a), a.pod, Do(s, a).pods[a.pod])
    ensures forall i :: 0 <= i < |Do(s, a).passes| ==> PassInv(Do(s, a), Do(s, a).passes[i])
  {
    hide PodInv, PassInv;
    var t := Do(s, a);
    OthersKept(s, t, a.pod, s.pods[a.pod]);
    PassesKept(s, t);
    if a.BeatRead? || a.BeatUnreadable? || a.BeatWrite? || a.BeatSettle? || a.BeatTimeout? || a.BidLands? || a.Crash? {
      ActorBeatKept(s, a);
    } else if a.Stop? || a.ExitRead? || a.ExitWrite? || a.ExitTimeout? || a.BlankLands? {
      ActorExitKept(s, a);
    } else {
      ActorFenceKept(s, a);
    }
  }

  lemma LooseKept(s: Sys, a: Action)
    requires Inv(s) && Enabled(s, a) && Grows(s, Do(s, a))
    ensures LooseInv(Do(s, a))
  {
    hide Settle, Decide, Decision, Proposal, Elects, Blanked, Put, Term, MayWrite, CheckInv, WonBy;
    assert PodInv(s, a.pod, s.pods[a.pod]);
  }

  lemma {:induction false} StepKeeps(s: Sys, a: Action)
    requires Inv(s) && Enabled(s, a) && InRange(s, a)
    ensures Inv(Do(s, a))
  {
    hide Settle, Decide, Proposal, Blanked, Put, Term, CheckInv;
    var t := Do(s, a);
    StepGrows(s, a);
    LooseKept(s, a);
    ActorKept(s, a);
    forall n | n in t.pods ensures PodInv(t, n, t.pods[n]) {
      if n != a.pod {
        assert t.pods[n] == s.pods[n];
        OthersKept(s, t, n, s.pods[n]);
      }
    }
  }

  lemma {:induction false} RunKeeps(states: seq<Sys>, actions: seq<Action>, i: nat)
    requires IsRun(states, actions) && i < |states|
    ensures Inv(states[i])
  {
    if i > 0 {
      RunKeeps(states, actions, i - 1);
      StepKeeps(states[i - 1], actions[i - 1]);
    }
  }

  lemma {:induction false} RunGrows(states: seq<Sys>, actions: seq<Action>, i: nat, j: nat)
    requires IsRun(states, actions) && i <= j < |states|
    ensures Grows(states[i], states[j])
    decreases j
  {
    hide Do, Enabled, InRange, Init;
    if i < j {
      RunGrows(states, actions, i, j - 1);
      RunKeeps(states, actions, j - 1);
      StepGrows(states[j - 1], actions[j - 1]);
    }
  }

  // ----- with nobody in between, the steps are the methods -----

  lemma BeatIsTick(s: Sys, n: string, now: I64, net: Net)
    requires Enabled(s, BeatRead(n))
    ensures var looked := Do(s, BeatRead(n));
            var written := Do(looked, BeatWrite(n, now, net));
            var t := if written.pods[n].beat.Sent? then Do(written, BeatSettle(n)) else written;
            (t.stored, t.pods[n].epoch) == Tick(s.stored, n, now, true, net)
  {
  }

  lemma ExitIsHandBack(s: Sys, n: string, net: Net)
    requires Enabled(s, Stop(n)) && s.stored.Some?
    ensures var t := Do(Do(Do(s, Stop(n)), ExitRead(n)), ExitWrite(n, net));
            t.stored == HandedBack(s.stored, n, true, net) && t.pods[n].epoch == 0
  {
  }

  /** A pod that cannot read the lease holds no epoch afterwards, in its beat as in its fences, and touches
      nothing else; nor does one that has begun to shut down. */
  lemma BlindPodFollows(s: Sys, n: string, f: nat)
    ensures Enabled(s, BeatUnreadable(n)) ==>
              var t := Do(s, BeatUnreadable(n)); t.pods[n].epoch == 0 && t.stored == s.stored && t.passes == s.passes
    ensures Enabled(s, FenceUnreadable(n, f)) ==>
              var t := Do(s, FenceUnreadable(n, f));
              t.pods[n].epoch == 0 && t.stored == s.stored && t.passes == s.passes
    ensures Enabled(s, Stop(n)) ==> var t := Do(s, Stop(n)); t.pods[n].epoch == 0 && t.stored == s.stored
  {
  }

  /** An undisturbed fence passes exactly for a leader of the stored term, and demotes any other. */
  lemma FenceIsExact(s: Sys, n: string, f: nat)
    requires Enabled(s, FenceAsk(n, f))
    ensures var t := Do(Do(Do(s, FenceAsk(n, f)), FenceRead(n, f)), FenceCompare(n, f));
            var e := s.pods[n].epoch;
            if Seen(s.stored).Some? && Seen(s.stored).value.transitions == e
            then t.passes == s.passes + [Pass(n, |s.found|)] && t.pods[n].epoch == e
            else t.passes == s.passes && Enabled(t, FenceDemote(n, f)) && Do(t, FenceDemote(n, f)).pods[n].epoch == 0
  {
  }

  // ----- election safety -----

  /** The stored term moves only when an acquire lands, and then by exactly one. */
  lemma TermMovesByElection(states: seq<Sys>, actions: seq<Action>, i: nat)
    requires IsRun(states, actions) && i < |actions|
    ensures Term(states[i + 1].stored) == Term(states[i].stored) + (if Elects(states[i], actions[i]) then 1 else 0)
  {
    RunKeeps(states, actions, i);
    var s, a := states[i], actions[i];
    if Bids(s, a) && Answer(s, a).Landed? {
      LandedTerm(s, a);
    } else if a.ExitWrite? || a.BlankLands? {
      ExitGrows(s, a);
    }
  }

  /** And only over a lease that was absent, had no spec, or was past its TTL by the clock of the pod that
      takes it: nobody is robbed of a live lease. */
  lemma TermRisesOverLapsed(states: seq<Sys>, actions: seq<Action>, i: nat)
    requires IsRun(states, actions) && i < |actions|
    requires Term(states[i + 1].stored) != Term(states[i].stored)
    ensures Bids(states[i], actions[i])
    ensures var b := BidOf(states[i], actions[i]);
            && b.cur == states[i].stored
            && (Seen(b.cur).Some? ==> Max0(b.now) > Seen(b.cur).value.renewedMs + TTL_MS)
  {
    RunKeeps(states, actions, i);
    TermMovesByElection(states, actions, i);
    var s, a := states[i], actions[i];
    if a.BeatWrite? {
      assert PodInv(s, a.pod, s.pods[a.pod]);
    }
  }

  /** No term is won twice: two elections of a run are of different terms, the later of the larger. */
  lemma ElectionsDiffer(states: seq<Sys>, actions: seq<Action>, i: nat, j: nat)
    requires IsRun(states, actions) && i < j < |actions|
    requires Elects(states[i], actions[i]) && Elects(states[j], actions[j])
    ensures Term(states[i + 1].stored) < Term(states[j + 1].stored)
  {
    RunGrows(states, actions, i + 1, j);
    TermMovesByElection(states, actions, j);
  }

  /** Whatever the clocks, no two pods ever hold the same epoch, and an epoch held is the term of an
      election its holder won. */
  lemma EpochsExclusive(states: seq<Sys>, actions: seq<Action>, i: nat, p: string, q: string)
    requires IsRun(states, actions) && i < |states|
    requires p in states[i].pods && q in states[i].pods && p != q
    requires states[i].pods[p].epoch != 0
    ensures states[i].pods[p].epoch != states[i].pods[q].epoch
    ensures WonBy(states[i], states[i].pods[p].epoch, p) && states[i].pods[p].epoch <= Term(states[i].stored)
  {
    RunKeeps(states, actions, i);
    assert PodInv(states[i], p, states[i].pods[p]) && PodInv(states[i], q, states[i].pods[q]);
  }

  /** `won` is what it says: an entry is the initial holder's or was put there by the election of its
      pod at its term. */
  lemma {:induction false} WonMeansElected(states: seq<Sys>, actions: seq<Action>, i: nat, term: nat) returns (k: nat)
    requires IsRun(states, actions) && i < |states| && term in states[i].won && term !in states[0].won
    ensures k < i && Elects(states[k], actions[k]) && actions[k].pod == states[i].won[term]
    ensures Term(states[k + 1].stored) == term
  {
    if term in states[i - 1].won {
      k := WonMeansElected(states, actions, i - 1, term);
      RunGrows(states, actions, i - 1, i);
    } else {
      k := i - 1;
    }
  }

  // ----- fencing -----

  /** A fence that passes compared equal to the term its own read found, and its pod is the one
      elected at that term. */
  lemma PassedWasElected(states: seq<Sys>, actions: seq<Action>, i: nat)
    requires IsRun(states, actions) && i < |actions|
    requires var (s, a) := (states[i], actions[i]);
             a.FenceCompare? && MayWrite(s.pods[a.pod].epoch, s.pods[a.pod].checks[a.task].view)
    ensures var (s, a) := (states[i], actions[i]);
            var k := s.pods[a.pod].checks[a.task].k;
            k < |s.found| && s.pods[a.pod].epoch == s.found[k] >= 1 && WonBy(s, s.found[k], a.pod)
  {
    RunKeeps(states, actions, i);
    var s, a := states[i], actions[i];
    var p := s.pods[a.pod];
    assert PodInv(s, a.pod, p);
    assert CheckInv(s, p.checks[a.task]);
  }

  /** Passes ordered by the lease reads they passed on have non-decreasing terms, and two passes at
      one term are by one pod. So once some fence has read a newer term, nothing that reads after it
      passes under an older one. */
  lemma PassesOrdered(states: seq<Sys>, actions: seq<Action>, i: nat, x: Pass, y: Pass)
    requires IsRun(states, actions) && i < |states|
    requires x in states[i].passes && y in states[i].passes && x.k <= y.k
    ensures y.k < |states[i].found| && states[i].found[x.k] <= states[i].found[y.k]
    ensures states[i].found[x.k] == states[i].found[y.k] ==> x.pod == y.pod
  {
    RunKeeps(states, actions, i);
  }

  lemma SilentStep(s: Sys, a: Action, n: string)
    requires Inv(s) && Enabled(s, a) && InRange(s, a)
    requires n in s.pods && !s.pods[n].exit.Running? && a != Crash(n)
    ensures n in Do(s, a).pods && !Do(s, a).pods[n].exit.Running?
    ensures a.pod == n ==> Do(s, a).passes == s.passes
  {
    hide Settle, Put, Proposal, Decide, Blanked, Term, Elects, Answer, LooseInv, StoreInv, ReadsInv, WonBy, Copy;
    assert PodInv(s, n, s.pods[n]);
    if a.FenceCompare? && a.pod == n {
      assert CheckInv(s, s.pods[n].checks[a.task]);
    }
  }

  /** Once a pod has begun to shut down it holds no epoch and passes no fence until it boots again,
      whatever its own passes in flight do; its hand-back never moves the term. */
  lemma {:induction false} ShutdownSilences(states: seq<Sys>, actions: seq<Action>, i: nat, j: nat, n: string)
    requires IsRun(states, actions) && i <= j < |states|
    requires n in states[i].pods && !states[i].pods[n].exit.Running?
    requires forall k :: i <= k < j ==> actions[k] != Crash(n)
    ensures n in states[j].pods && !states[j].pods[n].exit.Running? && states[j].pods[n].epoch == 0
    ensures forall x :: x in states[j].passes && x.pod == n ==> x in states[i].passes
    decreases j
  {
    hide Do, Enabled, InRange, Init;
    RunKeeps(states, actions, j);
    if i < j {
      ShutdownSilences(states, actions, i, j - 1, n);
      RunKeeps(states, actions, j - 1);
      SilentStep(states[j - 1], actions[j - 1], n);
      PassedBy(states[j - 1], actions[j - 1]);
    }
    assert PodInv(states[j], n, states[j].pods[n]);
  }

  /** A step adds no pass but its own pod's. */
  lemma PassedBy(s: Sys, a: Action)
    requires Enabled(s, a)
    ensures forall x :: x in Do(s, a).passes ==> x in s.passes || x.pod == a.pod
  {
    hide Settle, Put, Proposal, Decide, Blanked;
  }
}
