/** The controller's lease: one versioned object, the decision read off it, and the compare-and-swap
    writes. Every function here is one atomic step; Election.dfy interleaves them. */
module Lease {
  import opened Wrappers

  const TTL_MS: nat := 15000
  const I32_MAX: nat := 0x7fff_ffff
  const U32_MAX: nat := 0xffff_ffff
  const U64_MAX: nat := 0xffff_ffff_ffff_ffff

  type I32 = x: int | -0x8000_0000 <= x <= 0x7fff_ffff
  type U32 = x: nat | x <= 0xffff_ffff
  type U64 = x: nat | x <= 0xffff_ffff_ffff_ffff
  type I64 = x: int | -0x8000_0000_0000_0000 <= x <= 0x7fff_ffff_ffff_ffff

  /** The Lease spec as stored: every field may be absent, the term is a signed 32-bit field. */
  datatype Spec = Spec(holder: Option<string>, transitions: Option<I32>, renewed: Option<I64>, acquired: Option<I64>)
  datatype Lease = Lease(version: nat, spec: Option<Spec>)

  datatype View = View(holder: string, transitions: U32, renewedMs: U64)
  datatype Step = Acquire(epoch: U32) | Renew(epoch: U32) | Wait

  function Max0(x: int): nat {
    if x < 0 then 0 else x
  }

  function ViewOf(l: Lease): Option<View> {
    if l.spec.None? then None
    else
      var s := l.spec.value;
      Some(View(if s.holder.Some? then s.holder.value else "",
                if s.transitions.Some? then Max0(s.transitions.value) else 0,
                if s.renewed.Some? then Max0(s.renewed.value) else 0))
  }

  function Seen(stored: Option<Lease>): Option<View> {
    if stored.None? then None else ViewOf(stored.value)
  }

  /** The term in force: 0 before anybody was elected. */
  function Term(stored: Option<Lease>): U32 {
    match Seen(stored)
    case None => 0
    case Some(v) => v.transitions
  }

  function Decide(nowMs: U64, me: string, cur: Option<View>): Step {
    match cur
    case None => Acquire(1)
    case Some(c) =>
      var expiry: U64 := if c.renewedMs + TTL_MS > U64_MAX then U64_MAX else c.renewedMs + TTL_MS;
      if nowMs > expiry then Acquire(if c.transitions == U32_MAX then U32_MAX else c.transitions + 1)
      else if c.holder == me then Renew(c.transitions)
      else Wait
  }

  function MayWrite(epoch: U32, cur: Option<View>): bool {
    cur.Some? && cur.value.transitions == epoch
  }

  /** `as i32`: the high half of the range wraps to negative. */
  function AsI32(x: U32): I32 {
    if x <= I32_MAX then x else x - 0x1_0000_0000
  }

  /** The spec one step writes, or None when it writes nothing. */
  function Proposal(me: string, step: Step, cur: Option<Lease>, now: I64): Option<Spec> {
    match step
    case Wait => None
    case Acquire(e) => Some(Spec(Some(me), Some(AsI32(e)), Some(now), Some(now)))
    case Renew(e) =>
      var acquired := if cur.Some? && cur.value.spec.Some? then cur.value.spec.value.acquired else None;
      Some(Spec(Some(me), Some(AsI32(e)), Some(now), acquired))
  }

  datatype Reply = Landed(lease: Lease) | Conflict | Failed

  /** Replace pinned to the version read, or create when nothing was read. */
  function Put(stored: Option<Lease>, cur: Option<Lease>, spec: Option<Spec>): Reply {
    match (stored, cur)
    case (None, None) => Landed(Lease(1, spec))
    case (Some(_), None) => Conflict
    case (None, Some(_)) => Failed
    case (Some(s), Some(c)) => if s.version == c.version then Landed(Lease(s.version + 1, spec)) else Conflict
  }

  function Stored(stored: Option<Lease>, reply: Reply): Option<Lease> {
    if reply.Landed? then Some(reply.lease) else stored
  }

  /** The epoch a pod holds after its write is answered. */
  function Settle(me: string, reply: Reply): U32 {
    if reply.Landed? && ViewOf(reply.lease).Some? && ViewOf(reply.lease).value.holder == me
    then ViewOf(reply.lease).value.transitions
    else 0
  }

  /** The object a shutting-down pod writes: its own holder and renew time blanked, the term kept. */
  function Blanked(me: string, cur: Lease): Option<Option<Spec>> {
    if ViewOf(cur).Some? && ViewOf(cur).value.holder != me then None
    else if cur.spec.None? then Some(None)
    else Some(Some(cur.spec.value.(holder := Some(""), renewed := None)))
  }

  /** One whole beat with nobody in between: the stored object and the pod's epoch afterwards. */
  function Tick(stored: Option<Lease>, me: string, now: I64, readable: bool, net: Net): (Option<Lease>, U32) {
    if !readable then (stored, 0)
    else
      match Proposal(me, Decide(Max0(now), me, Seen(stored)), stored, now)
      case None => (stored, 0)
      case Some(spec) =>
        var reply := if net.Refused? then Failed else Put(stored, stored, Some(spec));
        (Stored(stored, reply), if net.ReplyLost? then 0 else Settle(me, reply))
  }

  /** A whole hand-back with nobody in between: the stored object afterwards. */
  function HandedBack(stored: Option<Lease>, me: string, readable: bool, net: Net): Option<Lease> {
    if !readable || stored.None? || net.Refused? then stored
    else
      match Blanked(me, stored.value)
      case None => stored
      case Some(spec) => Stored(stored, Put(stored, stored, spec))
  }

  // ----- the code: a shared object and a process-wide epoch -----

  class LeaseApi {
    var stored: Option<Lease>

    constructor ()
      ensures stored == None
    {
      stored := None;
    }

    method Write(cur: Option<Lease>, spec: Spec, net: Net) returns (reply: Reply)
      modifies this
      ensures var landed := if net.Refused? then Failed else Put(old(stored), cur, Some(spec));
              stored == Stored(old(stored), landed) && reply == if net.ReplyLost? then Failed else landed
    {
      if net.Refused? {
        return Failed;
      }
      reply := Put(stored, cur, Some(spec));
      stored := Stored(stored, reply);
      if net.ReplyLost? {
        reply := Failed;
      }
    }
  }

  class Ctx {
    const holder: string
    /** The term this process was elected under; 0 when it is not the leader. */
    var epoch: U32

    constructor (holder: string)
      ensures this.holder == holder && epoch == 0
    {
      this.holder := holder;
      epoch := 0;
    }

    method Promote(e: U32)
      modifies this
      ensures epoch == e
    {
      epoch := e;
    }

    method Demote()
      modifies this
      ensures epoch == 0
    {
      epoch := 0;
    }

    method TickOnce(api: LeaseApi, now: I64, readable: bool, net: Net)
      modifies this, api
      ensures (api.stored, epoch) == Tick(old(api.stored), holder, now, readable, net)
    {
      if !readable {
        Demote();
        return;
      }
      var cur := api.stored;
      var step := Decide(Max0(now), holder, Seen(cur));
      match Proposal(holder, step, cur, now)
      case None => Demote();
      case Some(spec) =>
        var reply := api.Write(cur, spec, net);
        // Term 0 is the "never elected" sentinel, so a lease echoed at 0 is refused.
        if reply.Landed? && ViewOf(reply.lease).Some? && ViewOf(reply.lease).value.holder == holder
           && ViewOf(reply.lease).value.transitions != 0 {
          Promote(ViewOf(reply.lease).value.transitions);
        } else {
          Demote();
        }
    }

    /** The write fence. It passes exactly for a leader whose term is the one stored; any refusal
        but the first demotes. */
    method Fence(api: LeaseApi, readable: bool) returns (ok: bool)
      modifies this
      ensures ok <==> old(epoch) != 0 && readable &&
                      Seen(api.stored).Some? && Seen(api.stored).value.transitions == old(epoch)
      ensures epoch == if ok then old(epoch) else 0
    {
      if epoch == 0 {
        return false;
      }
      if !readable {
        Demote();
        return false;
      }
      ok := MayWrite(epoch, Seen(api.stored));
      if !ok {
        Demote();
      }
    }

    /** Shutdown: the epoch is dropped before the lease is handed back. */
    method HandBack(api: LeaseApi, readable: bool, net: Net)
      modifies this, api
      ensures epoch == 0 && api.stored == HandedBack(old(api.stored), holder, readable, net)
    {
      Demote();
      if !readable || api.stored.None? {
        return;
      }
      var cur := api.stored.value;
      match Blanked(holder, cur)
      case None =>
      case Some(spec) =>
        if !net.Refused? {
          api.stored := Stored(api.stored, Put(api.stored, Some(cur), spec));
        }
    }
  }

  // ----- what one beat does -----

  /** A lease somebody else holds is left alone, and this pod follows, for as long as the holder's TTL has
      not run out by this pod's clock. */
  lemma LiveLeaseIsLeft(stored: Option<Lease>, me: string, now: I64, net: Net)
    requires Seen(stored).Some? && Seen(stored).value.holder != me
    requires Max0(now) <= Seen(stored).value.renewedMs + TTL_MS
    ensures Tick(stored, me, now, true, net) == (stored, 0)
  {
  }

  /** A pod that cannot read the lease follows, and writes nothing. */
  lemma BlindBeatFollows(stored: Option<Lease>, me: string, now: I64, net: Net)
    ensures Tick(stored, me, now, false, net) == (stored, 0)
  {
  }

  /** One's own live lease is renewed: same term, same acquire time, renewed now; and the pod leads that
      term if it hears of it. A refused write leaves the lease and ends the leadership. */
  lemma OwnLeaseIsRenewed(stored: Option<Lease>, me: string, now: I64, net: Net)
    requires Seen(stored).Some? && Seen(stored).value.holder == me && Term(stored) <= I32_MAX
    requires Max0(now) <= Seen(stored).value.renewedMs + TTL_MS
    ensures var (t, epoch) := Tick(stored, me, now, true, net);
            && (net.Refused? ==> (t, epoch) == (stored, 0))
            && (!net.Refused? ==> Seen(t) == Some(View(me, Term(stored), Max0(now))) &&
                                  t.value.spec.value.acquired == stored.value.spec.value.acquired)
            && epoch == if net.Reliable? then Term(stored) else 0
  {
  }

  /** A lease that is absent, has no spec or is past its TTL is taken at the next term, whoever held it. */
  lemma LapsedLeaseIsTaken(stored: Option<Lease>, me: string, now: I64, net: Net)
    requires Term(stored) < I32_MAX
    requires Seen(stored).Some? ==> Max0(now) > Seen(stored).value.renewedMs + TTL_MS
    ensures var (t, epoch) := Tick(stored, me, now, true, net);
            && (net.Refused? ==> (t, epoch) == (stored, 0))
            && (!net.Refused? ==> Seen(t) == Some(View(me, Term(stored) + 1, Max0(now))) &&
                                  t.value.spec.value.acquired == Some(now))
            && epoch == if net.Reliable? then Term(stored) + 1 else 0
  {
  }

  /** What the stored object is read as: absent fields are empty and zero, negative ones zero. */
  lemma SpecIsSeen(version: nat, s: Spec)
    ensures Seen(Some(Lease(version, None))) == None && Seen(None) == None
    ensures Seen(Some(Lease(version, Some(s)))) ==
            Some(View(if s.holder.Some? then s.holder.value else "",
                      if s.transitions.Some? && s.transitions.value > 0 then s.transitions.value else 0,
                      if s.renewed.Some? && s.renewed.value > 0 then s.renewed.value else 0))
  {
  }

  // ----- what one step does to the term -----

  /** A landed acquire raises the term by one exactly while the stored term is below the signed
      32-bit maximum: at the maximum the cast wraps and the term falls back to 0. */
  lemma AcquireRaisesByOne(stored: Option<Lease>, me: string, now: I64, clock: U64)
    requires Decide(clock, me, Seen(stored)).Acquire?
    requires Term(stored) <= I32_MAX
    ensures var reply := Put(stored, stored, Proposal(me, Decide(clock, me, Seen(stored)), stored, now));
            reply.Landed? &&
            (Term(Stored(stored, reply)) == Term(stored) + 1 <==> Term(stored) < I32_MAX) &&
            (Term(stored) == I32_MAX ==> Term(Stored(stored, reply)) == 0)
  {
  }

  /** A term of zero held by this pod is renewed at zero, never advanced, as long as the beat comes
      within the TTL of the last one: the pod leads after the beat only if the lease had expired. */
  lemma EpochZeroBeat(stored: Option<Lease>, me: string, now: I64)
    requires Seen(stored).Some? && Seen(stored).value.holder == me && Term(stored) == 0
    ensures var (after, epoch) := Tick(stored, me, now, true, Reliable);
            Seen(after) == Some(View(me, epoch, Max0(now))) &&
            (epoch != 0 <==> Max0(now) > Seen(stored).value.renewedMs + TTL_MS)
  {
  }

  /** Handing back never moves the term and touches only this pod's own lease (or one with no spec): it
      leaves either what was there or the same term with nobody holding it, expired for every clock past
      the TTL, so that the next beat of any pod acquires the next term. */
  lemma HandBackFreesTheTerm(stored: Option<Lease>, me: string, readable: bool, net: Net)
    ensures var after := HandedBack(stored, me, readable, net);
            && Term(after) == Term(stored)
            && (Seen(after) == Seen(stored) || (Seen(stored).Some? && Seen(stored).value.holder == me
                                                && Seen(after) == Some(View("", Term(stored), 0))))
    ensures (readable && !net.Refused? && Seen(stored).Some? && Seen(stored).value.holder == me
             && Term(stored) < U32_MAX) ==>
      forall now: U64, other: string :: now > TTL_MS ==>
        Decide(now, other, Seen(HandedBack(stored, me, readable, net))) == Acquire(Term(stored) + 1)
  {
  }

  predicate WithinTtl(last: nat, beats: seq<I64>)
    decreases |beats|
  {
    beats == [] || (Max0(beats[0]) <= last + TTL_MS && WithinTtl(Max0(beats[0]), beats[1..]))
  }

  function Beats(stored: Option<Lease>, me: string, beats: seq<I64>): (r: (Option<Lease>, U32))
    decreases |beats|
  {
    if beats == [] then (stored, 0)
    else
      var (after, epoch) := Tick(stored, me, beats[0], true, Reliable);
      if |beats| == 1 then (after, epoch) else Beats(after, me, beats[1..])
  }

  /** So a healthy pod that beats on time stays refused for ever. */
  lemma {:induction false} EpochZeroIsSticky(stored: Option<Lease>, me: string, beats: seq<I64>)
    requires Seen(stored).Some? && Seen(stored).value.holder == me && Term(stored) == 0
    requires WithinTtl(Seen(stored).value.renewedMs, beats)
    ensures Beats(stored, me, beats).1 == 0 && Term(Beats(stored, me, beats).0) == 0
    decreases |beats|
  {
    if beats != [] {
      EpochZeroBeat(stored, me, beats[0]);
      EpochZeroIsSticky(Tick(stored, me, beats[0], true, Reliable).0, me, beats[1..]);
    }
  }
}
