/** `ensure` and `drop_object`: server-side apply behind a skip-if-unchanged memory. */
module ApplyCache {
  import opened Wrappers

  /** How long an apply is trusted, in seconds. */
  const APPLY_RESYNC: nat := 600

  /** What was last applied under a key, and when; the body stands for its hash. */
  datatype Stamp<B> = Stamp(body: B, at: nat)
  /** The cluster's objects and this process's memory of them. */
  datatype Store<K(==), B> = Store(objects: map<K, B>, applied: map<K, Stamp<B>>)

  /** The two requests one `ensure` may make: the apply, then the release of the agent's entries. */
  datatype Requests = Requests(apply: Net, release: Net)

  predicate Fresh<K, B(==)>(s: Store<K, B>, key: K, body: B, now: nat) {
    key in s.applied && s.applied[key].body == body && now - s.applied[key].at < APPLY_RESYNC
  }

  function Ensured<K, B(==)>(s: Store<K, B>, key: K, body: B, now: nat, r: Requests): (Store<K, B>, bool) {
    if Fresh(s, key, body, now) then (s, true)
    else if r.apply.Refused? then (s, false)
    else
      var landed := s.(objects := s.objects[key := body]);
      if r.apply.ReplyLost? || !r.release.Reliable? then (landed, false)
      else (landed.(applied := s.applied[key := Stamp(body, now)]), true)
  }

  function Dropped<K, B>(s: Store<K, B>, key: K, net: Net): (Store<K, B>, bool) {
    var forgot := s.(applied := s.applied - {key});
    (if net.Refused? then forgot else forgot.(objects := s.objects - {key}), net.Reliable?)
  }

  // ----- the code -----

  class Applier<K(==), B(==)> {
    var objects: map<K, B>
    var applied: map<K, Stamp<B>>

    constructor (objects: map<K, B>)
      ensures this.objects == objects && applied == map[]
    {
      this.objects, applied := objects, map[];
    }

    function State(): Store<K, B>
      reads this
    {
      Store(objects, applied)
    }

    method Ensure(key: K, body: B, now: nat, r: Requests) returns (ok: bool)
      modifies this
      ensures (State(), ok) == Ensured(old(State()), key, body, now, r)
    {
      if key in applied && applied[key].body == body && now - applied[key].at < APPLY_RESYNC {
        return true;
      }
      if r.apply.Refused? {
        return false;
      }
      objects := objects[key := body];
      if r.apply.ReplyLost? || !r.release.Reliable? {
        return false;
      }
      applied := applied[key := Stamp(body, now)];
      return true;
    }

    method DropObject(key: K, net: Net) returns (ok: bool)
      modifies this
      ensures (State(), ok) == Dropped(old(State()), key, net)
    {
      applied := applied - {key};
      if !net.Refused? {
        objects := objects - {key};
      }
      ok := net.Reliable?;
    }
  }

  // ----- the memory is the truth -----

  predicate Coherent<K(!new), B(==)>(s: Store<K, B>) {
    forall k :: k in s.applied ==> k in s.objects && s.objects[k] == s.applied[k].body
  }

  /** The apply takes effect and the call still fails: its reply is lost, or the release after it is
      not answered well. */
  predicate LandsAndFails(r: Requests) {
    !r.apply.Refused? && (r.apply.ReplyLost? || !r.release.Reliable?)
  }

  /** One `ensure` keeps the memory coherent exactly unless it sends an apply that lands and fails while
      the memory holds another body under the key. */
  lemma EnsureCoherentIff<K(!new), B>(s: Store<K, B>, key: K, body: B, now: nat, r: Requests)
    requires Coherent(s)
    ensures Coherent(Ensured(s, key, body, now, r).0) <==>
            !(!Fresh(s, key, body, now) && LandsAndFails(r) && key in s.applied && s.applied[key].body != body)
  {
    var t := Ensured(s, key, body, now, r).0;
    if key in s.applied && t.objects == s.objects[key := body] && t.applied == s.applied &&
        s.applied[key].body != body {
      assert t.objects[key] != t.applied[key].body;
    }
  }

  /** What a call does, over a true memory. It succeeds exactly when the body is remembered as applied less
      than the bound ago, or both its requests work; a success leaves the object equal to the body, and a
      refused apply leaves everything. Afterwards the body is remembered as applied now, unless it was
      skipped or failed. */
  lemma EnsureMeans<K(!new), B>(s: Store<K, B>, key: K, body: B, now: nat, r: Requests)
    requires Coherent(s)
    ensures var (t, ok) := Ensured(s, key, body, now, r);
            var skipped := key in s.applied && s.applied[key].body == body && now < s.applied[key].at + 600;
            && (ok <==> skipped || (r.apply.Reliable? && r.release.Reliable?))
            && (ok ==> key in t.objects && t.objects[key] == body)
            && (skipped || r.apply.Refused? ==> t == s)
            && (ok && !skipped ==> t.applied == s.applied[key := Stamp(body, now)])
            && (!ok ==> t.applied == s.applied)
            && (forall k :: k != key ==> (k in t.objects <==> k in s.objects) && (k in s.objects ==>
                t.objects[k] == s.objects[k]))
  {
  }

  /** A delete forgets the object first, whatever becomes of it, and takes no other. */
  lemma DropMeans<K(!new), B>(s: Store<K, B>, key: K, net: Net)
    ensures var (t, ok) := Dropped(s, key, net);
            && t.applied == s.applied - {key} && (ok <==> net.Reliable?)
            && t.objects == if net.Refused? then s.objects else s.objects - {key}
  {
  }

  lemma DropCoherent<K(!new), B>(s: Store<K, B>, key: K, net: Net)
    requires Coherent(s)
    ensures Coherent(Dropped(s, key, net).0)
  {
  }

  /** The exception is real, and a sole writer meets it: an apply whose reply is lost (or whose release
      fails) leaves the older body remembered, and returning to that body within the resync bound is
      then skipped, so the success it reports is not true of the object. */
  lemma StaleAfterFailedApply<K(!new), B>(key: K, old_: B, new_: B, r: Requests)
    requires old_ != new_ && LandsAndFails(r)
    ensures var s0 := Store(map[], map[]);
            var (s1, ok1) := Ensured(s0, key, old_, 0, Requests(Reliable, Reliable));
            var (s2, ok2) := Ensured(s1, key, new_, 10, r);
            var (s3, ok3) := Ensured(s2, key, old_, 20, Requests(Reliable, Reliable));
            ok1 && !ok2 && ok3 && s3.objects[key] == new_
  {
    var s0: Store<K, B> := Store(map[], map[]);
    var s1 := Ensured(s0, key, old_, 0, Requests(Reliable, Reliable)).0;
    assert s1.applied[key] == Stamp(old_, 0);
    var s2 := Ensured(s1, key, new_, 10, r).0;
    assert s2.objects[key] == new_ && s2.applied == s1.applied;
    assert Fresh(s2, key, old_, 20);
  }

  // ----- the cache refines always applying -----

  datatype Op<K, B> = Apply(key: K, body: B, now: nat, r: Requests) | Delete(key: K, net: Net)

  function Perform<K, B(==)>(s: Store<K, B>, op: Op<K, B>): (Store<K, B>, bool) {
    match op
    case Apply(k, b, now, r) => Ensured(s, k, b, now, r)
    case Delete(k, net) => Dropped(s, k, net)
  }

  /** The reference without a memory: a call that succeeds or takes effect writes, any other does not. */
  function Reference<K, B>(objects: map<K, B>, op: Op<K, B>, ok: bool): map<K, B> {
    match op
    case Apply(k, b, _, r) => if ok || LandsAndFails(r) then objects[k := b] else objects
    case Delete(k, net) => if net.Refused? then objects else objects - {k}
  }

  /** The call sends an apply that lands and fails over another remembered body. */
  predicate Misleads<K, B(==)>(s: Store<K, B>, op: Op<K, B>) {
    && op.Apply? && !Fresh(s, op.key, op.body, op.now) && LandsAndFails(op.r)
    && op.key in s.applied && s.applied[op.key].body != op.body
  }

  function PerformAll<K, B(==)>(s: Store<K, B>, ops: seq<Op<K, B>>): Store<K, B>
    decreases |ops|
  {
    if ops == [] then s else PerformAll(Perform(s, ops[0]).0, ops[1..])
  }

  function ReferenceAll<K, B(==)>(s: Store<K, B>, objects: map<K, B>, ops: seq<Op<K, B>>): map<K, B>
    decreases |ops|
  {
    if ops == [] then objects
    else
      var (t, ok) := Perform(s, ops[0]);
      ReferenceAll(t, Reference(objects, ops[0], ok), ops[1..])
  }

  /** The memory is true before the run and after each of its calls. */
  predicate AlwaysCoherent<K(!new), B(==)>(s: Store<K, B>, ops: seq<Op<K, B>>)
    decreases |ops|
  {
    Coherent(s) && (ops == [] || AlwaysCoherent(Perform(s, ops[0]).0, ops[1..]))
  }

  predicate NoneMisleads<K, B(==)>(s: Store<K, B>, ops: seq<Op<K, B>>)
    decreases |ops|
  {
    ops == [] || (!Misleads(s, ops[0]) && NoneMisleads(Perform(s, ops[0]).0, ops[1..]))
  }

  lemma StepCoherentIff<K(!new), B>(s: Store<K, B>, op: Op<K, B>)
    requires Coherent(s)
    ensures Coherent(Perform(s, op).0) <==> !Misleads(s, op)
  {
    match op
    case Apply(k, b, now, r) => EnsureCoherentIff(s, k, b, now, r);
    case Delete(k, net) => DropCoherent(s, k, net);
  }

  /** Over any run of one process as sole writer, the memory stays true throughout exactly when no call
      of it misleads. */
  lemma {:induction false} CoherentRunIff<K(!new), B>(s: Store<K, B>, ops: seq<Op<K, B>>)
    requires Coherent(s)
    ensures AlwaysCoherent(s, ops) <==> NoneMisleads(s, ops)
    decreases |ops|
  {
    hide Perform, Misleads, Coherent;
    if ops != [] {
      StepCoherentIff(s, ops[0]);
      if !Misleads(s, ops[0]) {
        CoherentRunIff(Perform(s, ops[0]).0, ops[1..]);
      } else {
        CoherentFirst(Perform(s, ops[0]).0, ops[1..]);
      }
    }
  }

  lemma CoherentFirst<K(!new), B>(s: Store<K, B>, ops: seq<Op<K, B>>)
    ensures AlwaysCoherent(s, ops) ==> Coherent(s)
  {
  }

  /** And then skipping leaves the cluster as if every call that succeeded or took effect had written,
      however the calls succeed, fail, lose their replies or age. */
  lemma {:induction false} RefinesAlwaysApply<K(!new), B>(s: Store<K, B>, ops: seq<Op<K, B>>)
    requires Coherent(s) && NoneMisleads(s, ops)
    ensures PerformAll(s, ops).objects == ReferenceAll(s, s.objects, ops)
    decreases |ops|
  {
    if ops != [] {
      var (t, ok) := Perform(s, ops[0]);
      StepCoherentIff(s, ops[0]);
      assert t.objects == Reference(s.objects, ops[0], ok) by {
        if ops[0].Apply? && Fresh(s, ops[0].key, ops[0].body, ops[0].now) {
          assert s.objects[ops[0].key := ops[0].body] == s.objects;
        }
      }
      RefinesAlwaysApply(t, ops[1..]);
    }
  }

  /** A drop, even one that errors, and an entry older than the bound are never trusted: the next
      `ensure` sends its apply, so with the request refused it cannot succeed. */
  lemma NeverTrusted<K(!new), B>(s: Store<K, B>, key: K, body: B, net: Net, now: nat)
    ensures !Ensured(Dropped(s, key, net).0, key, body, now, Requests(Refused, Reliable)).1
    ensures key in s.applied && now >= s.applied[key].at + APPLY_RESYNC ==>
              !Ensured(s, key, body, now, Requests(Refused, Reliable)).1
  {
    assert key !in Dropped(s, key, net).0.applied;
  }
}
