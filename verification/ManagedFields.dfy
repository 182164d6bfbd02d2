/** The JSON patch that takes the agent's entries out of `managedFields`, and what an API server does
    with it (RFC 6902: `test` in section 4.6, `remove` in section 4.2, all or nothing in section 5). */
module ManagedFields {
  import opened Wrappers

  const AGENT := "kloudlite-agent"

  /** `fields` stands for the rest of an entry: operation, time, the fields owned. */
  datatype Entry = Entry(manager: Option<string>, fields: string)
  datatype Op = Test(index: nat, manager: string) | Remove(index: nat)

  predicate IsAgent(e: Entry) {
    e.manager == Some(AGENT)
  }

  /** Highest index first, each removal behind a test of the manager at that index. */
  function ReleaseOps(entries: seq<Entry>): (ops: seq<Op>) {
    if entries == [] then []
    else
      var i := |entries| - 1;
      (if IsAgent(entries[i]) then [Test(i, AGENT), Remove(i)] else []) + ReleaseOps(entries[..i])
  }

  /** One operation on the stored list; None when it fails. */
  function ApplyOp(op: Op, list: seq<Entry>): Option<seq<Entry>> {
    match op
    case Test(i, m) => if i < |list| && list[i].manager == Some(m) then Some(list) else None
    case Remove(i) => if i < |list| then Some(list[..i] + list[i + 1..]) else None
  }

  /** A whole patch: the first failing operation fails it all. */
  function ApplyPatch(ops: seq<Op>, list: seq<Entry>): Option<seq<Entry>> {
    if ops == [] then Some(list)
    else match ApplyOp(ops[0], list)
      case None => None
      case Some(next) => ApplyPatch(ops[1..], next)
  }

  /** What the server stores afterwards. */
  function Patched(ops: seq<Op>, list: seq<Entry>): seq<Entry> {
    match ApplyPatch(ops, list)
    case None => list
    case Some(next) => next
  }

  function WithoutAgent(list: seq<Entry>): seq<Entry> {
    if list == [] then []
    else
      var i := |list| - 1;
      WithoutAgent(list[..i]) + (if IsAgent(list[i]) then [] else [list[i]])
  }

  lemma {:induction false} WithoutAgentConcat(a: seq<Entry>, b: seq<Entry>)
    ensures WithoutAgent(a + b) == WithoutAgent(a) + WithoutAgent(b)
    decreases |b|
  {
    hide IsAgent;
    if b == [] {
      assert a + b == a;
    } else {
      var i, c := |b| - 1, a + b;
      WithoutAgentConcat(a, b[..i]);
      assert c[..|c| - 1] == a + b[..i] && c[|c| - 1] == b[i];
    }
  }

  lemma AppendAgent(front: seq<Entry>, e: Entry)
    requires IsAgent(e)
    ensures WithoutAgent(front + [e]) == WithoutAgent(front)
  {
    assert (front + [e])[..|front|] == front;
  }

  /** Removing the agent's entry at `i` changes nothing else. */
  lemma RemoveAgentAt(list: seq<Entry>, i: nat)
    requires i < |list| && IsAgent(list[i])
    ensures WithoutAgent(list[..i] + list[i + 1..]) == WithoutAgent(list)
  {
    hide WithoutAgent, IsAgent;
    AppendAgent(list[..i], list[i]);
    WithoutAgentConcat(list[..i], list[i + 1..]);
    WithoutAgentConcat(list[..i] + [list[i]], list[i + 1..]);
    assert list[..i] + [list[i]] + list[i + 1..] == list;
  }

  /** The patch built from a list first takes out the agent's entry at the last index, if it is one
      there and in the stored list too, and fails if only there. */
  lemma LastEntry(entries: seq<Entry>, stored: seq<Entry>)
    requires entries != []
    ensures var i := |entries| - 1;
            var ops := ReleaseOps(entries[..i]);
            ApplyPatch(ReleaseOps(entries), stored) ==
            if !IsAgent(entries[i]) then ApplyPatch(ops, stored)
            else if i < |stored| && IsAgent(stored[i]) then ApplyPatch(ops, stored[..i] + stored[i + 1..])
            else None
  {
    var i := |entries| - 1;
    var ops := ReleaseOps(entries[..i]);
    if IsAgent(entries[i]) {
      assert ReleaseOps(entries) == [Test(i, AGENT)] + ([Remove(i)] + ops);
      assert ReleaseOps(entries)[1..] == [Remove(i)] + ops;
      assert ReleaseOps(entries)[1..][1..] == ops;
    } else {
      assert ReleaseOps(entries) == ops;
    }
  }

  /** On a list that starts with the one the patch was built from, every test passes and the rest of
      the list is not touched. */
  lemma {:induction false} ReleasePrefix(entries: seq<Entry>, rest: seq<Entry>)
    ensures ApplyPatch(ReleaseOps(entries), entries + rest) == Some(WithoutAgent(entries) + rest)
  {
    if entries != [] {
      var i := |entries| - 1;
      var front, stored := entries[..i], entries + rest;
      LastEntry(entries, stored);
      WithoutLast(entries);
      hide IsAgent, ReleaseOps, ApplyPatch, WithoutAgent;
      if IsAgent(entries[i]) {
        ReleasePrefix(front, rest);
        assert stored[..i] + stored[i + 1..] == front + rest;
        assert WithoutAgent(front) + [] == WithoutAgent(front);
      } else {
        var last := [entries[i]];
        ReleasePrefix(front, last + rest);
        assert stored == front + (last + rest);
        assert WithoutAgent(front) + (last + rest) == WithoutAgent(entries) + rest;
      }
    } else {
      assert entries + rest == rest && WithoutAgent(entries) + rest == rest;
    }
  }

  lemma WithoutLast(list: seq<Entry>)
    requires list != []
    ensures var i := |list| - 1;
            WithoutAgent(list) == WithoutAgent(list[..i]) + (if IsAgent(list[i]) then [] else [list[i]])
  {
  }

  /** What is left without the agent: an entry stays exactly if it names another manager or none, and what is
      left of two lists in a row is what is left of each. So the other entries stay, in order. */
  lemma WithoutAgentIsRest(e: Entry, a: seq<Entry>, b: seq<Entry>)
    ensures WithoutAgent([e]) == if e.manager == Some("kloudlite-agent") then [] else [e]
    ensures WithoutAgent(a + b) == WithoutAgent(a) + WithoutAgent(b)
    ensures e in WithoutAgent(a) <==> e in a && e.manager != Some("kloudlite-agent")
  {
    WithoutAgentConcat(a, b);
    assert [e][..0] == [];
    StaysExactly(e, a);
  }

  lemma {:induction false} StaysExactly(e: Entry, a: seq<Entry>)
    ensures e in WithoutAgent(a) <==> e in a && e.manager != Some("kloudlite-agent")
  {
    if a != [] {
      var i := |a| - 1;
      StaysExactly(e, a[..i]);
      assert a == a[..i] + [a[i]];
    }
  }

  /** Applied to the list it was built from, the patch leaves exactly the other managers' entries, in
      order; and there is nothing to send exactly when the agent owns nothing. */
  lemma ReleaseExact(entries: seq<Entry>)
    ensures Patched(ReleaseOps(entries), entries) == WithoutAgent(entries)
    ensures ReleaseOps(entries) == [] <==> WithoutAgent(entries) == entries
  {
    ReleasePrefix(entries, []);
    assert entries + [] == entries && WithoutAgent(entries) + [] == WithoutAgent(entries);
    CountOps(entries);
  }

  lemma {:induction false} CountOps(entries: seq<Entry>)
    ensures |ReleaseOps(entries)| == 2 * (|entries| - |WithoutAgent(entries)|)
    ensures |WithoutAgent(entries)| == |entries| ==> WithoutAgent(entries) == entries
  {
    hide IsAgent;
    if entries != [] {
      var i := |entries| - 1;
      CountOps(entries[..i]);
      assert entries == entries[..i] + [entries[i]];
    }
  }

  /** Applied to any other stored list, the patch fails and changes nothing, or removes entries of
      the agent only: one for each pair it holds. */
  lemma {:induction false} ReleaseSafe(entries: seq<Entry>, stored: seq<Entry>)
    ensures ApplyPatch(ReleaseOps(entries), stored).None? ==> Patched(ReleaseOps(entries), stored) == stored
    ensures WithoutAgent(Patched(ReleaseOps(entries), stored)) == WithoutAgent(stored)
    ensures ApplyPatch(ReleaseOps(entries), stored).Some? ==>
              2 * (|stored| - |Patched(ReleaseOps(entries), stored)|) == |ReleaseOps(entries)|
  {
    if entries != [] {
      var i := |entries| - 1;
      LastEntry(entries, stored);
      if IsAgent(entries[i]) {
        if i < |stored| && IsAgent(stored[i]) {
          RemoveAgentAt(stored, i);
          ReleaseSafe(entries[..i], stored[..i] + stored[i + 1..]);
        }
      } else {
        assert ReleaseOps(entries) == ReleaseOps(entries[..i]);
        ReleaseSafe(entries[..i], stored);
      }
    }
  }
}
