/** Session ids that open one tunnel each: a map of spent ids, swept of expired ones on every call. */
module SingleUse {
  import opened Wrappers

  type Used = map<string, nat>

  datatype Call = Call(jti: string, exp: nat, now: nat)

  function Swept(used: Used, now: nat): Used {
    map jti | jti in used && used[jti] > now :: used[jti]
  }

  class Sessions {
    var used: Used

    constructor ()
      ensures used == map[]
    {
      used := map[];
    }

    method Spend(jti: string, exp: nat, now: nat) returns (first: bool)
      modifies this
      ensures used == Swept(old(used), now)[jti := exp]
      ensures first <==> jti !in Swept(old(used), now)
    {
      used := map k | k in used && used[k] > now :: used[k];
      first := jti !in used;
      used := used[jti := exp];
    }
  }

  // ---- any sequence of calls ----

  /** The map after the first `n` calls. */
  function UsedAfter(calls: seq<Call>, n: nat): Used
    requires n <= |calls|
  {
    if n == 0 then map[]
    else Swept(UsedAfter(calls, n - 1), calls[n - 1].now)[calls[n - 1].jti := calls[n - 1].exp]
  }

  /** What call `i` answers. */
  predicate Answer(calls: seq<Call>, i: nat)
    requires i < |calls|
  {
    calls[i].jti !in Swept(UsedAfter(calls, i), calls[i].now)
  }

  /** The latest of the first `n` calls that named the id. */
  function Latest(calls: seq<Call>, n: nat, jti: string): (j: Option<nat>)
    requires n <= |calls|
    ensures j.Some? ==> j.value < n && calls[j.value].jti == jti
    ensures forall k :: (if j.Some? then j.value < k else 0 <= k) && k < n ==> calls[k].jti != jti
  {
    if n == 0 then None
    else if calls[n - 1].jti == jti then Some(n - 1)
    else Latest(calls, n - 1, jti)
  }

  /** No call after `j`, up to and without `n`, found it expired. */
  ghost predicate Unswept(calls: seq<Call>, j: nat, n: nat)
    requires j < n <= |calls|
  {
    forall k :: j < k < n ==> calls[j].exp > calls[k].now
  }

  ghost predicate Monotone(calls: seq<Call>) {
    forall i, j :: 0 <= i <= j < |calls| ==> calls[i].now <= calls[j].now
  }

  /** A token's expiry is part of it. */
  ghost predicate FixedExpiry(calls: seq<Call>) {
    forall i, j :: 0 <= i < j < |calls| && calls[i].jti == calls[j].jti ==> calls[i].exp == calls[j].exp
  }

  lemma {:induction false} EntryIsLatest(calls: seq<Call>, n: nat, jti: string)
    requires n <= |calls|
    ensures var j := Latest(calls, n, jti);
            && (jti in UsedAfter(calls, n) <==> j.Some? && Unswept(calls, j.value, n))
            && (jti in UsedAfter(calls, n) ==> UsedAfter(calls, n)[jti] == calls[j.value].exp)
  {
    if n > 0 && calls[n - 1].jti != jti {
      EntryIsLatest(calls, n - 1, jti);
      var j := Latest(calls, n - 1, jti);
      if j.Some? {
        assert Unswept(calls, j.value, n) <==> Unswept(calls, j.value, n - 1) && calls[j.value].exp > calls[n - 1].now;
      }
    }
  }

  /** Whatever the clock and the expiries do: an id is refused exactly while its latest use is still
      remembered, that is while no call since then has come after the expiry it was given. */
  lemma {:induction false} RefusedExactly(calls: seq<Call>, i: nat)
    requires i < |calls|
    ensures var j := Latest(calls, i, calls[i].jti);
            !Answer(calls, i) <==> j.Some? && Unswept(calls, j.value, i + 1)
  {
    hide UsedAfter, Latest;
    EntryIsLatest(calls, i, calls[i].jti);
    var j := Latest(calls, i, calls[i].jti);
    if j.Some? {
      assert Unswept(calls, j.value, i + 1) <==> Unswept(calls, j.value, i) && calls[j.value].exp > calls[i].now;
    }
  }

  /** On a monotone clock that is: while the expiry of its latest use has not come. */
  lemma RefusedUntilExpiry(calls: seq<Call>, i: nat)
    requires i < |calls| && Monotone(calls)
    ensures var j := Latest(calls, i, calls[i].jti);
            Answer(calls, i) <==> j.None? || calls[j.value].exp <= calls[i].now
  {
    RefusedExactly(calls, i);
  }

  /** Single use, exactly: true is answered to the first call of an id, and to every call that comes
      once its token has expired. */
  lemma TrueExactly(calls: seq<Call>, i: nat)
    requires i < |calls| && Monotone(calls) && FixedExpiry(calls)
    ensures Answer(calls, i) <==>
      calls[i].exp <= calls[i].now || forall j :: 0 <= j < i ==> calls[j].jti != calls[i].jti
  {
    RefusedUntilExpiry(calls, i);
    var j := Latest(calls, i, calls[i].jti);
    if j.Some? {
      assert calls[j.value].exp == calls[i].exp;
    }
  }

  /** So a token is good for one tunnel while its spends come before its expiry. */
  lemma OncePerId(calls: seq<Call>, i: nat, k: nat)
    requires i < k < |calls| && Monotone(calls) && FixedExpiry(calls) && calls[i].jti == calls[k].jti
    ensures Answer(calls, i) && Answer(calls, k) ==> calls[k].exp <= calls[k].now
  {
    TrueExactly(calls, k);
  }

  /** And for as many as are asked for after it: the caller checks the token before it dials and spends
      it after, so two connects may both spend late, and both are then answered true. */
  lemma LateSpendsAllPass(jti: string, exp: nat, first: nat, second: nat)
    requires exp <= first <= second
    ensures var calls := [Call(jti, exp, first), Call(jti, exp, second)]; Answer(calls, 0) && Answer(calls, 1)
  {
    var calls := [Call(jti, exp, first), Call(jti, exp, second)];
    TrueExactly(calls, 0);
    TrueExactly(calls, 1);
  }

  /** The sweep forgets only what has expired, and everything that has: after a call the map holds exactly
      the id just spent and the spent ids that have not expired, each with its expiry. */
  lemma {:induction false} HoldsTheUnexpired(calls: seq<Call>, n: nat, jti: string)
    requires 0 < n <= |calls| && Monotone(calls) && FixedExpiry(calls)
    ensures jti in UsedAfter(calls, n) <==>
      exists j :: 0 <= j < n && calls[j].jti == jti && (j == n - 1 || calls[j].exp > calls[n - 1].now)
    ensures forall j :: 0 <= j < n && calls[j].jti == jti && jti in UsedAfter(calls, n) ==>
      UsedAfter(calls, n)[jti] == calls[j].exp
  {
    EntryIsLatest(calls, n, jti);
    var last := Latest(calls, n, jti);
    if last.Some? {
      assert Unswept(calls, last.value, n) <==> last.value == n - 1 || calls[last.value].exp > calls[n - 1].now;
    }
    forall j | 0 <= j < n && calls[j].jti == jti
      ensures last.Some? && calls[j].exp == calls[last.value].exp
    {
    }
  }
}
