/** When a builder is stopped: connections counted per builder, a countdown from the last one, and one
    stop for each idle period. */
module Idle {
  import opened Wrappers

  /** `zeroSince` is set only while nothing is connected. */
  datatype Slot = Slot(open: nat, zeroSince: Option<nat>, stopped: bool)
  type Slots = map<string, Slot>

  const UNSEEN := Slot(0, None, false)

  /** A clock read earlier than the mark counts as no time at all. */
  function Since(now: nat, mark: nat): nat {
    if now >= mark then now - mark else 0
  }

  predicate IsDue(s: Slot, after: nat, now: nat) {
    s.open == 0 && !s.stopped && s.zeroSince.Some? && Since(now, s.zeroSince.value) >= after
  }

  function AfterOpened(m: Slots, slug: string): Slots {
    var s := if slug in m then m[slug] else UNSEEN;
    m[slug := Slot(s.open + 1, None, false)]
  }

  function AfterClosed(m: Slots, slug: string, now: nat): Slots {
    if slug !in m then m else
    var left := if m[slug].open == 0 then 0 else m[slug].open - 1;
    m[slug := m[slug].(open := left, zeroSince := if left == 0 then Some(now) else m[slug].zeroSince)]
  }

  function AfterSeed(m: Slots, slug: string, now: nat): Slots {
    if slug in m then m else m[slug := Slot(0, Some(now), false)]
  }

  function AfterDue(m: Slots, after: nat, now: nat): Slots {
    map slug | slug in m :: if IsDue(m[slug], after, now) then m[slug].(stopped := true) else m[slug]
  }

  function OpenOf(m: Slots, slug: string): nat {
    if slug in m then m[slug].open else 0
  }

  class Idle {
    var slots: Slots
    /** The connection guards alive. */
    ghost var guards: set<Open>

    constructor ()
      ensures Valid() && slots == map[] && guards == {}
    {
      slots, guards := map[], {};
    }

    /** Every builder's count is the number of guards alive for it. */
    ghost predicate Valid()
      reads this
    {
      forall slug: string :: OpenOf(slots, slug) == |GuardsOf(guards, slug)|
    }

    method Opened(slug: string)
      modifies this`slots
      ensures slots == AfterOpened(old(slots), slug)
    {
      if slug !in slots {
        slots := slots[slug := UNSEEN];
      }
      var s := slots[slug];
      slots := slots[slug := s.(open := s.open + 1, zeroSince := None, stopped := false)];
    }

    method Closed(slug: string, now: nat)
      modifies this`slots
      ensures slots == AfterClosed(old(slots), slug, now)
    {
      if slug in slots {
        var s := slots[slug];
        s := s.(open := if s.open == 0 then 0 else s.open - 1);
        if s.open == 0 {
          s := s.(zeroSince := Some(now));
        }
        slots := slots[slug := s];
      }
    }

    method Seed(slug: string, now: nat)
      requires Valid()
      modifies this`slots
      ensures Valid() && slots == AfterSeed(old(slots), slug, now)
    {
      if slug !in slots {
        slots := slots[slug := Slot(0, Some(now), false)];
      }
    }

    /** The map's own order is not known, so the slugs come in any order. */
    method Due(after: nat, now: nat) returns (due: seq<string>)
      requires Valid()
      modifies this`slots
      ensures Valid() && slots == AfterDue(old(slots), after, now)
      ensures forall slug :: slug in due <==> slug in old(slots) && IsDue(old(slots)[slug], after, now)
      ensures forall i, j :: 0 <= i < j < |due| ==> due[i] != due[j]
    {
      due := [];
      var todo := slots.Keys;
      ghost var was := slots;
      while todo != {}
        invariant todo <= was.Keys == slots.Keys
        invariant forall slug :: slug in todo ==> slots[slug] == was[slug] && slug !in due
        invariant forall slug :: slug in was && slug !in todo ==> slots[slug] == AfterDue(was, after, now)[slug]
        invariant forall slug :: slug in due <==> slug in was && slug !in todo && IsDue(was[slug], after, now)
        invariant forall i, j :: 0 <= i < j < |due| ==> due[i] != due[j]
      {
        var slug :| slug in todo;
        var s := slots[slug];
        if s.open == 0 && !s.stopped && s.zeroSince.Some? && Since(now, s.zeroSince.value) >= after {
          slots := slots[slug := s.(stopped := true)];
          due := due + [slug];
        }
        todo := todo - {slug};
      }
      assert slots == AfterDue(was, after, now);
    }
  }

  ghost function GuardsOf(guards: set<Open>, slug: string): set<Open> {
    set g | g in guards && g.slug == slug
  }

  /** One connection's hold on a builder, for as long as it lives. */
  class Open {
    const idle: Idle
    const slug: string

    constructor (idle: Idle, slug: string)
      requires idle.Valid()
      modifies idle
      ensures idle.Valid() && this.idle == idle && this.slug == slug
      ensures idle.guards == old(idle.guards) + {this}
      ensures idle.slots == AfterOpened(old(idle.slots), slug)
    {
      this.idle, this.slug := idle, slug;
      new;
      ghost var was := idle.guards;
      idle.Opened(slug);
      idle.guards := idle.guards + {this};
      forall other: string
        ensures OpenOf(idle.slots, other) == |GuardsOf(idle.guards, other)|
      {
        assert OpenOf(old(idle.slots), other) == |GuardsOf(was, other)|;
        assert GuardsOf(idle.guards, other) == GuardsOf(was, other) + if other == slug then {this} else {};
      }
    }

    method Drop(now: nat)
      requires idle.Valid() && this in idle.guards
      modifies idle
      ensures idle.Valid() && idle.guards == old(idle.guards) - {this}
      ensures idle.slots == AfterClosed(old(idle.slots), slug, now)
    {
      ghost var was := idle.guards;
      assert this in GuardsOf(was, slug);
      idle.Closed(slug, now);
      idle.guards := idle.guards - {this};
      forall other: string
        ensures OpenOf(idle.slots, other) == |GuardsOf(idle.guards, other)|
      {
        assert OpenOf(old(idle.slots), other) == |GuardsOf(was, other)|;
        assert GuardsOf(idle.guards, other) == GuardsOf(was, other) - if other == slug then {this} else {};
      }
    }
  }

  // ---- any run ----

  datatype Event =
    | Opened(slug: string, at: nat)
    | Closed(slug: string, at: nat)
    | Seed(slug: string, at: nat)
    | Due(after: nat, at: nat)

  function Step(m: Slots, e: Event): Slots {
    match e
    case Opened(slug, _) => AfterOpened(m, slug)
    case Closed(slug, at) => AfterClosed(m, slug, at)
    case Seed(slug, at) => AfterSeed(m, slug, at)
    case Due(after, at) => AfterDue(m, after, at)
  }

  function SlotsAt(events: seq<Event>, n: nat): Slots
    requires n <= |events|
  {
    if n == 0 then map[] else Step(SlotsAt(events, n - 1), events[n - 1])
  }

  predicate Opens(e: Event, slug: string) {
    e.Opened? && e.slug == slug
  }

  predicate Closes(e: Event, slug: string) {
    e.Closed? && e.slug == slug
  }

  predicate Seeds(e: Event, slug: string) {
    e.Seed? && e.slug == slug
  }

  /** The connections to `slug` alive before event `n`. */
  function Live(events: seq<Event>, n: nat, slug: string): int
    requires n <= |events|
  {
    if n == 0 then 0
    else
      var change := if Opens(events[n - 1], slug) then 1 else if Closes(events[n - 1], slug) then -1 else 0;
      Live(events, n - 1, slug) + change
  }

  /** Marks are set in order and a close is a live connection's own. A `Due` reads its clock before it
      takes the lock, so its reading may be older than a mark set before it. */
  ghost predicate IsRun(events: seq<Event>) {
    && (forall i, j :: 0 <= i <= j < |events| && !events[i].Due? && !events[j].Due? ==> events[i].at <= events[j].at)
    && (forall i :: 0 <= i < |events| && events[i].Closed? ==> Live(events, i, events[i].slug) > 0)
  }

  predicate NoOpen(events: seq<Event>, from: nat, to: nat, slug: string)
    requires to <= |events|
  {
    forall k :: from <= k < to ==> !Opens(events[k], slug)
  }

  /** Event `j` left the builder with nothing connected, and nothing has connected since. */
  predicate IdleFrom(events: seq<Event>, n: nat, slug: string, j: nat)
    requires n <= |events|
  {
    && j < n && (Closes(events[j], slug) || Seeds(events[j], slug))
    && Live(events, j + 1, slug) == 0
    && NoOpen(events, j + 1, n, slug)
  }

  /** Event `i` returns the builder as one to stop. */
  predicate Returns(events: seq<Event>, i: nat, slug: string)
    requires i < |events|
  {
    && events[i].Due? && slug in SlotsAt(events, i)
    && IsDue(SlotsAt(events, i)[slug], events[i].after, events[i].at)
  }

  /** The builder was returned in the idle period it is in before event `n`. */
  ghost predicate StopAsked(events: seq<Event>, n: nat, slug: string)
    requires n <= |events|
  {
    exists m :: 0 <= m < n && Returns(events, m, slug) && NoOpen(events, m, n, slug)
  }

  lemma {:induction false} LiveFalls(events: seq<Event>, a: nat, b: nat, slug: string)
    requires a <= b <= |events| && NoOpen(events, a, b, slug)
    ensures Live(events, b, slug) <= Live(events, a, slug)
  {
    if a < b {
      LiveFalls(events, a, b - 1, slug);
    }
  }

  lemma {:induction false} LiveNotNegative(events: seq<Event>, n: nat, slug: string)
    requires IsRun(events) && n <= |events|
    ensures Live(events, n, slug) >= 0
  {
    if n > 0 {
      LiveNotNegative(events, n - 1, slug);
    }
  }

  /** What a slot has come to mean, in terms of the run alone. */
  ghost predicate Means(events: seq<Event>, n: nat, slug: string)
    requires n <= |events|
  {
    var m := SlotsAt(events, n);
    && OpenOf(m, slug) == Live(events, n, slug)
    && (slug !in m ==> (forall j: nat :: !IdleFrom(events, n, slug, j)) && !StopAsked(events, n, slug))
    && (slug in m ==> (
          && (m[slug].zeroSince.Some? <==> m[slug].open == 0)
          && (m[slug].stopped <==> StopAsked(events, n, slug))
          && (forall j: nat :: IdleFrom(events, n, slug, j) ==>
              m[slug].zeroSince.Some? && m[slug].zeroSince.value <= events[j].at)
          && (m[slug].zeroSince.Some? ==>
                exists j: nat :: IdleFrom(events, n, slug, j) && events[j].at == m[slug].zeroSince.value)))
  }

  /** One event, seen from one builder. */
  lemma OwnStep(events: seq<Event>, n: nat, slug: string)
    requires n < |events|
    ensures var e, m, t := events[n], SlotsAt(events, n), SlotsAt(events, n + 1);
            && (Opens(e, slug) ==> slug in t && t[slug] == Slot(OpenOf(m, slug) + 1, None, false))
            && (Closes(e, slug) && OpenOf(m, slug) > 1 ==> slug in t && t[slug] == m[slug].(open := m[slug].open - 1))
            && (Closes(e, slug) && OpenOf(m, slug) == 1 ==>
                slug in t && t[slug] == Slot(0, Some(e.at), m[slug].stopped))
            && (Seeds(e, slug) && slug !in m ==> slug in t && t[slug] == Slot(0, Some(e.at), false))
            && (Seeds(e, slug) && slug in m ==> slug in t && t[slug] == m[slug])
            && (e.Due? && slug in m ==>
                slug in t && t[slug] == m[slug].(stopped := m[slug].stopped || Returns(events, n, slug)))
            && (!Opens(e, slug) && !Closes(e, slug) && !Seeds(e, slug) && !e.Due? ==>
                  (slug in t <==> slug in m) && (slug in m ==> t[slug] == m[slug]))
            && (e.Due? && slug !in m ==> slug !in t)
            && (!e.Due? || slug !in m ==> !Returns(events, n, slug))
  {
  }

  lemma IdleFromStep(events: seq<Event>, n: nat, slug: string, j: nat)
    requires n < |events|
    ensures j < n ==> (IdleFrom(events, n + 1, slug, j) <==> IdleFrom(events, n, slug, j) && !Opens(events[n], slug))
    ensures IdleFrom(events, n + 1, slug, n) <==>
      (Closes(events[n], slug) || Seeds(events[n], slug)) && Live(events, n + 1, slug) == 0
    ensures j > n ==> !IdleFrom(events, n + 1, slug, j)
    ensures IdleFrom(events, n, slug, j) ==> j < n && !events[j].Due?
  {
    IdleFromIsMarked(events, n, slug, j);
    hide Live, Closes, Seeds, Opens;
    if j < n {
      assert NoOpen(events, j + 1, n + 1, slug) <==> NoOpen(events, j + 1, n, slug) && !Opens(events[n], slug);
    }
  }

  lemma IdleFromIsMarked(events: seq<Event>, n: nat, slug: string, j: nat)
    requires n <= |events|
    ensures IdleFrom(events, n, slug, j) ==> j < n && !events[j].Due?
  {
  }

  lemma StopAskedStep(events: seq<Event>, n: nat, slug: string)
    requires n < |events|
    ensures StopAsked(events, n + 1, slug) <==>
      (StopAsked(events, n, slug) || Returns(events, n, slug)) && !Opens(events[n], slug)
  {
    hide SlotsAt, IsDue;
    if StopAsked(events, n + 1, slug) {
      var m :| 0 <= m < n + 1 && Returns(events, m, slug) && NoOpen(events, m, n + 1, slug);
      assert m < n ==> NoOpen(events, m, n, slug);
      assert !Opens(events[n], slug);
    }
    if StopAsked(events, n, slug) && !Opens(events[n], slug) {
      var m :| 0 <= m < n && Returns(events, m, slug) && NoOpen(events, m, n, slug);
      assert NoOpen(events, m, n + 1, slug);
    }
    if Returns(events, n, slug) && !Opens(events[n], slug) {
      assert NoOpen(events, n, n + 1, slug);
    }
  }

  /** Nothing is idle while something is connected. */
  lemma NotIdleWhileLive(events: seq<Event>, n: nat, slug: string, j: nat)
    requires n <= |events| && Live(events, n, slug) > 0
    ensures !IdleFrom(events, n, slug, j)
  {
    if IdleFrom(events, n, slug, j) {
      LiveFalls(events, j + 1, n, slug);
    }
  }

  lemma {:induction false} SlotsMean(events: seq<Event>, n: nat, slug: string)
    requires IsRun(events) && n <= |events|
    ensures Means(events, n, slug)
  {
    if n > 0 {
      SlotsMean(events, n - 1, slug);
      MeansStep(events, n - 1, slug);
    }
  }

  lemma MeansStep(events: seq<Event>, n: nat, slug: string)
    requires IsRun(events) && n < |events| && Means(events, n, slug)
    ensures Means(events, n + 1, slug)
  {
    hide SlotsAt, IdleFrom, StopAsked, Returns;
    var next := n + 1;
    var e, m, t := events[n], SlotsAt(events, n), SlotsAt(events, next);
    OwnStep(events, n, slug);
    StopAskedStep(events, n, slug);
    forall j: nat
      ensures j < n ==> (IdleFrom(events, next, slug, j) <==> IdleFrom(events, n, slug, j) && !Opens(e, slug))
      ensures j > n ==> !IdleFrom(events, next, slug, j)
      ensures IdleFrom(events, n, slug, j) ==> j < n && (!e.Due? ==> events[j].at <= e.at)
      ensures Live(events, n, slug) > 0 ==> !IdleFrom(events, n, slug, j)
    {
      IdleFromStep(events, n, slug, j);
      if Live(events, n, slug) > 0 {
        NotIdleWhileLive(events, n, slug, j);
      }
    }
    IdleFromStep(events, n, slug, n);
    if slug in m && m[slug].zeroSince.Some? && !Opens(e, slug) {
      var j: nat :| IdleFrom(events, n, slug, j) && events[j].at == m[slug].zeroSince.value;
      assert IdleFrom(events, next, slug, j);
    }
  }

  /** The stop decision, read off the run alone: a builder is returned exactly when nothing has been
      connected to it since a close or a seed at least the idle period ago, and no stop was asked for in
      that idle period yet. */
  lemma DueExactly(events: seq<Event>, i: nat, slug: string)
    requires IsRun(events) && i < |events| && events[i].Due?
    ensures Returns(events, i, slug) <==>
      (exists j: nat :: IdleFrom(events, i, slug, j) && Since(events[i].at, events[j].at) >= events[i].after)
      && !StopAsked(events, i, slug)
  {
    SlotsMean(events, i, slug);
    hide IdleFrom, StopAsked, SlotsAt, Live;
    var m := SlotsAt(events, i);
    forall j: nat | IdleFrom(events, i, slug, j)
      ensures slug in m && m[slug].open == 0
    {
      IdleFromMeans(events, i, slug, j, i);
      if Live(events, i, slug) > 0 {
        NotIdleWhileLive(events, i, slug, j);
      }
    }
  }

  /** Idle since `j` is idle at every moment since. */
  lemma IdleFromMeans(events: seq<Event>, n: nat, slug: string, j: nat, k: nat)
    requires IsRun(events) && n <= |events| && IdleFrom(events, n, slug, j) && j < k <= n
    ensures Live(events, k, slug) == 0
  {
    LiveFalls(events, j + 1, k, slug);
    LiveNotNegative(events, k, slug);
  }

  /** What being returned promises: for the whole idle period nothing was connected and nothing came. */
  lemma ReturnedWasIdle(events: seq<Event>, i: nat, slug: string) returns (j: nat)
    requires IsRun(events) && i < |events| && Returns(events, i, slug)
    ensures j < i && Since(events[i].at, events[j].at) >= events[i].after
    ensures events[i].after > 0 ==> events[j].at + events[i].after <= events[i].at
    ensures Closes(events[j], slug) || Seeds(events[j], slug)
    ensures forall k :: j < k <= i ==> Live(events, k, slug) == 0
    ensures NoOpen(events, j, i, slug)
  {
    DueExactly(events, i, slug);
    j :| IdleFrom(events, i, slug, j) && Since(events[i].at, events[j].at) >= events[i].after;
    forall k | j < k <= i
      ensures Live(events, k, slug) == 0
    {
      IdleFromMeans(events, i, slug, j, k);
    }
  }

  /** One stop for each idle period: between two returns of a builder something connected to it. */
  lemma OneStopPerPeriod(events: seq<Event>, i: nat, k: nat, slug: string)
    requires IsRun(events) && i < k < |events| && Returns(events, i, slug) && Returns(events, k, slug)
    ensures exists m :: i < m < k && Opens(events[m], slug)
  {
    hide SlotsAt, IsDue;
    DueExactly(events, k, slug);
    assert NoOpen(events, i, k, slug) ==> StopAsked(events, k, slug);
    assert !Opens(events[i], slug);
  }

  /** The count is the live connections, whatever came before. */
  lemma CountIsLive(events: seq<Event>, n: nat, slug: string)
    requires IsRun(events) && n <= |events|
    ensures OpenOf(SlotsAt(events, n), slug) == Live(events, n, slug)
  {
    SlotsMean(events, n, slug);
  }
}
