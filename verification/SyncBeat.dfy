/** The sync beat over one worktree: when it cuts, what a cut records, and why a quiet worktree stops
    being cut. The worktree's generation is btrfs's own counter, which a cut itself moves. */
module SyncBeat {
  import opened Wrappers

  /** Snapshot names, ordered as their strings are; a sync point's name is fresh. */
  type Name = nat
  type Definition = string
  datatype Phase = Working | Ready

  /** A sync point's record. `stamp` is its generation annotation, `definition` what it froze; `cut` is
      the content of its subvolume once that exists, `stamped` whether the stamp was read after the
      cut, `torn` whether a write landed between the two. */
  datatype Record = Record(status: Option<Phase>, stamp: Option<nat>, definition: Option<Definition>,
                           cut: Option<nat>, stamped: bool, torn: bool)

  // ----- the decision -----

  function StampOf(r: Record): nat {
    if r.stamp.Some? then r.stamp.value else 0
  }

  function Due(current: nat, recorded: Option<nat>): bool {
    recorded.None? || current > recorded.value
  }

  function DefinitionChanged(live: Definition, recorded: Option<Definition>): bool {
    recorded != Some(live)
  }

  predicate IsReady(r: Record) {
    r.status == Some(Ready)
  }

  /** Higher generation wins, then the higher name. */
  predicate Below(a: (Name, Record), b: (Name, Record)) {
    StampOf(a.1) < StampOf(b.1) || (StampOf(a.1) == StampOf(b.1) && a.0 <= b.0)
  }

  /** The newest recorded sync point of a listing. */
  function NewestRecorded(list: seq<(Name, Record)>): Option<(Name, Record)> {
    if list == [] then None
    else
      var best, last := NewestRecorded(list[..|list| - 1]), list[|list| - 1];
      if IsReady(last.1) && (best.None? || Below(best.value, last)) then Some(last) else best
  }

  /** It is the one Ready record every other is below, whatever order the listing came in. */
  lemma {:induction false} NewestIsHighest(list: seq<(Name, Record)>)
    ensures NewestRecorded(list).None? <==> forall x :: x in list ==> !IsReady(x.1)
    ensures NewestRecorded(list).Some? ==>
              var best := NewestRecorded(list).value;
              && best in list && IsReady(best.1)
              && (forall x :: x in list && IsReady(x.1) ==> Below(x, best))
              && forall x :: x in list && x.1.status == Some(Ready) ==>
                   StampOf(x.1) < StampOf(best.1) || (StampOf(x.1) == StampOf(best.1) && x.0 <= best.0)
  {
    if list != [] {
      var front := list[..|list| - 1];
      NewestIsHighest(front);
      assert list == front + [list[|list| - 1]];
    }
  }

  /** Two listings with the same Ready records have the same newest one. */
  lemma ReadyDecides(list: seq<(Name, Record)>, other: seq<(Name, Record)>)
    requires forall x: (Name, Record) :: IsReady(x.1) ==> (x in list <==> x in other)
    requires forall x, y :: x in list && y in list && x.0 == y.0 ==> x == y
    ensures NewestRecorded(list) == NewestRecorded(other)
  {
    NewestIsHighest(list);
    NewestIsHighest(other);
  }

  /** So the order the API server lists in does not matter. */
  lemma ListOrderIrrelevant(list: seq<(Name, Record)>, other: seq<(Name, Record)>)
    requires forall x :: x in list <==> x in other
    requires forall x, y :: x in list && y in list && x.0 == y.0 ==> x == y
    ensures NewestRecorded(list) == NewestRecorded(other)
  {
    ReadyDecides(list, other);
  }

  // ----- the system -----

  /** Where the beat stands: it has noted the definition, then taken its one listing (`idle` is history:
      nothing was in flight then), then read the generation and decided to create. */
  datatype Beat =
    | Resting
    | Begun(definition: Definition)
    | Looked(definition: Definition, list: seq<(Name, Record)>, idle: bool)
    | Decided(definition: Definition, gen: nat, idle: bool)

  /** `gen` and `content` are the live worktree's; every write makes new content. `stored` says whether
      the API server keeps the status a create carries. `retaining` holds the retention passes under
      way, by the sync point each runs for, with the Ready ones it has listed. `born` is history: the
      order in which names were created. */
  datatype Sys = Sys(gen: nat, content: nat, live: Definition, records: map<Name, Record>, stored: bool,
                     beat: Beat, retaining: map<Name, Option<set<Name>>>, born: map<Name, nat>, births: nat)

  datatype Action =
    | Write
    | Redefine(to: Definition)
    | OtherCut
    | Begin
    | Look(list: seq<(Name, Record)>)
    | Read
    | Create(name: Name)
    | Rest
    | Cut(name: Name)
    | Stamp(name: Name)
    | TurnReady(name: Name)
    | TurnReadyUnstamped(name: Name)
    | ListReady(head: Name)
    | Prune(head: Name, name: Name)
    | EndRetain(head: Name)

  predicate Lists(records: map<Name, Record>, list: seq<(Name, Record)>) {
    && (forall x :: x in list ==> x.0 in records && records[x.0] == x.1)
    && forall n :: n in records ==> (n, records[n]) in list
  }

  /** Whether a beat creates a sync point: none it listed may show as in flight, and the newest recorded
      one must be behind in bytes or in definition. */
  predicate Creates(list: seq<(Name, Record)>, live: Definition, gen: nat) {
    && (forall x :: x in list ==> x.1.status != Some(Working))
    && var newest := NewestRecorded(list);
       var stamp := if newest.Some? then Some(StampOf(newest.value.1)) else None;
       var frozen := if newest.Some? then newest.value.1.definition else None;
       Due(gen, stamp) || DefinitionChanged(live, frozen)
  }

  predicate InFlight(s: Sys, n: Name) {
    n in s.records && !IsReady(s.records[n])
  }

  predicate NoneInFlight(s: Sys) {
    forall n :: n in s.records ==> IsReady(s.records[n])
  }

  predicate Enabled(s: Sys, a: Action) {
    match a
    case Begin => s.beat.Resting?
    case Look(list) => s.beat.Begun? && Lists(s.records, list)
    case Read => s.beat.Looked?
    case Create(n) => s.beat.Decided? && n !in s.born
    case Cut(n) => InFlight(s, n) && s.records[n].cut.None?
    case Stamp(n) => InFlight(s, n) && s.records[n].cut.Some?
    case TurnReady(n) => InFlight(s, n) && s.records[n].stamped
    case TurnReadyUnstamped(n) => InFlight(s, n) && s.records[n].cut.Some? && !s.records[n].stamped
    case ListReady(h) => h in s.retaining && s.retaining[h].None? && h in s.records
    case Prune(h, n) => h in s.retaining && s.retaining[h].Some? && n in s.retaining[h].value && n != h
    case _ => true
  }

  function Made(stored: bool, gen: nat, definition: Definition): Record {
    Record(if stored then Some(Working) else None, Some(gen), Some(definition), None, false, false)
  }

  /** A cut turns Ready and owes a retention pass. */
  function Readied(s: Sys, n: Name): Sys
    requires n in s.records
  {
    s.(records := s.records[n := s.records[n].(status := Some(Ready))], retaining := s.retaining[n := None])
  }

  function Do(s: Sys, a: Action): Sys
    requires Enabled(s, a)
  {
    match a
    case Write => s.(gen := s.gen + 1, content := s.content + 1)
    case Redefine(d) => s.(live := d)
    case OtherCut => s.(gen := s.gen + 1)
    case Begin => s.(beat := Begun(s.live))
    case Look(list) => s.(beat := Looked(s.beat.definition, list, NoneInFlight(s)))
    case Read =>
      var b := s.beat;
      s.(beat := if Creates(b.list, b.definition, s.gen) then Decided(b.definition, s.gen, b.idle) else Resting)
    case Create(n) =>
      s.(records := s.records[n := Made(s.stored, s.beat.gen, s.beat.definition)], beat := Resting,
         born := s.born[n := s.births], births := s.births + 1)
    // The beat found nothing to do, failed, or died with its process.
    case Rest => s.(beat := Resting)
    case Cut(n) => s.(gen := s.gen + 1, records := s.records[n := s.records[n].(cut := Some(s.content))])
    // Taken again after a crash, the re-stamp reads a later generation; it may then be torn.
    case Stamp(n) =>
      var r := s.records[n];
      s.(records := s.records[n := r.(stamp := Some(s.gen), stamped := true, torn := r.cut != Some(s.content))])
    case TurnReady(n) => Readied(s, n)
    // The re-stamp failed: the record keeps the generation the beat wrote before the cut.
    case TurnReadyUnstamped(n) => Readied(s, n)
    case ListReady(h) => s.(retaining := s.retaining[h := Some(set n | n in s.records && IsReady(s.records[n]))])
    case Prune(h, n) => s.(records := s.records - {n})
    // Finished, failed, or died with its process: what it has not deleted stays.
    case EndRetain(h) => s.(retaining := s.retaining - {h})
  }

  // ----- the code of one beat -----

  class Api {
    var records: map<Name, Record>
    /** Whether a create's status is kept. */
    const stored: bool

    constructor (stored: bool)
      ensures this.stored == stored && records == map[]
    {
      this.stored, records := stored, map[];
    }

    /** `list` is the beat's one listing, `live` the definition it noted, `here` whether the subvolume is
        on this node, `gen` its generation if readable. Only when all that is known does a beat cut. */
    method SyncOne(list: seq<(Name, Record)>, live: Definition, here: bool, gen: Option<nat>, name: Name, net: Net)
      requires name !in records
      modifies this
      ensures records ==
              if here && gen.Some? && !net.Refused? && Creates(list, live, gen.value)
              then old(records)[name := Made(stored, gen.value, live)] else old(records)
    {
      if exists x :: x in list && x.1.status == Some(Working) {
        return;
      }
      var newest := NewestRecorded(list);
      if !here || gen.None? {
        return;
      }
      var recorded := if newest.Some? then Some(StampOf(newest.value.1)) else None;
      var frozen := if newest.Some? then newest.value.1.definition else None;
      if !Due(gen.value, recorded) && !DefinitionChanged(live, frozen) {
        return;
      }
      if !net.Refused? {
        var status := if stored then Some(Working) else None;
        records := records[name := Record(status, Some(gen.value), Some(live), None, false, false)];
      }
    }
  }

  // ----- what every step keeps, however many cuts and retention passes are under way -----

  predicate RecordInv(s: Sys, n: Name)
    requires n in s.records
  {
    var r := s.records[n];
    && StampOf(r) <= s.gen && (r.stamped ==> r.cut.Some? && r.stamp.Some?)
    && (IsReady(r) ==> r.cut.Some?) && (r.cut.Some? && !r.stamped ==> StampOf(r) < s.gen)
    && (s.stored && !IsReady(r) ==> r.status == Some(Working))
    && (!s.stored ==> r.status != Some(Working))
    && (r.stamped && StampOf(r) == s.gen ==> (r.torn <==> r.cut != Some(s.content)))
  }

  /** What a beat under way knows. */
  ghost predicate BeatInv(s: Sys) {
    match s.beat
    case Looked(_, list, idle) =>
      (idle ==> NoneInFlight(s)) && (!idle && s.stored ==> exists x :: x in list && x.1.status == Some(Working))
    case Decided(_, gen, idle) => gen <= s.gen && (idle ==> NoneInFlight(s)) && (s.stored ==> idle)
    case _ => true
  }

  ghost predicate Inv(s: Sys) {
    (forall n :: n in s.records ==> RecordInv(s, n)) && BeatInv(s)
  }

  lemma RecordsKept(s: Sys, a: Action, n: Name)
    requires Inv(s) && Enabled(s, a) && n in Do(s, a).records
    ensures RecordInv(Do(s, a), n)
  {
    hide Creates, Lists, BeatInv, NoneInFlight;
    assert a.Create? ==> s.beat.gen <= s.gen by {
      CreateReadsPast(s);
    }
    assert n in s.records ==> RecordInv(s, n);
  }

  lemma CreateReadsPast(s: Sys)
    requires Inv(s)
    ensures s.beat.Decided? ==> s.beat.gen <= s.gen
  {
  }

  lemma BeatKept(s: Sys, a: Action)
    requires Inv(s) && Enabled(s, a)
    ensures BeatInv(Do(s, a))
  {
    if a.Look? && s.stored && !NoneInFlight(s) {
      var n :| n in s.records && !IsReady(s.records[n]);
      assert RecordInv(s, n) && (n, s.records[n]) in a.list;
    }
    hide Lists, NewestRecorded, RecordInv;
  }

  lemma StepKeeps(s: Sys, a: Action)
    requires Inv(s) && Enabled(s, a)
    ensures Inv(Do(s, a))
  {
    hide Do, Enabled, RecordInv, BeatInv;
    BeatKept(s, a);
    forall n | n in Do(s, a).records ensures RecordInv(Do(s, a), n) {
      RecordsKept(s, a, n);
    }
  }

  // ----- quiescence -----

  /** Everything but a change of bytes or definition, and another cut. */
  predicate Quiet(a: Action) {
    !a.Write? && !a.Redefine? && !a.OtherCut?
  }

  /** A beat creates a sync point; idle, when nothing was in flight as it listed. */
  predicate CreatedIdle(s: Sys, a: Action)
    requires Enabled(s, a)
  {
    a.Create? && s.beat.idle
  }

  /** The strictly newest Ready sync point. */
  predicate Newest(s: Sys, n: Name) {
    && n in s.records && IsReady(s.records[n])
    && forall m :: m in s.records && m != n && IsReady(s.records[m]) ==> StampOf(s.records[m]) < StampOf(s.records[n])
  }

  /** The step loses the newest recorded bytes: a re-stamp failed, or retention for another sync point
      deletes the newest. */
  predicate Unsettles(s: Sys, a: Action) {
    a.TurnReadyUnstamped? || (a.Prune? && Newest(s, a.name))
  }

  /** `n` records the worktree's present generation, or will. */
  predicate Covers(s: Sys, n: Name) {
    && n in s.records
    && (s.records[n].stamped ==> StampOf(s.records[n]) == s.gen)
    && (IsReady(s.records[n]) ==> s.records[n].stamped)
  }

  predicate Uncut(s: Sys, n: Name) {
    InFlight(s, n) && s.records[n].cut.None?
  }

  /** Everything in flight froze the live definition, and a cut is still to come, or else some record
      covers the worktree and none that could be newest froze another definition. */
  ghost predicate Settling(s: Sys) {
    && (forall n :: InFlight(s, n) ==> s.records[n].definition == Some(s.live))
    && ((exists n :: Uncut(s, n)) ||
        ((exists n :: Covers(s, n)) &&
         forall n :: n in s.records && s.records[n].stamped && StampOf(s.records[n]) == s.gen ==>
           s.records[n].definition == Some(s.live)))
  }

  /** A beat under way that noted a definition no longer live. */
  predicate Stale(s: Sys) {
    !s.beat.Resting? && s.beat.definition != s.live
  }

  /** A beat under way that will not create with nothing in flight. */
  predicate Harmless(s: Sys) {
    && (s.beat.Looked? && s.beat.idle ==> !Creates(s.beat.list, s.beat.definition, s.gen))
    && (s.beat.Decided? ==> !s.beat.idle)
  }

  /** How many idle creations are still owed if nothing unsettles. */
  ghost function Debt(s: Sys): (d: nat)
    ensures d <= 2 && (!Stale(s) ==> d <= 1)
  {
    if Stale(s) then (if s.beat.Begun? || s.beat.idle then 2 else 1)
    else if Settling(s) && Harmless(s) then 0
    else 1
  }

  lemma SettledIsLeft(s: Sys, list: seq<(Name, Record)>)
    requires Inv(s) && Settling(s) && NoneInFlight(s) && Lists(s.records, list)
    ensures !Creates(list, s.live, s.gen)
  {
    assert forall n :: !Uncut(s, n);
    var n :| Covers(s, n);
    assert (n, s.records[n]) in list;
    NewestIsHighest(list);
    var best := NewestRecorded(list).value;
    assert Below((n, s.records[n]), best) && RecordInv(s, best.0);
  }

  lemma UncutSettles(s: Sys, a: Action, n: Name)
    requires Inv(s) && Enabled(s, a) && (a.Cut? || a.Stamp? || a.TurnReady? || a.TurnReadyUnstamped?)
    requires Settling(s) && Uncut(s, n)
    ensures Settling(Do(s, a))
  {
    hide Creates, Lists, Newest;
    var t := Do(s, a);
    if a == Action.Cut(n) {
      assert Covers(t, n);
      forall m | m in t.records && t.records[m].stamped ensures StampOf(t.records[m]) < t.gen {
        assert RecordInv(s, m);
      }
    } else {
      assert Uncut(t, n);
    }
  }

  lemma CoveredSettles(s: Sys, a: Action, n: Name)
    requires Inv(s) && Enabled(s, a) && (a.Stamp? || a.TurnReady?)
    requires Settling(s) && Covers(s, n) && forall m :: !Uncut(s, m)
    ensures Settling(Do(s, a))
  {
    hide Creates, Lists, Newest;
    var t := Do(s, a);
    if a.Stamp? {
      assert InFlight(s, a.name) && Covers(t, a.name);
    } else {
      assert Covers(t, n);
    }
  }

  /** Deleting any sync point but the newest leaves one that covers the worktree. */
  lemma PruneSettles(s: Sys, a: Action)
    requires Inv(s) && Enabled(s, a) && a.Prune? && !Newest(s, a.name) && Settling(s)
    requires a.name in s.records ==> IsReady(s.records[a.name])
    ensures Settling(Do(s, a))
  {
    hide Creates, Lists;
    var t := Do(s, a);
    if n :| Uncut(s, n) {
      assert Uncut(t, n);
    } else {
      var n :| Covers(s, n);
      if n == a.name {
        var m :| m in s.records && m != n && IsReady(s.records[m]) && StampOf(s.records[m]) >= StampOf(s.records[n]);
        assert RecordInv(s, m) && RecordInv(s, n);
        assert Covers(t, m);
      } else {
        assert Covers(t, n);
      }
    }
  }

  /** A pass lists what is Ready, and what is Ready stays so. */
  ghost predicate ListedReady(s: Sys) {
    forall h, n :: h in s.retaining && s.retaining[h].Some? && n in s.retaining[h].value ==>
      n in s.born && (n in s.records ==> IsReady(s.records[n]))
  }

  ghost predicate NamesBorn(s: Sys) {
    && (forall n :: n in s.records ==> n in s.born && s.born[n] < s.births)
    && forall h :: h in s.retaining ==> h in s.born && s.born[h] < s.births
  }

  lemma ListedKept(s: Sys, a: Action)
    requires ListedReady(s) && NamesBorn(s) && Enabled(s, a)
    ensures ListedReady(Do(s, a)) && NamesBorn(Do(s, a))
  {
    hide Creates, Lists;
  }

  /** While quiet, the steps of the cuts and of retention keep a settling worktree settling, but for
      those that unsettle it. */
  lemma RecordsSettle(s: Sys, a: Action)
    requires Inv(s) && ListedReady(s) && Enabled(s, a) && Quiet(a) && !a.Create? && Settling(s) && !Unsettles(s, a)
    ensures Settling(Do(s, a))
  {
    hide Creates, Lists, RecordInv, Newest, Settling;
    if a.Prune? {
      PruneSettles(s, a);
    } else if a.Cut? || a.Stamp? || a.TurnReady? {
      CutsSettle(s, a);
    } else {
      SameRecordsSettle(s, Do(s, a));
    }
  }

  lemma CutsSettle(s: Sys, a: Action)
    requires Inv(s) && Enabled(s, a) && (a.Cut? || a.Stamp? || a.TurnReady?) && Settling(s)
    ensures Settling(Do(s, a))
  {
    hide Creates, Lists, RecordInv, Newest;
    assert a.Cut? ==> Uncut(s, a.name);
    if n :| Uncut(s, n) {
      UncutSettles(s, a, n);
    } else {
      var n :| Covers(s, n);
      CoveredSettles(s, a, n);
    }
  }

  lemma SameRecordsSettle(s: Sys, t: Sys)
    requires Settling(s) && t.records == s.records && t.gen == s.gen && t.live == s.live
    ensures Settling(t)
  {
    if n :| Uncut(s, n) {
      assert Uncut(t, n);
    } else {
      var n :| Covers(s, n);
      assert Covers(t, n);
    }
  }

  /** A record just created is still to be cut; so is whatever it joins. */
  lemma CreateSettles(s: Sys, a: Action)
    requires Inv(s) && Enabled(s, a) && a.Create? && !Stale(s) && (s.beat.idle || Settling(s))
    ensures Settling(Do(s, a))
  {
    var t := Do(s, a);
    assert Uncut(t, a.name);
    assert forall n :: InFlight(t, n) ==> n == a.name || InFlight(s, n);
  }

  /** Nothing in flight means nothing is cut, so a harmless beat stays so. */
  lemma HarmlessKept(s: Sys, a: Action)
    requires Inv(s) && Enabled(s, a) && Quiet(a) && !Stale(s) && Settling(s) && Harmless(s)
    ensures Harmless(Do(s, a))
  {
    hide Creates, RecordInv, Newest;
    if a.Look? && NoneInFlight(s) {
      SettledIsLeft(s, a.list);
    }
  }

  /** One quiet step pays for each idle creation out of the debt, and adds to the debt only where it
      unsettles. */
  lemma QuietStep(s: Sys, a: Action)
    requires Inv(s) && ListedReady(s) && Enabled(s, a) && Quiet(a)
    ensures Debt(Do(s, a)) + (if CreatedIdle(s, a) then 1 else 0) <= Debt(s) + (if Unsettles(s, a) then 1 else 0)
  {
    hide Creates, Lists, Inv, Settling, Newest, Harmless;
    var t := Do(s, a);
    if !Stale(s) {
      if a.Create? {
        if s.beat.idle || Settling(s) {
          CreateSettles(s, a);
        }
        RestingIsHarmless(t);
        DecidedIsNot(s);
      } else if Settling(s) && Harmless(s) {
        HarmlessKept(s, a);
        if !Unsettles(s, a) {
          RecordsSettle(s, a);
        }
      }
    }
  }

  lemma RestingIsHarmless(s: Sys)
    requires s.beat.Resting?
    ensures Harmless(s)
  {
  }

  lemma DecidedIsNot(s: Sys)
    requires s.beat.Decided?
    ensures Harmless(s) <==> !s.beat.idle
  {
  }

  // ----- runs -----

  ghost predicate IsRun(s: Sys, actions: seq<Action>)
    decreases |actions|
  {
    actions == [] || (Enabled(s, actions[0]) && IsRun(Do(s, actions[0]), actions[1..]))
  }

  ghost function Final(s: Sys, actions: seq<Action>): Sys
    requires IsRun(s, actions)
    decreases |actions|
  {
    if actions == [] then s else Final(Do(s, actions[0]), actions[1..])
  }

  function Creations(actions: seq<Action>): nat {
    if actions == [] then 0 else (if actions[0].Create? then 1 else 0) + Creations(actions[1..])
  }

  ghost function IdleCreations(s: Sys, actions: seq<Action>): nat
    requires IsRun(s, actions)
    decreases |actions|
  {
    if actions == [] then 0
    else (if CreatedIdle(s, actions[0]) then 1 else 0) + IdleCreations(Do(s, actions[0]), actions[1..])
  }

  ghost function Unsettlings(s: Sys, actions: seq<Action>): nat
    requires IsRun(s, actions)
    decreases |actions|
  {
    if actions == [] then 0
    else (if Unsettles(s, actions[0]) then 1 else 0) + Unsettlings(Do(s, actions[0]), actions[1..])
  }

  function FailedStamps(actions: seq<Action>): nat {
    if actions == [] then 0 else (if actions[0].TurnReadyUnstamped? then 1 else 0) + FailedStamps(actions[1..])
  }

  /** Once neither bytes nor definition change and no other cut is made, at most one more sync point is
      created by a beat that listed with nothing in flight (two if a beat was under way that had noted
      an older definition), and one more for each step that unsettles; however listings, creates, cuts,
      stamps and retention passes interleave. Nothing is assumed of how the API server treats a created
      status, nor of how many cuts and passes are under way. */
  lemma {:induction false} AtMostOneMore(s: Sys, actions: seq<Action>)
    requires Inv(s) && ListedReady(s) && NamesBorn(s) && IsRun(s, actions)
    requires forall a :: a in actions ==> Quiet(a)
    ensures IdleCreations(s, actions) <= Unsettlings(s, actions) + Debt(s)
    decreases |actions|
  {
    hide Inv, Debt, Do, Unsettles, CreatedIdle, ListedReady, NamesBorn, Enabled, Quiet;
    if actions != [] {
      StepKeeps(s, actions[0]);
      ListedKept(s, actions[0]);
      QuietStep(s, actions[0]);
      AtMostOneMore(Do(s, actions[0]), actions[1..]);
    }
  }

  // ----- when every creation is an idle one, and nothing but a failed re-stamp unsettles -----

  /** A beat creates over nothing in flight and with no retention pass still to list. */
  predicate Guarded(s: Sys, a: Action)
    requires Enabled(s, a)
  {
    a.Create? ==> s.beat.idle && forall h :: h in s.retaining && h in s.records ==> s.retaining[h].Some?
  }

  /** One cut in flight, the last one made and ahead of every other record from its cut on. */
  ghost predicate AheadInv(s: Sys, n: Name, m: Name)
    requires NamesBorn(s) && n in s.records && m in s.records
  {
    InFlight(s, n) && m != n ==>
      && !InFlight(s, m) && s.born[m] < s.born[n] && StampOf(s.records[m]) <= StampOf(s.records[n])
      && (s.records[n].cut.Some? ==>
            StampOf(s.records[m]) < if s.records[n].stamped then StampOf(s.records[n]) else s.gen)
  }

  /** Sync points made later carry no lower stamp. */
  ghost predicate InOrder(s: Sys, n: Name, m: Name)
    requires NamesBorn(s) && n in s.records && m in s.records
  {
    IsReady(s.records[n]) && IsReady(s.records[m]) && s.born[m] < s.born[n] ==>
      StampOf(s.records[m]) <= StampOf(s.records[n])
  }

  ghost predicate Outlived(s: Sys, h: Name, k: Name)
    requires NamesBorn(s) && h in s.retaining
  {
    k in s.records && IsReady(s.records[k]) && (k == h || s.born[h] < s.born[k])
  }

  /** A retention pass lists nothing made after its own sync point, which is there or outlived. */
  ghost predicate PassInv(s: Sys, h: Name)
    requires ListedReady(s) && NamesBorn(s) && h in s.retaining
  {
    && (s.retaining[h].None? && h in s.records ==> forall m :: m in s.records && m != h ==> s.born[m] < s.born[h])
    && (s.retaining[h].Some? ==> forall m :: m in s.retaining[h].value && m != h ==> s.born[m] < s.born[h])
    && exists k :: Outlived(s, h, k)
  }

  ghost predicate Orderly(s: Sys)
    requires ListedReady(s) && NamesBorn(s)
  {
    && (forall n, m :: n in s.records && m in s.records ==> AheadInv(s, n, m))
    && (forall n, m :: n in s.records && m in s.records ==> InOrder(s, n, m))
    && (forall h :: h in s.retaining ==> PassInv(s, h))
    && (s.beat.Decided? && s.beat.idle ==> forall m :: m in s.records ==> StampOf(s.records[m]) <= s.beat.gen)
  }

  /** All that is known of a state of a run. */
  ghost predicate Sound(s: Sys) {
    Inv(s) && ListedReady(s) && NamesBorn(s)
  }

  lemma AheadKept(s: Sys, a: Action, n: Name, m: Name)
    requires Sound(s) && Orderly(s) && Enabled(s, a) && !a.Create? && NamesBorn(Do(s, a))
    requires n in Do(s, a).records && m in Do(s, a).records
    ensures AheadInv(Do(s, a), n, m)
  {
    hide Creates, Lists, PassInv, InOrder, BeatInv, ListedReady, NoneInFlight;
    assert AheadInv(s, n, m) && RecordInv(s, n) && RecordInv(s, m);
  }

  lemma AheadOnceMade(s: Sys, a: Action, n: Name, m: Name)
    requires Sound(s) && Orderly(s) && Enabled(s, a) && a.Create? && Guarded(s, a) && NamesBorn(Do(s, a))
    requires n in Do(s, a).records && m in Do(s, a).records
    ensures AheadInv(Do(s, a), n, m)
  {
    IdleIsAlone(s);
    hide Creates, Lists, PassInv, InOrder, BeatInv, ListedReady, RecordInv;
  }

  lemma IdleIsAlone(s: Sys)
    requires Sound(s)
    ensures s.beat.Decided? && s.beat.idle ==> NoneInFlight(s)
  {
  }

  lemma OrderKept(s: Sys, a: Action, n: Name, m: Name)
    requires Sound(s) && Orderly(s) && Enabled(s, a) && NamesBorn(Do(s, a))
    requires n in Do(s, a).records && m in Do(s, a).records
    ensures InOrder(Do(s, a), n, m)
  {
    hide Creates, Lists, PassInv, BeatInv, ListedReady, RecordInv;
    if n in s.records && m in s.records {
      assert AheadInv(s, n, m) && AheadInv(s, m, n) && InOrder(s, n, m);
    }
  }

  lemma BornKept(s: Sys, a: Action, n: Name)
    requires Enabled(s, a) && n in s.born
    ensures n in Do(s, a).born && Do(s, a).born[n] == s.born[n]
  {
    hide Creates, Lists;
  }

  lemma ReadyKept(s: Sys, a: Action, k: Name)
    requires Enabled(s, a) && NamesBorn(s) && k in s.records && IsReady(s.records[k]) && !(a.Prune? && a.name == k)
    ensures k in Do(s, a).records && IsReady(Do(s, a).records[k])
  {
    hide Creates, Lists;
  }

  lemma OutlivedKept(s: Sys, a: Action, h: Name)
    requires Sound(s) && Orderly(s) && Enabled(s, a) && NamesBorn(Do(s, a))
    requires h in s.retaining && h in Do(s, a).retaining
    ensures exists k :: Outlived(Do(s, a), h, k)
  {
    var t := Do(s, a);
    assert PassInv(s, h);
    BornKept(s, a, h);
    var k :| Outlived(s, h, k);
    if a.Prune? && a.name == k {
      var l := HeadOutlives(s, a);
      BornKept(s, a, l);
      ReadyKept(s, a, l);
      hide Do, Enabled, Inv, ListedReady, Orderly;
      assert Outlived(t, h, l);
    } else {
      BornKept(s, a, k);
      ReadyKept(s, a, k);
      hide Do, Enabled, Inv, ListedReady, Orderly;
      assert Outlived(t, h, k);
    }
  }

  /** The sync point a pass runs for, or one that outlived it, was made after what the pass deletes. */
  lemma HeadOutlives(s: Sys, a: Action) returns (l: Name)
    requires Sound(s) && Orderly(s) && Enabled(s, a) && a.Prune?
    ensures Outlived(s, a.head, l) && l != a.name && (a.name in s.records ==> s.born[a.name] < s.born[l])
  {
    hide Creates, Lists, AheadInv, InOrder, RecordInv;
    assert PassInv(s, a.head);
    l :| Outlived(s, a.head, l);
  }

  lemma PassKept(s: Sys, a: Action, h: Name)
    requires Sound(s) && Orderly(s) && Enabled(s, a) && Guarded(s, a)
    requires ListedReady(Do(s, a)) && NamesBorn(Do(s, a)) && h in Do(s, a).retaining
    ensures PassInv(Do(s, a), h)
  {
    var t := Do(s, a);
    if (a.TurnReady? || a.TurnReadyUnstamped?) && a.name == h {
      assert Outlived(t, h, h);
      forall m | m in t.records && m != h ensures t.born[m] < t.born[h] {
        assert AheadInv(s, h, m);
      }
    } else {
      assert h in s.retaining && PassInv(s, h);
      OutlivedKept(s, a, h);
      BornKept(s, a, h);
      if t.retaining[h].None? && h in t.records {
        WaitingKept(s, a, h);
      } else if t.retaining[h].Some? {
        ListedBefore(s, a, h);
      }
    }
  }

  lemma WaitingKept(s: Sys, a: Action, h: Name)
    requires Sound(s) && Enabled(s, a) && Guarded(s, a) && NamesBorn(Do(s, a))
    requires h in s.retaining && PassInv(s, h) && s.retaining[h].None? && h in Do(s, a).records &&
        h in Do(s, a).retaining
    ensures forall m :: m in Do(s, a).records && m != h ==> Do(s, a).born[m] < Do(s, a).born[h]
  {
    hide Creates, Lists, Outlived, RecordInv;
  }

  lemma ListedBefore(s: Sys, a: Action, h: Name)
    requires Sound(s) && Enabled(s, a) && ListedReady(Do(s, a)) && NamesBorn(Do(s, a))
    requires h in s.retaining && PassInv(s, h)
    requires !((a.TurnReady? || a.TurnReadyUnstamped?) && a.name == h)
    requires h in Do(s, a).retaining && Do(s, a).retaining[h].Some?
    ensures forall m :: m in Do(s, a).retaining[h].value && m != h ==> Do(s, a).born[m] < Do(s, a).born[h]
  {
    hide Creates, Lists, Outlived, RecordInv;
  }

  lemma StampsBelowKept(s: Sys, a: Action)
    requires Sound(s) && Orderly(s) && Enabled(s, a)
    requires Do(s, a).beat.Decided? && Do(s, a).beat.idle
    ensures forall m :: m in Do(s, a).records ==> StampOf(Do(s, a).records[m]) <= Do(s, a).beat.gen
  {
    hide Creates, Lists, PassInv, AheadInv, InOrder;
    forall m | m in s.records ensures RecordInv(s, m) {
    }
  }

  /** Whatever is written, cut, finished or deleted in between, guarded beats keep that order; so no
      retention pass ever deletes the newest sync point, and only a failed re-stamp unsettles. */
  lemma GuardedStep(s: Sys, a: Action)
    requires Sound(s) && Orderly(s) && Enabled(s, a) && Guarded(s, a)
    ensures Sound(Do(s, a)) && Orderly(Do(s, a))
    ensures Unsettles(s, a) ==> a.TurnReadyUnstamped?
  {
    var t := Do(s, a);
    StepKeeps(s, a);
    ListedKept(s, a);
    if a.Prune? {
      NewestIsSpared(s, a);
    }
    hide Do, Enabled, Guarded, Inv, AheadInv, InOrder, PassInv, Newest, ListedReady, NamesBorn;
    forall n, m | n in t.records && m in t.records ensures AheadInv(t, n, m) && InOrder(t, n, m) {
      if a.Create? {
        AheadOnceMade(s, a, n, m);
      } else {
        AheadKept(s, a, n, m);
      }
      OrderKept(s, a, n, m);
    }
    forall h | h in t.retaining ensures PassInv(t, h) {
      PassKept(s, a, h);
    }
    if t.beat.Decided? && t.beat.idle {
      StampsBelowKept(s, a);
    }
  }

  lemma NewestIsSpared(s: Sys, a: Action)
    requires Sound(s) && Orderly(s) && Enabled(s, a) && a.Prune?
    ensures !Newest(s, a.name)
  {
    var l := HeadOutlives(s, a);
    if a.name in s.records {
      assert InOrder(s, l, a.name);
    }
  }

  ghost predicate AllGuarded(s: Sys, actions: seq<Action>)
    requires IsRun(s, actions)
    decreases |actions|
  {
    actions == [] || (Guarded(s, actions[0]) && AllGuarded(Do(s, actions[0]), actions[1..]))
  }

  lemma {:induction false} GuardedRun(s: Sys, actions: seq<Action>)
    requires IsRun(s, actions) && Sound(s) && Orderly(s) && AllGuarded(s, actions)
    ensures Sound(Final(s, actions)) && Orderly(Final(s, actions))
    ensures Creations(actions) == IdleCreations(s, actions)
    ensures Unsettlings(s, actions) <= FailedStamps(actions)
    decreases |actions|
  {
    hide Do, Enabled, Sound, Orderly, Unsettles;
    if actions != [] {
      GuardedStep(s, actions[0]);
      GuardedRun(Do(s, actions[0]), actions[1..]);
    }
  }

  /** While the API server keeps the created status, every beat that creates listed nothing in flight. */
  lemma StoredIsIdle(s: Sys, a: Action)
    requires Sound(s) && s.stored && Enabled(s, a) && a.Create?
    ensures s.beat.idle
  {
  }

  // ----- where the guard is blind -----

  /** Over a cut in flight a beat creates another sync point exactly when the API server drops the
      status a create carries, however late it reads the generation. */
  lemma OverACutCreates(s: Sys, list: seq<(Name, Record)>, n: Name, gen: nat)
    requires Sound(s) && Orderly(s) && Lists(s.records, list) && gen >= s.gen
    requires InFlight(s, n) && s.records[n].cut.Some?
    ensures Creates(list, s.live, gen) <==> !s.stored
  {
    assert (n, s.records[n]) in list && RecordInv(s, n);
    if !s.stored {
      NewestIsHighest(list);
      forall x | x in list ensures x.1.status != Some(Working) {
        assert RecordInv(s, x.0);
      }
      if NewestRecorded(list).Some? {
        assert AheadInv(s, n, NewestRecorded(list).value.0);
      }
    }
  }

  /** The step turns nothing Ready, deletes nothing and leaves the definition. */
  predicate KeepsReady(a: Action) {
    !a.Redefine? && !a.TurnReady? && !a.TurnReadyUnstamped? && !a.Prune?
  }

  ghost predicate SameReady(s: Sys, t: Sys) {
    && t.stored == s.stored && t.live == s.live && t.gen >= s.gen
    && (forall n :: n in s.records && IsReady(s.records[n]) ==> n in t.records && t.records[n] == s.records[n])
    && (forall n :: n in t.records && IsReady(t.records[n]) ==> n in s.records && t.records[n] == s.records[n])
  }

  lemma SameReadyStep(s: Sys, a: Action)
    requires NamesBorn(s) && Enabled(s, a) && KeepsReady(a)
    ensures SameReady(s, Do(s, a))
  {
    hide Creates, Lists;
  }

  lemma {:induction false} SameReadyRun(s: Sys, actions: seq<Action>)
    requires IsRun(s, actions) && Sound(s) && forall a :: a in actions ==> KeepsReady(a)
    ensures SameReady(s, Final(s, actions)) && Sound(Final(s, actions))
    decreases |actions|
  {
    if actions != [] {
      StepKeeps(s, actions[0]);
      ListedKept(s, actions[0]);
      SameReadyStep(s, actions[0]);
      hide Do, Enabled, Inv, ListedReady, NamesBorn, KeepsReady;
      SameReadyRun(Do(s, actions[0]), actions[1..]);
    }
  }

  /** And goes on cutting: with the status dropped, once a beat creates, every beat after it creates
      another sync point until one turns Ready, whatever is written or cut in between. */
  lemma Flood(s: Sys, first: seq<(Name, Record)>, actions: seq<Action>, list: seq<(Name, Record)>, gen: nat)
    requires Sound(s) && !s.stored && Lists(s.records, first) && Creates(first, s.live, s.gen)
    requires IsRun(s, actions) && forall a :: a in actions ==> KeepsReady(a)
    requires Lists(Final(s, actions).records, list) && gen >= Final(s, actions).gen
    ensures Creates(list, Final(s, actions).live, gen)
  {
    SameReadyRun(s, actions);
    var t := Final(s, actions);
    forall x | x in list ensures x.1.status != Some(Working) {
      assert RecordInv(t, x.0);
    }
    forall x: (Name, Record) | IsReady(x.1) ensures x in first <==> x in list {
      assert x in first ==> t.records[x.0] == x.1;
      assert x in list ==> s.records[x.0] == x.1;
    }
    ReadyDecides(first, list);
  }

  // ----- and why the guard asks for listed passes: the other side -----

  lemma Smaller(records: map<Name, Record>, n: Name)
    requires n in records
    ensures |records - {n}| < |records|
  {
    assert (records - {n}).Keys == records.Keys - {n};
  }

  lemma {:induction false} ListExists(records: map<Name, Record>) returns (list: seq<(Name, Record)>)
    ensures Lists(records, list)
    decreases |records|
  {
    if records == map[] {
      list := [];
    } else {
      var n :| n in records;
      Smaller(records, n);
      var rest := ListExists(records - {n});
      list := [(n, records[n])] + rest;
      forall m | m in records ensures (m, records[m]) in list {
        assert m != n ==> (m, (records - {n})[m]) in rest;
      }
    }
  }

  lemma Cons(s: Sys, a: Action, rest: seq<Action>)
    requires Enabled(s, a) && IsRun(Do(s, a), rest)
    ensures IsRun(s, [a] + rest)
    ensures IdleCreations(s, [a] + rest) == (if CreatedIdle(s, a) then 1 else 0) + IdleCreations(Do(s, a), rest)
    ensures FailedStamps([a] + rest) == (if a.TurnReadyUnstamped? then 1 else 0) + FailedStamps(rest)
  {
    assert ([a] + rest)[1..] == rest;
  }

  /** From any state where an idle beat creates while a retention pass is still to list, quiet steps
      without a failed re-stamp lead to a second idle creation: the pass lists the new sync point and
      deletes it, and the next beat finds the bytes unrecorded. So the bound holds exactly for runs
      whose beats wait for that. */
  lemma PendingPassExceeds(s: Sys, h: Name, n: Name, next: Name) returns (actions: seq<Action>)
    requires Sound(s) && s.beat.Decided? && s.beat.idle
    requires h in s.retaining && s.retaining[h].None? && h in s.records
    requires n !in s.born && next !in s.born && next != n
    ensures IsRun(s, actions) && actions != [] && actions[0] == Create(n)
    ensures forall a :: a in actions ==> Quiet(a)
    ensures IdleCreations(s, actions) == 2 && FailedStamps(actions) == 0
  {
    var list := ListExists(s.records);
    forall m | m in s.records ensures StampOf(s.records[m]) <= s.gen {
      assert RecordInv(s, m);
    }
    var tail := SecondBeat(Redone(s, h, n), list, next);
    RedoneIsPruned(s, h, n);
    hide Inv, IsRun, IdleCreations, Quiet, Lists, FailedStamps;
    var middle := Pruning(ReadyAgain(s, n), h, n, tail);
    actions := FirstCut(s, n, middle);
  }

  /** The state once the beat's sync point has turned Ready, and once the other pass has deleted it. */
  function ReadyAgain(s: Sys, n: Name): Sys
    requires s.beat.Decided? && n !in s.born
  {
    var r := Made(s.stored, s.beat.gen, s.beat.definition);
    s.(gen := s.gen + 1, beat := Resting, born := s.born[n := s.births], births := s.births + 1,
       records := s.records[n := r.(cut := Some(s.content), stamp := Some(s.gen + 1), stamped := true,
           status := Some(Ready))],
       retaining := s.retaining[n := None])
  }

  function Redone(s: Sys, h: Name, n: Name): Sys
    requires s.beat.Decided? && n !in s.born
  {
    var t := ReadyAgain(s, n);
    t.(retaining := t.retaining[h := Some(set m | m in t.records && IsReady(t.records[m]))], records := s.records)
  }

  lemma RedoneIsPruned(s: Sys, h: Name, n: Name)
    requires Sound(s) && s.beat.Decided? && n !in s.born
    ensures n !in s.records && Redone(s, h, n) == Pruned(ReadyAgain(s, n), h, n)
  {
    assert ReadyAgain(s, n).records - {n} == s.records;
  }

  /** A pass for `h` has listed what is Ready, and deleted `n`. */
  function Pruned(t: Sys, h: Name, n: Name): Sys {
    t.(retaining := t.retaining[h := Some(set m | m in t.records && IsReady(t.records[m]))], records := t.records - {n})
  }

  lemma FirstCut(s: Sys, n: Name, rest: seq<Action>) returns (actions: seq<Action>)
    requires Sound(s) && s.beat.Decided? && s.beat.idle && n !in s.born
    requires IsRun(ReadyAgain(s, n), rest) && forall a :: a in rest ==> Quiet(a)
    ensures IsRun(s, actions) && actions != [] && actions[0] == Create(n) && forall a :: a in actions ==> Quiet(a)
    ensures IdleCreations(s, actions) == 1 + IdleCreations(ReadyAgain(s, n), rest)
    ensures FailedStamps(actions) == FailedStamps(rest)
  {
    FirstSteps(s, n);
    LastSteps(s, n);
    hide Do, Enabled, IsRun, IdleCreations, Sound, StampedCut, ReadyAgain, FailedStamps;
    var s1, s3 := Do(s, Create(n)), StampedCut(s, n);
    var s2 := Do(s1, Action.Cut(n));
    var one, two, three := [TurnReady(n)] + rest, [Action.Stamp(n)] + ([TurnReady(n)] + rest),
                           [Action.Cut(n)] + ([Action.Stamp(n)] + ([TurnReady(n)] + rest));
    Cons(s3, TurnReady(n), rest);
    Cons(s2, Action.Stamp(n), one);
    Cons(s1, Action.Cut(n), two);
    Cons(s, Create(n), three);
    actions := [Create(n)] + three;
  }

  lemma FirstSteps(s: Sys, n: Name)
    requires Sound(s) && s.beat.Decided? && n !in s.born
    ensures Enabled(s, Create(n)) && Enabled(Do(s, Create(n)), Action.Cut(n))
    ensures CreatedIdle(s, Create(n)) <==> s.beat.idle
    ensures var t := Do(Do(s, Create(n)), Action.Cut(n));
            Enabled(t, Action.Stamp(n)) && Do(t, Action.Stamp(n)) == StampedCut(s, n)
  {
    var t := Do(Do(s, Create(n)), Action.Cut(n));
    assert t.records[n := StampedCut(s, n).records[n]] == StampedCut(s, n).records;
  }

  lemma LastSteps(s: Sys, n: Name)
    requires s.beat.Decided? && n !in s.born
    ensures Enabled(StampedCut(s, n), TurnReady(n)) && Do(StampedCut(s, n), TurnReady(n)) == ReadyAgain(s, n)
  {
    assert StampedCut(s, n).records[n := ReadyAgain(s, n).records[n]] == ReadyAgain(s, n).records;
  }

  function StampedCut(s: Sys, n: Name): Sys
    requires s.beat.Decided? && n !in s.born
  {
    var r := Made(s.stored, s.beat.gen, s.beat.definition);
    s.(gen := s.gen + 1, beat := Resting, born := s.born[n := s.births], births := s.births + 1,
       records := s.records[n := r.(cut := Some(s.content), stamp := Some(s.gen + 1), stamped := true)])
  }

  lemma Pruning(t: Sys, h: Name, n: Name, rest: seq<Action>) returns (actions: seq<Action>)
    requires h in t.retaining && t.retaining[h].None? && h in t.records && n != h
    requires n in t.records && IsReady(t.records[n])
    requires IsRun(Pruned(t, h, n), rest) && forall a :: a in rest ==> Quiet(a)
    ensures IsRun(t, actions) && forall a :: a in actions ==> Quiet(a)
    ensures IdleCreations(t, actions) == IdleCreations(Pruned(t, h, n), rest) &&
        FailedStamps(actions) == FailedStamps(rest)
  {
    hide IsRun, IdleCreations;
    var t1 := Do(t, ListReady(h));
    Cons(t1, Prune(h, n), rest);
    Cons(t, ListReady(h), [Prune(h, n)] + rest);
    actions := [ListReady(h)] + ([Prune(h, n)] + rest);
  }

  lemma SecondBeat(u: Sys, list: seq<(Name, Record)>, next: Name) returns (actions: seq<Action>)
    requires u.beat.Resting? && next !in u.born && NoneInFlight(u) && Lists(u.records, list)
    requires forall m :: m in u.records ==> StampOf(u.records[m]) < u.gen
    ensures IsRun(u, actions) && forall a :: a in actions ==> Quiet(a)
    ensures IdleCreations(u, actions) == 1 && FailedStamps(actions) == 0
  {
    NewestIsHighest(list);
    var u1 := Do(u, Begin);
    var u2 := Do(u1, Look(list));
    var u3 := Do(u2, Read);
    assert u3.beat.Decided?;
    hide NewestRecorded, Lists, Creates;
    Cons(u3, Create(next), []);
    Cons(u2, Read, [Create(next)] + []);
    Cons(u1, Look(list), [Read] + ([Create(next)] + []));
    Cons(u, Begin, [Look(list)] + ([Read] + ([Create(next)] + [])));
    actions := [Begin] + ([Look(list)] + ([Read] + ([Create(next)] + [])));
  }

  // ----- what is on record -----

  /** A sync point of the worktree's present generation holds the live bytes exactly when no write
      landed between its cut and the reading of its stamp. */
  lemma CoveringPointIsCurrent(s: Sys, n: Name)
    requires Inv(s) && Covers(s, n) && s.records[n].stamped
    ensures s.records[n].cut == Some(s.content) <==> !s.records[n].torn
  {
    assert RecordInv(s, n);
  }

  /** What a beat that creates nothing has established, when nothing was in flight as it listed: the
      newest recorded point froze the definition and, unless it was torn, held the bytes of that moment,
      and the generation has not moved since. */
  lemma SkippedMeansCurrent(s: Sys, list: seq<(Name, Record)>, gen: nat)
    requires Inv(s) && Lists(s.records, list) && NoneInFlight(s) && gen >= s.gen
    requires !Creates(list, s.live, gen)
    ensures NewestRecorded(list).Some? && gen == s.gen
    ensures var r := NewestRecorded(list).value.1;
            r.definition == Some(s.live) && (r.cut == Some(s.content) <==> !r.torn)
  {
    NewestIsHighest(list);
    forall x | x in list ensures x.1.status != Some(Working) {
      assert IsReady(s.records[x.0]);
    }
    assert RecordInv(s, NewestRecorded(list).value.0);
  }

  lemma {:induction false} RunKeeps(s: Sys, actions: seq<Action>)
    requires IsRun(s, actions) && Sound(s)
    ensures Sound(Final(s, actions))
    decreases |actions|
  {
    if actions != [] {
      StepKeeps(s, actions[0]);
      ListedKept(s, actions[0]);
      hide Do, Enabled, Inv, ListedReady, NamesBorn;
      RunKeeps(Do(s, actions[0]), actions[1..]);
    }
  }

  /** A worktree never synced. */
  predicate Unsynced(s: Sys) {
    s.records == map[] && s.beat.Resting? && s.retaining == map[] && s.born == map[]
  }

  /** Quiescence of a whole run from there: through any writes, cuts, crashes, beats and retention
      passes, with a created status kept or dropped. Once bytes and definition stand still, at most one
      more sync point is created by beats that listed nothing in flight (one more if a beat under way
      noted an older definition), and one for each unsettling step. If no beat created over a cut in
      flight or before a pass had listed, that bounds all that are created, and only failed re-stamps
      unsettle. */
  lemma Quiescence(s: Sys, before: seq<Action>, after: seq<Action>)
    requires Unsynced(s) && IsRun(s, before) && IsRun(Final(s, before), after)
    requires forall a :: a in after ==> Quiet(a)
    ensures var t := Final(s, before);
            var more := if Stale(t) then 2 else 1;
            && IdleCreations(t, after) <= Unsettlings(t, after) + more
            && (AllGuarded(s, before) && AllGuarded(t, after) ==> Creations(after) <= FailedStamps(after) + more)
  {
    var t := Final(s, before);
    UnsyncedIsSound(s);
    hide Sound, Orderly, Quiet, Do, Enabled;
    RunKeeps(s, before);
    SoundMeans(t);
    AtMostOneMore(t, after);
    if AllGuarded(s, before) && AllGuarded(t, after) {
      GuardedRun(s, before);
      GuardedRun(t, after);
    }
  }

  lemma UnsyncedIsSound(s: Sys)
    requires Unsynced(s)
    ensures Sound(s) && Orderly(s)
  {
  }

  lemma SoundMeans(s: Sys)
    requires Sound(s)
    ensures Inv(s) && ListedReady(s) && NamesBorn(s)
  {
  }
}

/** Waking the peers after a sync cut: at most once a window, however many cuts finish at once. */
module SyncWake {

  /** `last` is the shared atomic; `loaded` what each finishing cut has read of it; `wakes` the times at
      which a wake was claimed. */
  datatype Sys = Sys(last: int, loaded: map<nat, int>, wakes: seq<int>)
  datatype Action = Load(task: nat) | Swap(task: nat, now: int)

  class Clock {
    var last: int

    constructor ()
      ensures last == 0
    {
      last := 0;
    }

    /** `meanwhile` is what another cut stores between this one's load and its exchange. */
    method WakeWorthy(background: bool, now: int, window: nat, meanwhile: int) returns (worthy: bool)
      modifies this
      ensures !background ==> worthy && last == old(last)
      ensures background ==> (worthy <==> now - old(last) >= window && meanwhile == old(last))
      ensures background ==> last == if worthy then now else meanwhile
    {
      if !background {
        return true;
      }
      var prev := last;
      last := meanwhile;
      worthy := now - prev >= window && last == prev;
      if worthy {
        last := now;
      }
    }
  }

  function Do(s: Sys, a: Action, window: nat): Sys {
    match a
    case Load(k) => s.(loaded := s.loaded[k := s.last])
    case Swap(k, now) =>
      if k in s.loaded && now - s.loaded[k] >= window && s.last == s.loaded[k]
      then Sys(now, s.loaded - {k}, s.wakes + [now])
      else s.(loaded := s.loaded - {k})
  }

  function Run(s: Sys, actions: seq<Action>, window: nat): Sys
    decreases |actions|
  {
    if actions == [] then s else Run(Do(s, actions[0], window), actions[1..], window)
  }

  predicate Spaced(s: Sys, window: nat) {
    && (s.wakes != [] ==> s.last == s.wakes[|s.wakes| - 1])
    && forall i :: 0 < i < |s.wakes| ==> s.wakes[i] - s.wakes[i - 1] >= window
  }

  /** Any two wakes are a window apart, whatever the interleaving of the reads and the exchanges. */
  lemma {:induction false} OneWakePerWindow(s: Sys, actions: seq<Action>, window: nat)
    requires Spaced(s, window)
    ensures Spaced(Run(s, actions, window), window)
    decreases |actions|
  {
    if actions != [] {
      OneWakePerWindow(Do(s, actions[0], window), actions[1..], window);
    }
  }
}
