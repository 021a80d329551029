/**
 * Leader failover over one shared lease record. Agent ids are ordered as the source orders their strings;
 * here they are numbers in that order.
 */
module Failover {
  import opened Prelude

  type Id = nat

  datatype Lease = Lease(primaryId: Id, at: int, beats: nat)

  /** The fields of one manager. */
  datatype Manager = Manager(primary: bool, beats: nat)

  datatype Outcome = Promoted | Primary | Standby

  /** What one manager does between its load and its save. */
  datatype Decision = Decision(after: Manager, save: Option<Lease>, outcome: Outcome)

  predicate Stale(lease: Option<Lease>, now: int, ttl: int) {
    lease.None? || now - lease.value.at > ttl
  }

  function BeatDecision(id: Id, m: Manager, now: int, outcome: Outcome): Decision {
    Decision(m.(beats := m.beats + 1), Some(Lease(id, now, m.beats + 1)), outcome)
  }

  /** The early return in `acquireLease`: a fresh lease of a lower id. */
  predicate FreshLowerClaim(id: Id, previous: Option<Lease>, now: int, ttl: int) {
    previous.Some? && previous.value.primaryId != id
    && now - previous.value.at <= ttl && previous.value.primaryId < id
  }

  function AcquireDecision(id: Id, m: Manager, previous: Option<Lease>, now: int, ttl: int): Decision {
    if FreshLowerClaim(id, previous, now, ttl) then Decision(m.(primary := false), None, Promoted)
    else BeatDecision(id, Manager(true, 0), now, Promoted)
  }

  function CheckDecision(id: Id, m: Manager, seen: Option<Lease>, now: int, ttl: int): Decision {
    if m.primary then
      if seen.Some? && seen.value.primaryId != id && seen.value.primaryId < id then
        Decision(m.(primary := false), None, Standby)
      else
        BeatDecision(id, m, now, Primary)
    else if Stale(seen, now, ttl) then AcquireDecision(id, m, seen, now, ttl)
    else Decision(m, None, Standby)
  }

  function BootstrapDecision(id: Id, m: Manager, seen: Option<Lease>, now: int, ttl: int): Decision {
    if Stale(seen, now, ttl) then AcquireDecision(id, m, seen, now, ttl)
    else Decision(m.(primary := false), None, Standby)
  }

  /** The guard in `acquireLease` never fires: its callers saw the lease stale, and the clock moves forward. */
  lemma AcquireGuardUnreachable(id: Id, m: Manager, seen: Option<Lease>, now: int, later: int, ttl: int)
    requires now <= later
    requires Stale(seen, now, ttl)
    ensures !FreshLowerClaim(id, seen, later, ttl)
    ensures AcquireDecision(id, m, seen, later, ttl).after.primary
    ensures AcquireDecision(id, m, seen, later, ttl).save == Some(Lease(id, later, 1))
  {
  }

  // ---------------------------------------------------------------- the manager

  class LeaseStore {
    var record: Option<Lease>

    constructor (record: Option<Lease>)
      ensures this.record == record
    {
      this.record := record;
    }

    method Save(lease: Lease)
      modifies this
      ensures record == Some(lease)
    {
      record := Some(lease);
    }

    method Load() returns (lease: Option<Lease>)
      ensures lease == record
    {
      lease := record;
    }
  }

  class FailoverManager {
    const id: Id
    const ttl: int
    const store: LeaseStore
    var primary: bool
    var beats: nat

    constructor (id: Id, ttl: int, store: LeaseStore)
      ensures this.id == id && this.ttl == ttl && this.store == store
      ensures Fields() == Manager(false, 0)
    {
      this.id, this.ttl, this.store := id, ttl, store;
      primary, beats := false, 0;
    }

    function Fields(): Manager
      reads this
    {
      Manager(primary, beats)
    }

    /** Fails, changing nothing, when this manager is not primary. */
    method Beat(now: int) returns (lease: Option<Lease>)
      modifies this`beats, store
      ensures lease.Some? == old(primary)
      ensures lease.None? ==> beats == old(beats) && store.record == old(store.record)
      ensures lease.Some? ==> beats == old(beats) + 1 && store.record == lease == Some(Lease(id, now, beats))
      ensures lease.Some? ==>
        var d := BeatDecision(id, old(Fields()), now, Primary);
        Fields() == d.after && lease == d.save && store.record == d.save
    {
      if !primary {
        return None;
      }
      beats := beats + 1;
      var written := Lease(id, now, beats);
      store.Save(written);
      return Some(written);
    }

    method StepDown()
      modifies this`primary
      ensures !primary
    {
      primary := false;
    }

    method AcquireLease(previous: Option<Lease>, now: int)
      modifies this`primary, this`beats, store
      ensures var d := AcquireDecision(id, old(Fields()), previous, now, ttl);
        Fields() == d.after && store.record == if d.save.Some? then d.save else old(store.record)
    {
      if FreshLowerClaim(id, previous, now, ttl) {
        primary := false;
        return;
      }
      primary := true;
      beats := 0;
      var _ := Beat(now);
    }

    method Bootstrap(now: int) returns (outcome: Outcome)
      modifies this`primary, this`beats, store
      ensures old(store.record).None? || now - old(store.record).value.at > ttl ==>
        primary && beats == 1 && outcome == Promoted && store.record == Some(Lease(id, now, 1))
      ensures old(store.record).Some? && now - old(store.record).value.at <= ttl ==>
        !primary && beats == old(beats) && outcome == Standby && store.record == old(store.record)
      ensures var d := BootstrapDecision(id, old(Fields()), old(store.record), now, ttl);
        && Fields() == d.after && outcome == d.outcome
        && store.record == if d.save.Some? then d.save else old(store.record)
    {
      var lease := store.Load();
      if Stale(lease, now, ttl) {
        AcquireLease(lease, now);
        return Promoted;
      }
      primary := false;
      return Standby;
    }

    method CheckAndFailover(now: int) returns (outcome: Outcome)
      modifies this`primary, this`beats, store
      ensures old(primary) && old(store.record).Some? && old(store.record).value.primaryId < id ==>
        !primary && beats == old(beats) && outcome == Standby && store.record == old(store.record)
      ensures old(primary) && (old(store.record).Some? ==> id <= old(store.record).value.primaryId) ==>
        primary && beats == old(beats) + 1 && outcome == Primary && store.record == Some(Lease(id, now, beats))
      ensures !old(primary) && (old(store.record).None? || now - old(store.record).value.at > ttl) ==>
        primary && beats == 1 && outcome == Promoted && store.record == Some(Lease(id, now, 1))
      ensures !old(primary) && old(store.record).Some? && now - old(store.record).value.at <= ttl ==>
        !primary && beats == old(beats) && outcome == Standby && store.record == old(store.record)
      ensures var d := CheckDecision(id, old(Fields()), old(store.record), now, ttl);
        && Fields() == d.after && outcome == d.outcome
        && store.record == if d.save.Some? then d.save else old(store.record)
    {
      var lease := store.Load();
      if primary {
        if lease.Some? && lease.value.primaryId != id && lease.value.primaryId < id {
          StepDown();
          return Standby;
        }
        var _ := Beat(now);
        return Primary;
      }
      if Stale(lease, now, ttl) {
        AcquireLease(lease, now);
        return Promoted;
      }
      return Standby;
    }
  }

  // ---------------------------------------------------------------- a check, in so many words

  /** A standby that reads no record, or one older than the TTL, takes the lease; within the TTL it saves nothing. */
  lemma StandbyTakesOverIff(id: Id, m: Manager, seen: Option<Lease>, now: int, ttl: int)
    requires !m.primary
    ensures var d := CheckDecision(id, m, seen, now, ttl);
      if seen.None? || now - seen.value.at > ttl
      then d == Decision(Manager(true, 1), Some(Lease(id, now, 1)), Promoted)
      else d == Decision(m, None, Standby)
  {
  }

  /** A primary that reads a lower id steps down; otherwise it beats once more. */
  lemma PrimaryStepsDownIff(id: Id, m: Manager, seen: Option<Lease>, now: int, ttl: int)
    requires m.primary
    ensures var d := CheckDecision(id, m, seen, now, ttl);
      if seen.Some? && seen.value.primaryId < id
      then d == Decision(Manager(false, m.beats), None, Standby)
      else d == Decision(Manager(true, m.beats + 1), Some(Lease(id, now, m.beats + 1)), Primary)
  {
  }

  /** At startup, before a manager is primary, bootstrapping decides as a check does. */
  lemma BootstrapIsACheckWhileStandby(id: Id, m: Manager, seen: Option<Lease>, now: int, ttl: int)
    requires !m.primary
    ensures BootstrapDecision(id, m, seen, now, ttl) == CheckDecision(id, m, seen, now, ttl)
  {
  }

  // ---------------------------------------------------------------- interleaved managers

  /** An operation suspended at an await: it has read the record, or it is about to write it. */
  datatype Op = Loaded(id: Id, seen: Option<Lease>) | Saving(id: Id, lease: Lease)

  /** `promoted` remembers every manager that ever became primary. */
  datatype World = World(
    store: Option<Lease>, managers: map<Id, Manager>, ops: multiset<Op>, now: int, promoted: set<Id>)

  datatype Step =
    | Load(id: Id)             // start a check: the read of the record
    | Resume(op: Op)           // the check goes on after its read
    | Land(op: Op)             // a write of the record reaches the store
    | Heartbeat(id: Id)        // the heartbeat timer of a primary fires
    | Tick(elapsed: nat)

  predicate Enabled(w: World, step: Step) {
    match step
    case Load(id) => id in w.managers
    case Resume(op) => op in w.ops && op.Loaded? && op.id in w.managers
    case Land(op) => op in w.ops && op.Saving?
    case Heartbeat(id) => id in w.managers && w.managers[id].primary
    case Tick(_) => true
  }

  function Decide(w: World, id: Id, d: Decision): World {
    w.(managers := w.managers[id := d.after],
       ops := if d.save.Some? then w.ops + multiset{Saving(id, d.save.value)} else w.ops,
       promoted := if d.after.primary then w.promoted + {id} else w.promoted)
  }

  function Next(w: World, step: Step, ttl: int): World
    requires Enabled(w, step)
  {
    match step
    case Load(id) => w.(ops := w.ops + multiset{Loaded(id, w.store)})
    case Resume(op) =>
      Decide(w.(ops := w.ops - multiset{op}), op.id, CheckDecision(op.id, w.managers[op.id], op.seen, w.now, ttl))
    case Land(op) => w.(ops := w.ops - multiset{op}, store := Some(op.lease))
    case Heartbeat(id) => Decide(w, id, BeatDecision(id, w.managers[id], w.now, Primary))
    case Tick(elapsed) => w.(now := w.now + elapsed)
  }

  predicate ValidRun(w: World, steps: seq<Step>, ttl: int)
    decreases |steps|
  {
    steps == [] || (Enabled(w, steps[0]) && ValidRun(Next(w, steps[0], ttl), steps[1..], ttl))
  }

  function Run(w: World, steps: seq<Step>, ttl: int): World
    requires ValidRun(w, steps, ttl)
    decreases |steps|
  {
    if steps == [] then w else Run(Next(w, steps[0], ttl), steps[1..], ttl)
  }

  /** Startup: nobody is primary and nothing is in flight; the record may be left over from an earlier life. */
  ghost predicate Initial(w: World) {
    && w.ops == multiset{} && w.promoted == {}
    && (forall id :: id in w.managers ==> !w.managers[id].primary)
    && (w.store.Some? ==> w.store.value.at <= w.now)
  }

  function Owner(lease: Option<Lease>): set<Id> { if lease.Some? then {lease.value.primaryId} else {} }

  predicate Lowest(id: Id, ids: set<Id>) { id in ids && forall other :: other in ids ==> id <= other }

  ghost predicate RecordOk(lease: Lease, w: World, before: set<Id>) {
    lease.primaryId in w.promoted + before && lease.at <= w.now
  }

  /** `before` holds the id in the record found at startup, if there was one. */
  ghost predicate RecordsOk(w: World, before: set<Id>) {
    && (w.store.Some? ==> RecordOk(w.store.value, w, before))
    && (forall op :: op in w.ops && op.Loaded? && op.seen.Some? ==> RecordOk(op.seen.value, w, before))
    && (forall op :: op in w.ops && op.Saving? ==> RecordOk(op.lease, w, before))
  }

  ghost predicate PrimariesOk(w: World, before: set<Id>) {
    && (forall id :: id in w.managers && w.managers[id].primary ==> id in w.promoted)
    && (forall id :: id in w.promoted ==> id in w.managers)
    && (forall id :: id in w.promoted && Lowest(id, w.promoted + before) ==> w.managers[id].primary)
    && (w.promoted != {} ==> w.store.Some? || exists op :: op in w.ops && op.Saving?)
  }

  ghost predicate Inv(w: World, before: set<Id>) { RecordsOk(w, before) && PrimariesOk(w, before) }

  lemma StepKeepsInv(w: World, step: Step, ttl: int, before: set<Id>)
    requires Enabled(w, step) && Inv(w, before)
    ensures Inv(Next(w, step, ttl), before)
  {
    match step {
      case Load(id) =>
        LoadKeepsInv(w, id, before);
      case Resume(op) =>
        var d := CheckDecision(op.id, w.managers[op.id], op.seen, w.now, ttl);
        DecideKeepsInv(w, w.(ops := w.ops - multiset{op}), op.id, d, before, op.seen);
      case Land(op) =>
        LandKeepsInv(w, op, before);
      case Heartbeat(id) =>
        DecideKeepsInv(w, w, id, BeatDecision(id, w.managers[id], w.now, Primary), before, None);
      case Tick(_) =>
    }
  }

  lemma LoadKeepsInv(w: World, id: Id, before: set<Id>)
    requires Inv(w, before)
    ensures Inv(w.(ops := w.ops + multiset{Loaded(id, w.store)}), before)
  {
    KeepsSaving(w, w.(ops := w.ops + multiset{Loaded(id, w.store)}));
  }

  lemma LandKeepsInv(w: World, op: Op, before: set<Id>)
    requires Inv(w, before) && op in w.ops && op.Saving?
    ensures Inv(w.(ops := w.ops - multiset{op}, store := Some(op.lease)), before)
  {
  }

  lemma KeepsSaving(w: World, after: World)
    requires forall op :: op in w.ops && op.Saving? ==> op in after.ops
    ensures (exists op :: op in w.ops && op.Saving?) ==> exists op :: op in after.ops && op.Saving?
  {
  }

  /** The only way to lose the primary role is to have seen a record of a lower id. */
  predicate Lawful(w: World, id: Id, d: Decision, seen: Option<Lease>) {
    && id in w.managers
    && (d.save.Some? <==> d.after.primary)
    && (d.save.Some? ==> d.save.value.primaryId == id && d.save.value.at == w.now)
    && (!d.after.primary && w.managers[id].primary ==> seen.Some? && seen.value.primaryId < id)
  }

  lemma DecideKeepsRecords(w: World, mid: World, id: Id, d: Decision, before: set<Id>, seen: Option<Lease>)
    requires RecordsOk(w, before) && Lawful(w, id, d, seen)
    requires mid == w.(ops := mid.ops) && mid.ops <= w.ops
    ensures RecordsOk(Decide(mid, id, d), before)
  {
  }

  lemma DecideKeepsPrimaries(w: World, mid: World, id: Id, d: Decision, before: set<Id>, seen: Option<Lease>)
    requires Inv(w, before) && Lawful(w, id, d, seen)
    requires mid == w.(ops := mid.ops) && forall op :: op in w.ops && op.Saving? ==> op in mid.ops
    requires seen.Some? ==> RecordOk(seen.value, w, before)
    ensures PrimariesOk(Decide(mid, id, d), before)
  {
    var after := Decide(mid, id, d);
    KeepsSaving(w, after);
    if d.save.Some? {
      assert Saving(id, d.save.value) in after.ops;
    }
    assert !d.after.primary ==> after.promoted + before == w.promoted + before;
    forall other | other in after.promoted && Lowest(other, after.promoted + before)
      ensures after.managers[other].primary
    {
      if other != id {
        assert Lowest(other, w.promoted + before);
      }
    }
  }

  lemma DecideKeepsInv(w: World, mid: World, id: Id, d: Decision, before: set<Id>, seen: Option<Lease>)
    requires Inv(w, before) && Lawful(w, id, d, seen)
    requires mid == w.(ops := mid.ops) && mid.ops <= w.ops
    requires forall op :: op in w.ops && op.Saving? ==> op in mid.ops
    requires seen.Some? ==> RecordOk(seen.value, w, before)
    ensures Inv(Decide(mid, id, d), before)
  {
    DecideKeepsRecords(w, mid, id, d, before, seen);
    DecideKeepsPrimaries(w, mid, id, d, before, seen);
  }

  lemma {:induction false} RunKeepsInv(w: World, steps: seq<Step>, ttl: int, before: set<Id>)
    requires ValidRun(w, steps, ttl) && Inv(w, before)
    ensures Inv(Run(w, steps, ttl), before)
    decreases |steps|
  {
    if steps != [] {
      StepKeepsInv(w, steps[0], ttl, before);
      RunKeepsInv(Next(w, steps[0], ttl), steps[1..], ttl, before);
    }
  }

  /**
   * In every interleaving of loads, saves and heartbeats, the lowest id that ever promoted is primary,
   * unless the record found at startup names a lower one.
   */
  lemma LowestPromotedStaysPrimary(w: World, steps: seq<Step>, ttl: int, id: Id)
    requires Initial(w) && ValidRun(w, steps, ttl)
    ensures var end := Run(w, steps, ttl);
      id in end.promoted && Lowest(id, end.promoted + Owner(w.store)) ==>
        id in end.managers && end.managers[id].primary
  {
    RunKeepsInv(w, steps, ttl, Owner(w.store));
  }

  lemma {:induction false} LowestExists(ids: set<Id>) returns (id: Id)
    requires ids != {}
    ensures Lowest(id, ids)
  {
    id :| id in ids;
    if ids != {id} {
      var other := LowestExists(ids - {id});
      assert forall x :: x in ids ==> x == id || x in ids - {id};
      id := if other < id then other else id;
    } else {
      assert forall x :: x in ids ==> x == id;
    }
  }

  lemma {:induction false} RunKeepsManagers(w: World, steps: seq<Step>, ttl: int)
    requires ValidRun(w, steps, ttl)
    ensures Run(w, steps, ttl).managers.Keys == w.managers.Keys
    decreases |steps|
  {
    if steps != [] {
      StepKeepsManagers(w, steps[0], ttl);
      RunKeepsManagers(Next(w, steps[0], ttl), steps[1..], ttl);
    }
  }

  lemma StepKeepsManagers(w: World, step: Step, ttl: int)
    requires Enabled(w, step)
    ensures Next(w, step, ttl).managers.Keys == w.managers.Keys
  {
  }

  ghost predicate SomebodyIsPrimary(w: World) {
    exists id :: id in w.managers && w.managers[id].primary
  }

  /** The record found at startup names nobody below a manager. */
  ghost predicate NoLowerRecord(w: World) {
    w.store.Some? ==> forall m :: m in w.managers ==> m <= w.store.value.primaryId
  }

  lemma TieBreaksLeaveAPrimary(w: World, steps: seq<Step>, ttl: int)
    requires Initial(w) && NoLowerRecord(w)
    requires ValidRun(w, steps, ttl) && Run(w, steps, ttl).promoted != {}
    ensures SomebodyIsPrimary(Run(w, steps, ttl))
  {
    var end := Run(w, steps, ttl);
    RunKeepsInv(w, steps, ttl, Owner(w.store));
    RunKeepsManagers(w, steps, ttl);
    var id := LowestExists(end.promoted);
    assert id in w.managers;
    assert Lowest(id, end.promoted + Owner(w.store));
    LowestPromotedStaysPrimary(w, steps, ttl, id);
  }

  lemma RunCons(w: World, step: Step, rest: seq<Step>, ttl: int)
    requires Enabled(w, step) && ValidRun(Next(w, step, ttl), rest, ttl)
    ensures ValidRun(w, [step] + rest, ttl)
    ensures Run(w, [step] + rest, ttl) == Run(Next(w, step, ttl), rest, ttl)
  {
    assert ([step] + rest)[1..] == rest;
  }

  /** Nobody is primary, and a manager has two checks in flight that both read a stale record of a lower id. */
  ghost predicate TwoChecksInFlight(w: World, m: Id, op: Op, ttl: int) {
    && m in w.managers && op.Loaded? && op.id == m && 2 <= w.ops[op]
    && op.seen.Some? && op.seen.value.primaryId < m && Stale(op.seen, w.now, ttl)
    && !SomebodyIsPrimary(w)
  }

  lemma FirstCheckPromotes(w: World, m: Id, op: Op, ttl: int)
    requires TwoChecksInFlight(w, m, op, ttl)
    ensures Enabled(w, Resume(op))
    ensures var next := Next(w, Resume(op), ttl);
      && op in next.ops && m in next.managers && next.managers[m].primary && m in next.promoted
      && forall id :: id in next.managers && next.managers[id].primary ==> id == m
  {
  }

  lemma SecondCheckDeposes(w: World, m: Id, op: Op, ttl: int)
    requires op in w.ops && op.Loaded? && op.id == m && op.seen.Some? && op.seen.value.primaryId < m
    requires m in w.managers && w.managers[m].primary && m in w.promoted
    requires forall id :: id in w.managers && w.managers[id].primary ==> id == m
    ensures Enabled(w, Resume(op))
    ensures !SomebodyIsPrimary(Next(w, Resume(op), ttl)) && m in Next(w, Resume(op), ttl).promoted
  {
  }

  /** A startup record of an id below some manager lets two overlapping checks of it leave nobody primary. */
  lemma LowerRecordCanDeposeTheOnlyPrimary(w: World, m: Id, ttl: int) returns (steps: seq<Step>)
    requires Initial(w) && m in w.managers && w.store.Some? && w.store.value.primaryId < m
    ensures ValidRun(w, steps, ttl)
    ensures m in Run(w, steps, ttl).promoted && !SomebodyIsPrimary(Run(w, steps, ttl))
  {
    var wait := Max(0, w.store.value.at + ttl + 1 - w.now);
    var op := Loaded(m, w.store);
    var w1 := Next(w, Tick(wait), ttl);
    var w2 := Next(w1, Load(m), ttl);
    var w3 := Next(w2, Load(m), ttl);
    FirstCheckPromotes(w3, m, op, ttl);
    var w4 := Next(w3, Resume(op), ttl);
    SecondCheckDeposes(w4, m, op, ttl);
    RunCons(w4, Resume(op), [], ttl);
    steps := [Resume(op)] + [];
    RunCons(w3, Resume(op), steps, ttl);
    steps := [Resume(op)] + steps;
    RunCons(w2, Load(m), steps, ttl);
    steps := [Load(m)] + steps;
    RunCons(w1, Load(m), steps, ttl);
    steps := [Load(m)] + steps;
    RunCons(w, Tick(wait), steps, ttl);
    steps := [Tick(wait)] + steps;
  }

  ghost predicate TieBreaksAlwaysLeaveAPrimary(w: World, ttl: int) {
    forall steps :: ValidRun(w, steps, ttl) && Run(w, steps, ttl).promoted != {} ==> SomebodyIsPrimary(Run(w, steps, ttl))
  }

  /**
   * In every run from startup somebody is primary once somebody promoted, exactly when the record found at startup
   * names nobody below a manager.
   */
  lemma TieBreaksAlwaysLeaveAPrimaryIff(w: World, ttl: int)
    requires Initial(w)
    ensures TieBreaksAlwaysLeaveAPrimary(w, ttl) <==> NoLowerRecord(w)
  {
    if NoLowerRecord(w) {
      forall steps | ValidRun(w, steps, ttl) && Run(w, steps, ttl).promoted != {}
        ensures SomebodyIsPrimary(Run(w, steps, ttl))
      {
        TieBreaksLeaveAPrimary(w, steps, ttl);
      }
    } else {
      var m :| m in w.managers && w.store.value.primaryId < m;
      var steps := LowerRecordCanDeposeTheOnlyPrimary(w, m, ttl);
      assert Run(w, steps, ttl).promoted != {};
    }
  }

  // ---------------------------------------------------------------- atomic checks

  datatype Cluster = Cluster(store: Option<Lease>, managers: map<Id, Manager>)

  function AtomicCheck(c: Cluster, id: Id, now: int, ttl: int): Cluster
    requires id in c.managers
  {
    var d := CheckDecision(id, c.managers[id], c.store, now, ttl);
    Cluster(if d.save.Some? then d.save else c.store, c.managers[id := d.after])
  }

  function AtomicBeat(c: Cluster, id: Id, now: int): Cluster
    requires id in c.managers && c.managers[id].primary
  {
    var d := BeatDecision(id, c.managers[id], now, Primary);
    Cluster(d.save, c.managers[id := d.after])
  }

  /** An atomic check is a load, its resumption and the landing of its write, with nothing in between. */
  lemma AtomicCheckIsThreeSteps(w: World, id: Id, ttl: int)
    requires id in w.managers
    ensures var d := CheckDecision(id, w.managers[id], w.store, w.now, ttl);
      var op := Loaded(id, w.store);
      var steps := [Load(id), Resume(op)] + if d.save.Some? then [Land(Saving(id, d.save.value))] else [];
      && ValidRun(w, steps, ttl)
      && var end := Run(w, steps, ttl);
         Cluster(end.store, end.managers) == AtomicCheck(Cluster(w.store, w.managers), id, w.now, ttl)
         && end.ops == w.ops
  {
    var d := CheckDecision(id, w.managers[id], w.store, w.now, ttl);
    var op := Loaded(id, w.store);
    var tail := if d.save.Some? then [Land(Saving(id, d.save.value))] else [];
    var w1 := Next(w, Load(id), ttl);
    var w2 := Next(w1, Resume(op), ttl);
    assert w1.ops - multiset{op} == w.ops;
    if d.save.Some? {
      RunCons(w2, Land(Saving(id, d.save.value)), [], ttl);
      assert tail == tail + [];
    }
    RunCons(w1, Resume(op), tail, ttl);
    RunCons(w, Load(id), [Resume(op)] + tail, ttl);
    assert [Load(id), Resume(op)] + tail == [Load(id)] + ([Resume(op)] + tail);
  }

  datatype Timed = Check(id: Id, at: int) | BeatAt(id: Id, at: int)

  /** A cluster with the time of each manager's last heartbeat. */
  datatype Beating = Beating(cluster: Cluster, last: map<Id, int>)

  predicate IsPrimary(c: Cluster, id: Id) { id in c.managers && c.managers[id].primary }

  /** Every primary's last heartbeat is at most the TTL old. */
  ghost predicate BeatsInTime(b: Beating, at: int, ttl: int) {
    forall id :: IsPrimary(b.cluster, id) ==> id in b.last && at - b.last[id] <= ttl
  }

  /** A check that leaves its manager primary has beaten; so has a heartbeat. */
  function AtomicNext(b: Beating, step: Timed, ttl: int): Beating
    requires step.id in b.cluster.managers && (step.BeatAt? ==> b.cluster.managers[step.id].primary)
  {
    match step
    case Check(id, at) =>
      var after := AtomicCheck(b.cluster, id, at, ttl);
      Beating(after, if IsPrimary(after, id) then b.last[id := at] else b.last)
    case BeatAt(id, at) => Beating(AtomicBeat(b.cluster, id, at), b.last[id := at])
  }

  ghost predicate TimelyRun(b: Beating, steps: seq<Timed>, ttl: int)
    decreases |steps|
  {
    steps != [] ==>
      && steps[0].id in b.cluster.managers && (steps[0].BeatAt? ==> b.cluster.managers[steps[0].id].primary)
      && BeatsInTime(b, steps[0].at, ttl)
      && TimelyRun(AtomicNext(b, steps[0], ttl), steps[1..], ttl)
  }

  ghost function AtomicRun(b: Beating, steps: seq<Timed>, ttl: int): Beating
    requires TimelyRun(b, steps, ttl)
    decreases |steps|
  {
    if steps == [] then b else AtomicRun(AtomicNext(b, steps[0], ttl), steps[1..], ttl)
  }

  /** Any primary is the one the record names, since its last heartbeat: so there is at most one. */
  ghost predicate LeaseNamesThePrimary(b: Beating) {
    forall id :: IsPrimary(b.cluster, id) ==>
      && b.cluster.store.Some? && b.cluster.store.value.primaryId == id
      && id in b.last && b.cluster.store.value.at == b.last[id]
  }

  /** While somebody is primary and beats in time the record is fresh. */
  lemma TimelyBeatsKeepTheRecordFresh(b: Beating, id: Id, at: int, ttl: int)
    requires LeaseNamesThePrimary(b) && BeatsInTime(b, at, ttl) && IsPrimary(b.cluster, id)
    ensures !Stale(b.cluster.store, at, ttl)
  {
  }

  lemma StepKeepsTheOnlyPrimary(b: Beating, step: Timed, ttl: int)
    requires step.id in b.cluster.managers && (step.BeatAt? ==> b.cluster.managers[step.id].primary)
    requires BeatsInTime(b, step.at, ttl) && LeaseNamesThePrimary(b)
    ensures LeaseNamesThePrimary(AtomicNext(b, step, ttl))
  {
    var after := AtomicNext(b, step, ttl);
    assert b.cluster.managers[step.id].primary <==> IsPrimary(b.cluster, step.id);
    forall id | IsPrimary(after.cluster, id)
      ensures after.cluster.store.Some? && after.cluster.store.value.primaryId == id
      ensures id in after.last && after.cluster.store.value.at == after.last[id]
    {
      if id != step.id {
        assert IsPrimary(b.cluster, id);
        TimelyBeatsKeepTheRecordFresh(b, id, step.at, ttl);
      }
    }
  }

  /** With atomic checks and every primary beating in time, at most one manager is primary, and the lease names it. */
  lemma {:induction false} AtMostOnePrimary(b: Beating, steps: seq<Timed>, ttl: int)
    requires TimelyRun(b, steps, ttl) && LeaseNamesThePrimary(b)
    ensures LeaseNamesThePrimary(AtomicRun(b, steps, ttl))
    decreases |steps|
  {
    if steps != [] {
      StepKeepsTheOnlyPrimary(b, steps[0], ttl);
      AtMostOnePrimary(AtomicNext(b, steps[0], ttl), steps[1..], ttl);
    }
  }

  /** A crashed primary is replaced by the first check of any standby past the TTL, and by none before. */
  lemma DeadPrimaryIsReplacedIff(c: Cluster, id: Id, now: int, ttl: int)
    requires id in c.managers && !c.managers[id].primary && c.store.Some?
    ensures var after := AtomicCheck(c, id, now, ttl);
      && (after.managers[id].primary <==> now > c.store.value.at + ttl)
      && after.store == (if now > c.store.value.at + ttl then Some(Lease(id, now, 1)) else c.store)
  {
    StandbyTakesOverIff(id, c.managers[id], c.store, now, ttl);
  }

  // ---------------------------------------------------------------- one round of checks

  function Round(c: Cluster, ids: seq<Id>, times: seq<int>, ttl: int): Cluster
    requires |ids| == |times| && forall i :: 0 <= i < |ids| ==> ids[i] in c.managers
    decreases |ids|
  {
    if ids == [] then c else Round(AtomicCheck(c, ids[0], times[0], ttl), ids[1..], times[1..], ttl)
  }

  predicate Ascending(ids: seq<Id>) { forall i, j :: 0 <= i < j < |ids| ==> ids[i] < ids[j] }

  /** Checks at nondecreasing times, all within the TTL of time `from`. */
  predicate Within(times: seq<int>, from: int, ttl: int) {
    && (forall i, j :: 0 <= i < j < |times| ==> times[i] <= times[j])
    && forall i :: 0 <= i < |times| ==> from <= times[i] <= from + ttl
  }

  ghost predicate OnlyPrimary(c: Cluster, id: Id) {
    && c.store.Some? && c.store.value.primaryId == id
    && forall m :: m in c.managers ==> (c.managers[m].primary <==> m == id)
  }

  /** Above a lower fresh lease every check leaves a standby. */
  lemma {:induction false} SweepAbove(c: Cluster, ids: seq<Id>, times: seq<int>, ttl: int, p: Id)
    requires |ids| == |times| && forall i :: 0 <= i < |ids| ==> ids[i] in c.managers && p < ids[i]
    requires c.store.Some? && c.store.value.primaryId == p && Within(times, c.store.value.at, ttl)
    ensures var end := Round(c, ids, times, ttl);
      && end.store == c.store && end.managers.Keys == c.managers.Keys
      && forall m :: m in c.managers ==>
           end.managers[m].primary == (c.managers[m].primary && m !in ids)
    decreases |ids|
  {
    if ids != [] {
      var next := AtomicCheck(c, ids[0], times[0], ttl);
      SweepAbove(next, ids[1..], times[1..], ttl, p);
      forall m | m in c.managers
        ensures Round(c, ids, times, ttl).managers[m].primary == (c.managers[m].primary && m !in ids)
      {
        assert m in ids <==> m == ids[0] || m in ids[1..];
      }
    }
  }

  /** Below a fresh lease, standbys stay as they are until the lowest primary claims the lease. */
  lemma {:induction false} FreshRound(c: Cluster, ids: seq<Id>, times: seq<int>, ttl: int, p: Id)
    requires |ids| == |times| && Ascending(ids) && p in ids
    requires forall i :: 0 <= i < |ids| ==> ids[i] in c.managers
    requires c.store.Some? && p <= c.store.value.primaryId && Within(times, c.store.value.at, ttl)
    requires forall m :: m in c.managers && c.managers[m].primary ==> m in ids && p <= m
    requires c.managers[p].primary
    ensures OnlyPrimary(Round(c, ids, times, ttl), p)
    decreases |ids|
  {
    var next := AtomicCheck(c, ids[0], times[0], ttl);
    if ids[0] == p {
      assert next.store == Some(Lease(p, times[0], c.managers[p].beats + 1));
      SweepAbove(next, ids[1..], times[1..], ttl, p);
    } else {
      assert ids[0] < p by {
        var i :| 0 <= i < |ids| && ids[i] == p;
      }
      assert next.store == c.store;
      FreshRound(next, ids[1..], times[1..], ttl, p);
    }
  }

  /** On a stale lease the lowest manager takes over. */
  lemma StaleRound(c: Cluster, ids: seq<Id>, times: seq<int>, ttl: int)
    requires |ids| == |times| && Ascending(ids) && ids != []
    requires forall m :: m in c.managers <==> m in ids
    requires Stale(c.store, times[0], ttl) && Within(times, times[0], ttl)
    requires c.store.Some? ==> ids[0] <= c.store.value.primaryId
    ensures OnlyPrimary(Round(c, ids, times, ttl), ids[0]) && Round(c, ids, times, ttl).store.value.at == times[0]
  {
    var next := AtomicCheck(c, ids[0], times[0], ttl);
    assert next.store.Some? && next.store.value.primaryId == ids[0] && next.store.value.at == times[0];
    SweepAbove(next, ids[1..], times[1..], ttl, ids[0]);
  }

  /**
   * From any reachable state, one round of checks in ascending id order leaves exactly one primary, named by the
   * lease: the lowest that promoted if the lease stays within the TTL throughout, the lowest manager if at the first
   * check there is none or it is older; that manager's own record is then the one saved. Writes may be in flight, and
   * there may have been a record at startup, as long as it names nobody below the lowest.
   */
  lemma OneRoundElectsOnePrimary(w: World, steps: seq<Step>, ttl: int, ids: seq<Id>, times: seq<int>, p: Id)
    requires Initial(w) && ValidRun(w, steps, ttl)
    requires var end := Run(w, steps, ttl);
      && p in end.promoted && Lowest(p, end.promoted + Owner(w.store))
      && Ascending(ids) && (forall m :: m in end.managers <==> m in ids)
      && |ids| == |times|
    ensures var end := Run(w, steps, ttl);
      var c := Cluster(end.store, end.managers);
      && ids != []
      && (c.store.Some? && Within(times, c.store.value.at, ttl) ==> OnlyPrimary(Round(c, ids, times, ttl), p))
      && ((c.store.None? || times[0] - c.store.value.at > ttl) && Within(times, times[0], ttl) ==>
            && OnlyPrimary(Round(c, ids, times, ttl), ids[0])
            && Round(c, ids, times, ttl).store.value.at == times[0])
  {
    var end := Run(w, steps, ttl);
    var c := Cluster(end.store, end.managers);
    RunKeepsInv(w, steps, ttl, Owner(w.store));
    assert p in end.managers;
    if c.store.Some? && Within(times, c.store.value.at, ttl) {
      FreshRound(c, ids, times, ttl, p);
    }
    if (c.store.None? || times[0] - c.store.value.at > ttl) && Within(times, times[0], ttl) {
      assert ids[0] <= p;
      StaleRound(c, ids, times, ttl);
    }
  }
}
