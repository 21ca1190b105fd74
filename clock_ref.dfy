/**
 * The shared clock: five independently stored cells behind shared handles.
 * A clone copies the handles, not the cells, so every clone sees every
 * update. One sequential writer is modelled; the relaxed atomic ordering
 * and torn reads under a concurrent writer are not.
 */
module Clocks {
  import opened Sdk

  /** One `Arc<AtomicU64>` or `Arc<AtomicI64>`: a heap cell shared by every handle to it. */
  class Atomic<T> {
    var value: T

    constructor (v: T)
      ensures value == v
    {
      value := v;
    }

    method Load() returns (v: T)
      ensures v == value
    {
      v := value;
    }

    method Store(v: T)
      modifies this
      ensures value == v
    {
      value := v;
    }
  }

  /** The five fields of a clock, to speak of which of them an update changes. */
  datatype ClockField = Slot | EpochStartTimestamp | Epoch | LeaderScheduleEpoch | UnixTimestamp

  function FieldValue(c: Clock, f: ClockField): int {
    match f
    case Slot => c.slot
    case EpochStartTimestamp => c.epochStartTimestamp
    case Epoch => c.epoch
    case LeaderScheduleEpoch => c.leaderScheduleEpoch
    case UnixTimestamp => c.unixTimestamp
  }

  /** The fields in which two clock readings differ. */
  function ChangedFields(a: Clock, b: Clock): set<ClockField> {
    (if a.slot != b.slot then {Slot} else {})
    + (if a.epochStartTimestamp != b.epochStartTimestamp then {EpochStartTimestamp} else {})
    + (if a.epoch != b.epoch then {Epoch} else {})
    + (if a.leaderScheduleEpoch != b.leaderScheduleEpoch then {LeaderScheduleEpoch} else {})
    + (if a.unixTimestamp != b.unixTimestamp then {UnixTimestamp} else {})
  }

  /** A field is reported changed exactly when its values differ. */
  lemma {:induction false} ChangedFieldsExact(a: Clock, b: Clock)
    ensures forall f :: f in ChangedFields(a, b) <==> FieldValue(a, f) != FieldValue(b, f)
  {
    forall f ensures f in ChangedFields(a, b) <==> FieldValue(a, f) != FieldValue(b, f) {
      match f
      case Slot =>
      case EpochStartTimestamp =>
      case Epoch =>
      case LeaderScheduleEpoch =>
      case UnixTimestamp =>
    }
  }

  const ZERO_CLOCK: Clock := Clock(0, 0, 0, 0, 0)

  class ClockRef {
    const slot: Atomic<u64>
    /** The timestamp of the first slot of the current epoch. */
    const epochStartTimestamp: Atomic<i64>
    /** The current epoch. */
    const epoch: Atomic<u64>
    const leaderScheduleEpoch: Atomic<u64>
    const unixTimestamp: Atomic<i64>

    /** The cells this handle points at (shared with its clones). */
    ghost function Cells(): set<object> {
      {slot as object, epochStartTimestamp, epoch, leaderScheduleEpoch, unixTimestamp}
    }

    /**
     * The five cells are distinct, as the constructors allocate them: the
     * three `u64` cells pairwise and the two `i64` cells here, while a `u64`
     * cell and an `i64` cell differ by their type.
     */
    ghost predicate Valid() {
      slot != epoch && slot != leaderScheduleEpoch && epoch != leaderScheduleEpoch
      && epochStartTimestamp != unixTimestamp
    }

    /** What a reader sees when it loads the five cells now. */
    ghost function Read(): Clock
      reads Cells()
    {
      Clock(slot.value, epochStartTimestamp.value, epoch.value, leaderScheduleEpoch.value, unixTimestamp.value)
    }

    /** `From<Clock>`: five fresh cells holding the reading. */
    constructor FromClock(clock: Clock)
      ensures Valid() && fresh(Cells())
      ensures Read() == clock
    {
      epoch := new Atomic(clock.epoch);
      epochStartTimestamp := new Atomic(clock.epochStartTimestamp);
      leaderScheduleEpoch := new Atomic(clock.leaderScheduleEpoch);
      slot := new Atomic(clock.slot);
      unixTimestamp := new Atomic(clock.unixTimestamp);
    }

    /** The derived `Default`: five fresh cells holding zero. */
    constructor Default()
      ensures Valid() && fresh(Cells())
      ensures Read() == ZERO_CLOCK
    {
      slot := new Atomic(0);
      epochStartTimestamp := new Atomic(0);
      epoch := new Atomic(0);
      leaderScheduleEpoch := new Atomic(0);
      unixTimestamp := new Atomic(0);
    }

    /** The derived `Clone`: a new handle to the same five cells. */
    constructor Clone(other: ClockRef)
      ensures slot == other.slot && epochStartTimestamp == other.epochStartTimestamp
      ensures epoch == other.epoch && leaderScheduleEpoch == other.leaderScheduleEpoch
      ensures unixTimestamp == other.unixTimestamp
      ensures Cells() == other.Cells() && (other.Valid() ==> Valid())
    {
      slot := other.slot;
      epochStartTimestamp := other.epochStartTimestamp;
      epoch := other.epoch;
      leaderScheduleEpoch := other.leaderScheduleEpoch;
      unixTimestamp := other.unixTimestamp;
    }

    /** Overwrites each cell with the matching field of `clock`, in the source's order. */
    method Update(clock: Clock)
      requires Valid()
      modifies Cells()
      ensures Read() == clock
    {
      epoch.Store(clock.epoch);
      slot.Store(clock.slot);
      unixTimestamp.Store(clock.unixTimestamp);
      epochStartTimestamp.Store(clock.epochStartTimestamp);
      leaderScheduleEpoch.Store(clock.leaderScheduleEpoch);
    }
  }

  /** A reader loading the five cells one after another, with no writer in between. */
  method Observe(r: ClockRef) returns (c: Clock)
    ensures c == r.Read()
  {
    var s := r.slot.Load();
    var est := r.epochStartTimestamp.Load();
    var e := r.epoch.Load();
    var lse := r.leaderScheduleEpoch.Load();
    var ts := r.unixTimestamp.Load();
    c := Clock(s, est, e, lse, ts);
  }

  /**
   * Any handle holding the same five cells as `r` (a clone, a clone of a
   * clone) reads back exactly what an update through `r` wrote.
   */
  method UpdateSeenThroughSharedHandle(r: ClockRef, other: ClockRef, clock: Clock)
    requires r.Valid()
    requires other.slot == r.slot && other.epochStartTimestamp == r.epochStartTimestamp
    requires other.epoch == r.epoch && other.leaderScheduleEpoch == r.leaderScheduleEpoch
    requires other.unixTimestamp == r.unixTimestamp
    modifies r.Cells()
    ensures other.Read() == clock && r.Read() == clock
  {
    r.Update(clock);
  }

  /**
   * A clone and its original share their cells: an update through either
   * handle is seen identically through both.
   */
  method CloneObservesUpdate(initial: Clock, next: Clock, throughClone: bool)
    returns (viaOriginal: Clock, viaClone: Clock)
    ensures viaOriginal == next && viaClone == next
  {
    var original := new ClockRef.FromClock(initial);
    var clone := new ClockRef.Clone(original);
    if throughClone {
      clone.Update(next);
    } else {
      original.Update(next);
    }
    viaOriginal := Observe(original);
    viaClone := Observe(clone);
  }

  /** Updating twice with the same reading leaves what updating once leaves. */
  method UpdateIdempotent(initial: Clock, clock: Clock) returns (once: Clock, twice: Clock)
    ensures once == twice == clock
  {
    var a := new ClockRef.FromClock(initial);
    var b := new ClockRef.FromClock(initial);
    a.Update(clock);
    b.Update(clock);
    b.Update(clock);
    once := Observe(a);
    twice := Observe(b);
  }

  /**
   * An update changes exactly the fields in which the new reading differs:
   * the content is `after == clock`; the field-by-field statement follows
   * from it by `ChangedFieldsExact`.
   */
  method UpdateChangesOnlyDiffering(initial: Clock, clock: Clock) returns (before: Clock, after: Clock)
    ensures before == initial && after == clock
    ensures forall f :: FieldValue(after, f) != FieldValue(before, f) <==> f in ChangedFields(initial, clock)
  {
    var r := new ClockRef.FromClock(initial);
    before := Observe(r);
    r.Update(clock);
    after := Observe(r);
    ChangedFieldsExact(initial, clock);
  }

  /** The worked example: a new slot and timestamp, same epoch, change only those two cells. */
  method UpdateExample() returns (before: Clock, after: Clock)
    ensures before == Clock(10, 900, 2, 3, 1000)
    ensures after == Clock(11, 900, 2, 3, 1001)
    ensures ChangedFields(before, after) == {Slot, UnixTimestamp}
  {
    var r := new ClockRef.FromClock(Clock(10, 900, 2, 3, 1000));
    before := Observe(r);
    r.Update(Clock(11, 900, 2, 3, 1001));
    after := Observe(r);
  }

  /** A default handle reads as all zeros. */
  method DefaultIsZero() returns (c: Clock)
    ensures forall f :: FieldValue(c, f) == 0
  {
    var r := new ClockRef.Default();
    c := Observe(r);
  }
}
