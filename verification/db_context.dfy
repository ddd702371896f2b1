/**
 * The audit-timestamp pass of the product database context: before every
 * save, each tracked entry whose entity is a base entity and whose state is
 * Added or Modified has its UpdatedAt set to the current time, and an Added
 * one its CreatedAt as well.
 */
module DbContext {
  import opened Common

  /** The change-tracker state of an entry. */
  datatype EntityState = Detached | Unchanged | Deleted | Modified | Added

  /**
   * A tracked entity: either one deriving from the timestamped base entity,
   * or any other entity. `fields` stands for everything else it holds.
   */
  datatype Entity =
    | BaseEntity(createdAt: Time, updatedAt: Option<Time>, fields: map<string, string>)
    | OtherEntity(fields: map<string, string>)

  /** A change-tracker entry: the entity and its state. */
  datatype EntityEntry = EntityEntry(state: EntityState, entity: Entity)

  /**
   * The two clock readings the pass makes for one entry: the one written to
   * UpdatedAt, then the one written to CreatedAt (taken only for Added entries).
   */
  datatype ClockReading = ClockReading(updated: Time, created: Time)

  /** The entries the pass selects: base entities that are Added or Modified. */
  predicate Stampable(e: EntityEntry)
  {
    e.entity.BaseEntity? && (e.state == Added || e.state == Modified)
  }

  /** What the pass must never change: the state, the kind of entity and its other fields. */
  function Untimed(e: EntityEntry): (EntityState, bool, map<string, string>)
  {
    (e.state, e.entity.BaseEntity?, e.entity.fields)
  }

  /** One entry after the pass, given the clock readings for it. */
  function Stamp(e: EntityEntry, r: ClockReading): (s: EntityEntry)
    ensures Untimed(s) == Untimed(e)
    ensures !Stampable(e) ==> s == e
    ensures Stampable(e) ==> s.entity.BaseEntity? && s.entity.updatedAt == Some(r.updated)
    ensures Stampable(e) ==> s.entity.BaseEntity? && s.entity.createdAt == (if e.state == Added then r.created else e.entity.createdAt)
  {
    if !Stampable(e) then e
    else
      var created := if e.state == Added then r.created else e.entity.createdAt;
      EntityEntry(e.state, BaseEntity(created, Some(r.updated), e.entity.fields))
  }

  /** All entries after the pass, entry `i` stamped with readings `rs[i]`. */
  function StampAll(es: seq<EntityEntry>, rs: seq<ClockReading>): (r: seq<EntityEntry>)
    requires |rs| == |es|
    ensures |r| == |es|
    ensures forall i :: 0 <= i < |es| ==> Untimed(r[i]) == Untimed(es[i])
    ensures forall i :: 0 <= i < |es| && !Stampable(es[i]) ==> r[i] == es[i]
    ensures forall i :: 0 <= i < |es| && Stampable(es[i]) ==>
              r[i].entity.BaseEntity? && r[i].entity.updatedAt == Some(rs[i].updated)
    ensures forall i :: 0 <= i < |es| && Stampable(es[i]) && es[i].state == Added ==>
              r[i].entity.BaseEntity? && r[i].entity.createdAt == rs[i].created
    ensures forall i :: 0 <= i < |es| && Stampable(es[i]) && es[i].state == Modified ==>
              r[i].entity.BaseEntity? && r[i].entity.createdAt == es[i].entity.createdAt
  {
    seq(|es|, i requires 0 <= i < |es| => Stamp(es[i], rs[i]))
  }

  /** The pass selects the same entries after it has run: it never changes a state or the kind of entity. */
  lemma StampKeepsSelection(e: EntityEntry, r: ClockReading)
    ensures Stampable(Stamp(e, r)) == Stampable(e)
  {
  }

  /**
   * Running the pass twice with the same readings is the same as running it
   * once: a second save with the same clock writes nothing new.
   */
  lemma StampAllIdempotent(es: seq<EntityEntry>, rs: seq<ClockReading>)
    requires |rs| == |es|
    ensures StampAll(StampAll(es, rs), rs) == StampAll(es, rs)
  {
    var once := StampAll(es, rs);
    forall i | 0 <= i < |es|
      ensures StampAll(once, rs)[i] == once[i]
    {
      StampKeepsSelection(es[i], rs[i]);
    }
  }

  /**
   * With a single clock reading `now` for every entry, every selected entry
   * ends up updated at `now`, and an Added one created at `now` too, so the
   * two timestamps of an Added entry agree.
   */
  lemma SingleClockAddedAgree(es: seq<EntityEntry>, now: Time, i: nat)
    requires i < |es| && Stampable(es[i]) && es[i].state == Added
    ensures var r := StampAll(es, seq(|es|, _ => ClockReading(now, now)));
            r[i].entity.updatedAt == Some(r[i].entity.createdAt) && r[i].entity.createdAt == now
  {
  }

  /**
   * The context: the change tracker's entries, updated in place by the pass,
   * and the batches the underlying save has written so far.
   */
  class ProductDbContext {
    var entries: array<EntityEntry>
    var saved: seq<seq<EntityEntry>>

    constructor(tracked: seq<EntityEntry>)
      ensures entries[..] == tracked && saved == []
      ensures fresh(entries)
    {
      entries := new EntityEntry[|tracked|](i requires 0 <= i < |tracked| => tracked[i]);
      saved := [];
    }

    /** The timestamp pass: every selected entry is stamped in place, nothing else changes. */
    method UpdateTimestamps(readings: seq<ClockReading>)
      requires |readings| == entries.Length
      modifies entries
      ensures entries[..] == StampAll(old(entries[..]), readings)
    {
      ghost var before := entries[..];
      var i := 0;
      while i < entries.Length
        invariant 0 <= i <= entries.Length
        invariant entries[..i] == StampAll(before, readings)[..i]
        invariant entries[i..] == before[i..]
      {
        var e := entries[i];
        if e.entity.BaseEntity? && (e.state == Added || e.state == Modified) {
          var created := if e.state == Added then readings[i].created else e.entity.createdAt;
          entries[i] := EntityEntry(e.state, BaseEntity(created, Some(readings[i].updated), e.entity.fields));
        }
        assert entries[i] == Stamp(before[i], readings[i]);
        i := i + 1;
      }
    }

    /** The save: the timestamp pass, then the underlying save of the tracked entries. */
    method SaveChanges(readings: seq<ClockReading>)
      requires |readings| == entries.Length
      modifies this, entries
      ensures entries == old(entries)
      ensures entries[..] == StampAll(old(entries[..]), readings)
      ensures saved == old(saved) + [StampAll(old(entries[..]), readings)]
    {
      UpdateTimestamps(readings);
      saved := saved + [entries[..]];
    }
  }
}
