/** The data context's save (`DbContext.SaveChanges`): before Entity
    Framework's own save runs, every entity about to be inserted or updated
    is validated, and the first invalid one stops the save. */
module DataAccess {
  import opened Outcomes

  /** Entity Framework's `EntityState`. */
  datatype EntityState = Detached | Unchanged | Deleted | Modified | Added

  /** One change-tracker entry: the state of an entity and the entity. */
  datatype EntityEntry<E> = EntityEntry(state: EntityState, entity: E)

  /** The states whose entities are validated before saving. */
  predicate IsValidated(s: EntityState)
  {
    s == Modified || s == Added
  }

  /** The entities of the Added and Modified entries, in change-tracker order. */
  function PendingWrites<E>(entries: seq<EntityEntry<E>>): (r: seq<E>)
    ensures |r| <= |entries|
  {
    if entries == [] then []
    else if IsValidated(entries[0].state) then [entries[0].entity] + PendingWrites(entries[1..])
    else PendingWrites(entries[1..])
  }

  /** A single entry contributes its entity exactly when it is Added or Modified. */
  lemma PendingWritesSingleton<E>(x: EntityEntry<E>)
    ensures PendingWrites([x]) == if IsValidated(x.state) then [x.entity] else []
  {
  }

  /** Filtering distributes over concatenation, so the pending writes keep
      the change tracker's order. */
  lemma {:induction false} PendingWritesAppend<E>(a: seq<EntityEntry<E>>, b: seq<EntityEntry<E>>)
    ensures PendingWrites(a + b) == PendingWrites(a) + PendingWrites(b)
  {
    if a == [] {
      assert a + b == b;
    } else {
      PendingWritesAppend(a[1..], b);
      assert (a + b)[1..] == a[1..] + b;
    }
  }

  /** Whether validation stops the save: some entity to be written is invalid. */
  predicate Rejects<E>(entries: seq<EntityEntry<E>>, valid: E -> bool)
  {
    var pending := PendingWrites(entries);
    exists k :: 0 <= k < |pending| && !valid(pending[k])
  }

  /** The save is stopped by the first entry or by the rest. */
  lemma RejectsCons<E>(entries: seq<EntityEntry<E>>, valid: E -> bool)
    requires entries != []
    ensures Rejects(entries, valid) <==>
      (IsValidated(entries[0].state) && !valid(entries[0].entity)) || Rejects(entries[1..], valid)
  {
    var rest := PendingWrites(entries[1..]);
    if IsValidated(entries[0].state) {
      var pending := PendingWrites(entries);
      assert pending == [entries[0].entity] + rest;
      if Rejects(entries[1..], valid) {
        var k :| 0 <= k < |rest| && !valid(rest[k]);
        assert pending[k + 1] == rest[k];
      }
      if Rejects(entries, valid) {
        var k :| 0 <= k < |pending| && !valid(pending[k]);
        if k > 0 {
          assert rest[k - 1] == pending[k];
        }
      }
    }
  }

  /** Only an Added or Modified entry can stop the save, and any invalid one
      does. */
  lemma {:induction false} RejectsIffInvalidPendingWrite<E>(entries: seq<EntityEntry<E>>, valid: E -> bool)
    ensures Rejects(entries, valid) <==>
      exists i :: 0 <= i < |entries| && IsValidated(entries[i].state) && !valid(entries[i].entity)
  {
    if entries != [] {
      RejectsCons(entries, valid);
      RejectsIffInvalidPendingWrite(entries[1..], valid);
      var tail := entries[1..];
      if exists i :: 0 <= i < |tail| && IsValidated(tail[i].state) && !valid(tail[i].entity) {
        var i :| 0 <= i < |tail| && IsValidated(tail[i].state) && !valid(tail[i].entity);
        assert entries[i + 1] == tail[i];
      }
      if exists i :: 0 <= i < |entries| && IsValidated(entries[i].state) && !valid(entries[i].entity) {
        var i :| 0 <= i < |entries| && IsValidated(entries[i].state) && !valid(entries[i].entity);
        if i > 0 {
          assert tail[i - 1] == entries[i];
        }
      }
    }
  }

  /** Unchanged, Deleted and Detached entries never stop the save: adding one
      to the change tracker changes nothing about validation. */
  lemma {:induction false} UnvalidatedEntryCannotReject<E>(
    before: seq<EntityEntry<E>>, x: EntityEntry<E>, after: seq<EntityEntry<E>>, valid: E -> bool)
    requires !IsValidated(x.state)
    ensures PendingWrites(before + [x] + after) == PendingWrites(before + after)
    ensures Rejects(before + [x] + after, valid) == Rejects(before + after, valid)
  {
    if before == [] {
      assert before + [x] + after == [x] + after;
      assert ([x] + after)[1..] == after;
      assert before + after == after;
    } else {
      UnvalidatedEntryCannotReject(before[1..], x, after, valid);
      assert (before + [x] + after)[1..] == before[1..] + [x] + after;
      assert (before + after)[1..] == before[1..] + after;
    }
  }

  /** The change tracker after Entity Framework's save succeeds: Added and
      Modified entries become Unchanged, Deleted and Detached ones are no
      longer tracked, Unchanged ones stay as they are. */
  function AcceptedChanges<E>(entries: seq<EntityEntry<E>>): (r: seq<EntityEntry<E>>)
    ensures |r| <= |entries|
    ensures forall i :: 0 <= i < |r| ==> r[i].state == Unchanged
  {
    if entries == [] then []
    else
      var rest := AcceptedChanges(entries[1..]);
      match entries[0].state
      case Added => [EntityEntry(Unchanged, entries[0].entity)] + rest
      case Modified => [EntityEntry(Unchanged, entries[0].entity)] + rest
      case Unchanged => [entries[0]] + rest
      case Deleted => rest
      case Detached => rest
  }

  /** After a successful save nothing is left to validate, so a second save
      cannot be rejected. */
  lemma {:induction false} AcceptedChangesHasNoPendingWrites<E>(entries: seq<EntityEntry<E>>, valid: E -> bool)
    ensures PendingWrites(AcceptedChanges(entries)) == []
    ensures !Rejects(AcceptedChanges(entries), valid)
  {
    if entries != [] {
      AcceptedChangesHasNoPendingWrites(entries[1..], valid);
    }
  }

  class DbContext<E> {
    /** `Validator.TryValidateObject(entity, context, results)` with
        `validateAllProperties` left false: whether the entity's `[Required]`
        properties, its type-level attributes and its `IValidatableObject`
        check all pass. */
    const Valid: E -> bool
    /** Entity Framework's own `SaveChanges()` for the tracked changes: the
        number of entries it writes, or the exception it throws. */
    const BaseSaveChanges: seq<EntityEntry<E>> -> Outcome<int>
    /** `ChangeTracker.Entries()`. */
    var Entries: seq<EntityEntry<E>>

    constructor (valid: E -> bool, baseSaveChanges: seq<EntityEntry<E>> -> Outcome<int>, entries: seq<EntityEntry<E>>)
      ensures Valid == valid && BaseSaveChanges == baseSaveChanges && Entries == entries
    {
      Valid := valid;
      BaseSaveChanges := baseSaveChanges;
      Entries := entries;
    }

    /** `SaveChanges()`.  `validated` counts the entities handed to the
        validator and `saved` says whether the base save ran.  On a
        rejection the last entity validated is the first invalid pending
        write, every one before it is valid, the exception carries no
        message, the base save does not run and the change tracker is
        untouched.  Otherwise every pending write was validated and the
        result is whatever the base save does: its count, after which the
        changes are accepted, or its exception, which escapes and leaves the
        change tracker as it was. */
    method SaveChanges() returns (r: Outcome<int>, ghost validated: nat, ghost saved: bool)
      modifies this
      ensures Rejects(old(Entries), Valid) ==>
        !saved && r == Threw(ValidationException(None)) && Entries == old(Entries)
      ensures Rejects(old(Entries), Valid) ==>
        0 < validated <= |PendingWrites(old(Entries))| &&
        !Valid(PendingWrites(old(Entries))[validated - 1]) &&
        forall j :: 0 <= j < validated - 1 ==> Valid(PendingWrites(old(Entries))[j])
      ensures !Rejects(old(Entries), Valid) ==>
        saved && validated == |PendingWrites(old(Entries))| && r == BaseSaveChanges(old(Entries))
      ensures !Rejects(old(Entries), Valid) ==>
        Entries == if r.Returned? then AcceptedChanges(old(Entries)) else old(Entries)
    {
      var entities := PendingWrites(Entries);
      var i := 0;
      while i < |entities|
        invariant 0 <= i <= |entities|
        invariant forall j :: 0 <= j < i ==> Valid(entities[j])
      {
        if !Valid(entities[i]) {
          r, validated, saved := Threw(ValidationException(None)), i + 1, false;
          return;
        }
        i := i + 1;
      }
      r, validated, saved := BaseSaveChanges(Entries), i, true;
      if r.Returned? {
        Entries := AcceptedChanges(Entries);
      }
    }
  }
}
