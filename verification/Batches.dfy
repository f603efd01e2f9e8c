/** Creating and filling batches: three creators racing under one advisory lock, the
    capacity check that closes a full batch, and admin transitions outside the lock. */
module Batches {
  import opened Wrappers

  const COHORT_SIZE := 100

  datatype Status = FILLING | SCREENING | TEAM_FORMATION | PROCESSING | PENDING_CONSENT | FINALIZED | PRODUCTION

  datatype Batch = Batch(number: int, status: Status, capacity: int)

  // ----- the table

  /** The first batch that is filling, or the end of the table. */
  function FirstFilling(batches: seq<Batch>): (i: nat)
    ensures i <= |batches|
    ensures i < |batches| ==> batches[i].status.FILLING?
    ensures forall j | 0 <= j < i :: !batches[j].status.FILLING?
  {
    if batches == [] then 0
    else if batches[0].status.FILLING? then 0
    else 1 + FirstFilling(batches[1..])
  }

  /** The highest batch number; 0 for an empty table. */
  function LastNumber(batches: seq<Batch>): int {
    if batches == [] then 0
    else
      var n, rest := batches[|batches| - 1].number, LastNumber(batches[..|batches| - 1]);
      if |batches| == 1 || n > rest then n else rest
  }

  predicate ExistsFrom(batches: seq<Batch>, number: int) {
    exists i :: 0 <= i < |batches| && batches[i].number >= number
  }

  function NewBatch(number: int): Batch { Batch(number, FILLING, COHORT_SIZE) }

  function SetStatus(batches: seq<Batch>, id: nat, status: Status): seq<Batch> {
    if id < |batches| then batches[id := batches[id].(status := status)] else batches
  }

  /** Lock, re-check, create: what the two sign-up paths do to the table. */
  function WithFilling(batches: seq<Batch>): seq<Batch> {
    if FirstFilling(batches) < |batches| then batches else batches + [NewBatch(LastNumber(batches) + 1)]
  }

  /** The last batch closed, and the next one open. */
  function Rolled(batches: seq<Batch>): seq<Batch>
    requires batches != []
  {
    SetStatus(batches, |batches| - 1, SCREENING) + [NewBatch(|batches| + 1)]
  }

  predicate ValidTransition(from: Status, to: Status) {
    match from
    case FILLING => to.SCREENING?
    case SCREENING => to.TEAM_FORMATION?
    case TEAM_FORMATION => to.PROCESSING?
    case PROCESSING => to.PENDING_CONSENT?
    case PENDING_CONSENT => to.FINALIZED?
    case FINALIZED => to.PRODUCTION?
    case PRODUCTION => false
  }

  /** Numbers run 1, 2, 3, ... in the order of creation, and only the last batch can be
      filling. */
  ghost predicate TableOk(batches: seq<Batch>) {
    && (forall i | 0 <= i < |batches| :: batches[i].number == i + 1)
    && (forall i | 0 <= i < |batches| - 1 :: !batches[i].status.FILLING?)
  }

  /** The stages of a batch in order. */
  function Stage(status: Status): nat {
    match status
    case FILLING => 0
    case SCREENING => 1
    case TEAM_FORMATION => 2
    case PROCESSING => 3
    case PENDING_CONSENT => 4
    case FINALIZED => 5
    case PRODUCTION => 6
  }

  /** The allowed transitions are the single steps forward: none is skipped, repeated or
      taken back. */
  lemma TransitionsStepForward(from: Status, to: Status)
    ensures ValidTransition(from, to) <==> Stage(to) == Stage(from) + 1
  {
  }

  /** A batch opened automatically is filling, carries the next number and seats exactly
      100; one is opened exactly when none is filling, behind the others. */
  lemma OpeningIsExact(batches: seq<Batch>)
    requires TableOk(batches)
    ensures (exists b :: b in batches && b.status == FILLING) ==> WithFilling(batches) == batches
    ensures (forall b | b in batches :: b.status != FILLING) ==>
              WithFilling(batches) == batches + [Batch(|batches| + 1, FILLING, 100)]
    ensures batches != [] ==>
              var last := batches[|batches| - 1];
              Rolled(batches) == batches[..|batches| - 1]
                                 + [Batch(|batches|, SCREENING, last.capacity), Batch(|batches| + 1, FILLING, 100)]
  {
    LastNumberIsLength(batches);
    var i := FirstFilling(batches);
    if i < |batches| {
      assert batches[i] in batches;
    }
  }

  lemma {:induction false} LastNumberIsGreatest(batches: seq<Batch>)
    ensures batches == [] ==> LastNumber(batches) == 0
    ensures forall b | b in batches :: b.number <= LastNumber(batches)
    ensures batches != [] ==> exists b :: b in batches && b.number == LastNumber(batches)
  {
    if batches != [] {
      var init, last := batches[..|batches| - 1], batches[|batches| - 1];
      assert batches == init + [last] && last in batches;
      LastNumberIsGreatest(init);
      if LastNumber(batches) != last.number {
        var b :| b in init && b.number == LastNumber(init);
        assert b in batches;
      }
    }
  }

  lemma {:induction false} LastNumberIsLength(batches: seq<Batch>)
    requires forall i | 0 <= i < |batches| :: batches[i].number == i + 1
    ensures LastNumber(batches) == |batches|
  {
    if batches != [] {
      LastNumberIsLength(batches[..|batches| - 1]);
    }
  }

  lemma LaterExists(batches: seq<Batch>, number: int)
    requires TableOk(batches) && number >= 1
    ensures ExistsFrom(batches, number) <==> number <= |batches|
  {
    if number <= |batches| {
      assert batches[number - 1].number >= number;
    }
  }

  lemma FillingIsLast(batches: seq<Batch>)
    requires TableOk(batches) && FirstFilling(batches) < |batches|
    ensures FirstFilling(batches) == |batches| - 1 && batches[|batches| - 1].status.FILLING?
  {
  }

  lemma AppendKeepsOrder(batches: seq<Batch>, batch: Batch)
    requires TableOk(batches) && batch.number == |batches| + 1
    ensures TableOk(batches + [batch]) <==> forall j | 0 <= j < |batches| :: !batches[j].status.FILLING?
  {
    var later := batches + [batch];
    assert forall j | 0 <= j < |batches| :: later[j] == batches[j];
    if j :| 0 <= j < |batches| && batches[j].status.FILLING? {
      assert later[j].status.FILLING? && j < |later| - 1;
    }
  }

  /** Creating a batch by hand, as an administrator may at any time, keeps the table in
      order exactly when no batch is filling. */
  lemma {:induction false} ManualCreate(batches: seq<Batch>, capacity: int)
    requires TableOk(batches)
    ensures TableOk(batches + [Batch(LastNumber(batches) + 1, FILLING, capacity)])
            <==> FirstFilling(batches) == |batches|
  {
    LastNumberIsLength(batches);
    AppendKeepsOrder(batches, Batch(|batches| + 1, FILLING, capacity));
    var i := FirstFilling(batches);
    assert i < |batches| ==> batches[i].status.FILLING?;
  }

  // ----- the services' methods, each run on its own

  class BatchService {
    var batches: seq<Batch>
    var live: map<nat, nat>
    var autoEnabled: bool

    ghost predicate Valid() reads this { TableOk(batches) }

    constructor ()
      ensures Valid() && batches == []
    {
      batches, live, autoEnabled := [], map[], false;
    }

    /** The transaction under the lock: re-check, then create. */
    method CreateUnderLock() returns (id: nat)
      requires Valid()
      modifies this`batches
      ensures Valid() && batches == WithFilling(old(batches))
      ensures id < |batches| && batches[id].status.FILLING?
    {
      var inLock := FirstFilling(batches);
      if inLock < |batches| {
        return inLock;
      }
      LastNumberIsLength(batches);
      batches := batches + [NewBatch(LastNumber(batches) + 1)];
      return |batches| - 1;
    }

    /** First login of an applicant. */
    method GetOrCreateFillingBatch() returns (id: nat)
      requires Valid()
      modifies this`batches
      ensures Valid() && batches == WithFilling(old(batches))
      ensures id < |batches| && batches[id].status.FILLING?
    {
      var existing := FirstFilling(batches);
      if existing < |batches| {
        return existing;
      }
      id := CreateUnderLock();
    }

    /** Sign-up: the same, but closed when automatic batches are switched off. */
    method BatchForSignUp() returns (id: Option<nat>)
      requires Valid()
      modifies this`batches
      ensures Valid()
      ensures id.None? <==> FirstFilling(old(batches)) == |old(batches)| && !autoEnabled
      ensures batches == if id.None? then old(batches) else WithFilling(old(batches))
      ensures id.Some? ==> id.value < |batches| && batches[id.value].status.FILLING?
    {
      var batch := FirstFilling(batches);
      if batch < |batches| {
        return Some(batch);
      }
      if !autoEnabled {
        return None;
      }
      var created := CreateUnderLock();
      return Some(created);
    }

    /** The first transaction of the capacity check: re-confirm, compare-and-swap. */
    method FlipUnderLock(id: nat, capacity: int) returns (won: bool)
      requires Valid() && id < |batches|
      modifies this`batches
      ensures Valid()
      ensures won <==> Live(id) >= capacity && old(batches)[id].status.FILLING?
      ensures batches == if won then SetStatus(old(batches), id, SCREENING) else old(batches)
    {
      if Live(id) < capacity {
        return false;
      }
      if batches[id].status.FILLING? {
        batches := batches[id := batches[id].(status := SCREENING)];
        return true;
      }
      return false;
    }

    /** The second: the successor, unless a later batch exists by now. */
    method CreateSuccessorUnderLock(number: int)
      requires Valid() && 1 <= number <= |batches| && !batches[number - 1].status.FILLING?
      modifies this`batches
      ensures Valid()
      ensures batches == if number == |old(batches)| then old(batches) + [NewBatch(number + 1)] else old(batches)
    {
      LaterExists(batches, number + 1);
      if !ExistsFrom(batches, number + 1) {
        batches := batches + [NewBatch(number + 1)];
      }
    }

    /** The capacity check: close the filling batch if it is full and open the next. */
    method CheckAndCreateBatch() returns (closed: Option<nat>)
      requires Valid()
      modifies this`batches
      ensures Valid()
      ensures var i := FirstFilling(old(batches));
              var full := autoEnabled && i < |old(batches)| && Live(i) >= old(batches)[i].capacity;
        && closed == (if full then Some(i) else None)
        && batches == if full then Rolled(old(batches)) else old(batches)
    {
      if !autoEnabled {
        return None;
      }
      var filling := FirstFilling(batches);
      if filling == |batches| {
        return None;
      }
      FillingIsLast(batches);
      var number, capacity := batches[filling].number, batches[filling].capacity;
      if Live(filling) < capacity {
        return None;
      }
      var won := FlipUnderLock(filling, capacity);
      if !won {
        return None;
      }
      CreateSuccessorUnderLock(number);
      return Some(filling);
    }

    function Live(id: nat): nat reads this {
      if id in live then live[id] else 0
    }

    method TransitionStatus(id: nat, status: Status) returns (done: bool)
      requires Valid()
      modifies this`batches
      ensures Valid()
      ensures done <==> id < |old(batches)| && ValidTransition(old(batches)[id].status, status)
      ensures batches == if done then SetStatus(old(batches), id, status) else old(batches)
    {
      if id >= |batches| || !ValidTransition(batches[id].status, status) {
        return false;
      }
      batches := batches[id := batches[id].(status := status)];
      return true;
    }
  }
}
