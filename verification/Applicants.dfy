/** Applicants and the cached head count of their batch, under concurrent removals. */
module Applicants {
  import opened Wrappers
  import opened Collections

  datatype Status = PENDING | ELIGIBLE | INELIGIBLE | ACTIVE | REMOVED | CONSENTED | FINALIZED | TRAINING | HELD

  datatype Applicant = Applicant(batchId: Option<nat>, status: Status)

  datatype Batch = Batch(currentCount: int, filling: bool)

  // ----- the two tables

  /** The statuses an administrator may set. */
  predicate Settable(status: Status) {
    !status.FINALIZED? && !status.TRAINING?
  }

  lemma SettableExactly(status: Status)
    ensures Settable(status) <==> status in {PENDING, ELIGIBLE, INELIGIBLE, ACTIVE, REMOVED, HELD, CONSENTED}
  {
  }

  /** Is there a row the guarded update `status != REMOVED` would hit? */
  predicate Removable(applicants: seq<Applicant>, id: nat) {
    id < |applicants| && !applicants[id].status.REMOVED?
  }

  function MarkRemoved(applicants: seq<Applicant>, id: nat): seq<Applicant> {
    if Removable(applicants, id) then applicants[id := applicants[id].(status := REMOVED)] else applicants
  }

  function Adjust(batches: seq<Batch>, b: Option<nat>, delta: int): seq<Batch> {
    if b.Some? && b.value < |batches|
    then batches[b.value := batches[b.value].(currentCount := batches[b.value].currentCount + delta)]
    else batches
  }

  function IsFilling(batches: seq<Batch>, b: Option<nat>): bool {
    b.Some? && b.value < |batches| && batches[b.value].filling
  }

  /** The applicants of a batch who have not been removed. */
  ghost function Members(applicants: seq<Applicant>, b: nat): set<int> {
    set i | 0 <= i < |applicants| && applicants[i].batchId == Some(b) && !applicants[i].status.REMOVED?
  }

  /** By how much the cached count of a batch differs from its members. */
  ghost function Drift(applicants: seq<Applicant>, batches: seq<Batch>, b: nat): int
    requires b < |batches|
  {
    batches[b].currentCount - |Members(applicants, b)|
  }

  ghost predicate TablesOk(applicants: seq<Applicant>, batches: seq<Batch>) {
    forall i | 0 <= i < |applicants| :: applicants[i].batchId.Some? ==> applicants[i].batchId.value < |batches|
  }

  // ----- the service's methods, each run on its own

  class ApplicantService {
    var applicants: seq<Applicant>
    var batches: seq<Batch>
    var backfills: seq<nat>

    ghost predicate Valid() reads this { TablesOk(applicants, batches) }

    constructor (batches: seq<Batch>)
      ensures Valid() && applicants == [] && this.batches == batches
    {
      applicants, backfills := [], [];
      this.batches := batches;
    }

    method Apply(b: nat) returns (id: nat)
      requires Valid() && b < |batches|
      modifies this`applicants, this`batches
      ensures Valid() && id == |old(applicants)|
      ensures applicants == old(applicants) + [Applicant(Some(b), PENDING)] && batches == Adjust(old(batches), Some(b), 1)
      ensures forall k | 0 <= k < |batches| :: Drift(applicants, batches, k) == old(Drift(applicants, batches, k))
    {
      forall k | 0 <= k < |batches| {
        MemberAdded(applicants, Applicant(Some(b), PENDING), k);
      }
      applicants := applicants + [Applicant(Some(b), PENDING)];
      batches := batches[b := batches[b].(currentCount := batches[b].currentCount + 1)];
      return |applicants| - 1;
    }

    /** The removal transaction: compare-and-swap, then count down the batch read before. */
    method CommitRemoval(id: nat, batchId: Option<nat>) returns (isNewlyRemoved: bool)
      requires Valid()
      modifies this`applicants, this`batches
      ensures Valid()
      ensures isNewlyRemoved <==> Removable(old(applicants), id)
      ensures applicants == MarkRemoved(old(applicants), id)
      ensures batches == if isNewlyRemoved then Adjust(old(batches), batchId, -1) else old(batches)
    {
      if id >= |applicants| || applicants[id].status.REMOVED? {
        return false;
      }
      applicants := applicants[id := applicants[id].(status := REMOVED)];
      if batchId.Some? && batchId.value < |batches| {
        var b := batchId.value;
        batches := batches[b := batches[b].(currentCount := batches[b].currentCount - 1)];
      }
      return true;
    }

    /** Removal, by the dedicated route or as a status change. */
    method RemoveApplicant(id: nat) returns (found: bool)
      requires Valid()
      modifies this
      ensures Valid() && (found <==> id < |applicants|)
      ensures applicants == MarkRemoved(old(applicants), id)
      ensures |batches| == |old(batches)|
      ensures forall k | 0 <= k < |batches| :: Drift(applicants, batches, k) == old(Drift(applicants, batches, k))
      ensures backfills == if Removable(old(applicants), id) && old(applicants)[id].batchId.Some?
                              && !IsFilling(old(batches), old(applicants)[id].batchId)
                           then old(backfills) + [old(applicants)[id].batchId.value] else old(backfills)
    {
      if id >= |applicants| {
        return false;
      }
      var applicant := applicants[id];
      var filling := IsFilling(batches, applicant.batchId);
      forall k | 0 <= k < |batches| {
        MemberRemoved(applicants, id, k);
      }
      var isNewlyRemoved := CommitRemoval(id, applicant.batchId);
      if isNewlyRemoved && applicant.batchId.Some? && !filling {
        backfills := backfills + [applicant.batchId.value];
      }
      return true;
    }

    method UpdateApplicantStatus(id: nat, status: Status) returns (done: bool)
      requires Valid()
      modifies this
      ensures Valid() && (done <==> id < |old(applicants)| && Settable(status))
      ensures applicants == if done then old(applicants)[id := old(applicants)[id].(status := status)] else old(applicants)
      ensures status.REMOVED? ==>
        |batches| == |old(batches)| &&
        forall k | 0 <= k < |batches| :: Drift(applicants, batches, k) == old(Drift(applicants, batches, k))
      ensures status.REMOVED? ==>
        backfills == if Removable(old(applicants), id) && old(applicants)[id].batchId.Some?
                        && !IsFilling(old(batches), old(applicants)[id].batchId)
                     then old(backfills) + [old(applicants)[id].batchId.value] else old(backfills)
      ensures !status.REMOVED? ==> batches == old(batches) && backfills == old(backfills)
    {
      if id >= |applicants| || !Settable(status) {
        return false;
      }
      if status.REMOVED? {
        done := RemoveApplicant(id);
        return;
      }
      applicants := applicants[id := applicants[id].(status := status)];
      return true;
    }
  }

  // ----- members under the three kinds of change

  lemma MemberAdded(applicants: seq<Applicant>, a: Applicant, b: nat)
    ensures |Members(applicants + [a], b)|
         == |Members(applicants, b)| + if a.batchId == Some(b) && !a.status.REMOVED? then 1 else 0
  {
    var more := Members(applicants + [a], b);
    if a.batchId == Some(b) && !a.status.REMOVED? {
      assert more == Members(applicants, b) + {|applicants|};
    } else {
      assert more == Members(applicants, b);
    }
  }

  lemma MemberChanged(applicants: seq<Applicant>, id: nat, a: Applicant, b: nat)
    requires id < |applicants|
    ensures |Members(applicants[id := a], b)|
         == |Members(applicants, b)|
            - (if applicants[id].batchId == Some(b) && !applicants[id].status.REMOVED? then 1 else 0)
            + (if a.batchId == Some(b) && !a.status.REMOVED? then 1 else 0)
  {
    var rest := Members(applicants, b) - {id};
    assert Members(applicants[id := a], b) - {id} == rest;
    if id in Members(applicants, b) {
      assert Members(applicants, b) == rest + {id};
    }
    if id in Members(applicants[id := a], b) {
      assert Members(applicants[id := a], b) == rest + {id};
    }
  }

  lemma MemberRemoved(applicants: seq<Applicant>, id: nat, b: nat)
    ensures |Members(MarkRemoved(applicants, id), b)|
         == |Members(applicants, b)| - if Removable(applicants, id) && applicants[id].batchId == Some(b) then 1 else 0
  {
    if Removable(applicants, id) {
      MemberChanged(applicants, id, applicants[id].(status := REMOVED), b);
    }
  }

  // ----- every interleaving

  /** What a request has read and has still to write. */
  datatype Pending =
    | Removing(id: nat, batchId: Option<nat>, filling: bool)
    | Setting(id: nat, status: Status)
    | Backfilling(id: nat, short: nat)

  /** `removals` lists the applicants whose removal counted down a batch, `backfills`
      those for whom a replacement was asked for; no request reads them. */
  datatype State = State(applicants: seq<Applicant>, batches: seq<Batch>, inflight: map<int, Pending>,
                         removals: seq<nat>, backfills: seq<nat>)

  datatype Event =
    | Apply(b: nat)
    | StartRemove(client: int, id: nat)
    | StartStatus(client: int, id: nat, status: Status)
    | Advance(client: int)
    | Abort(client: int)
    | OpenBatch
    | SetFilling(b: nat, filling: bool)
    | LoginCreate(b: nat)
    | MoveUp(id: nat, from: nat, to: nat)

  function ReadForRemoval(s: State, client: int, id: nat): State {
    if client in s.inflight || id >= |s.applicants| then s
    else
      var b := s.applicants[id].batchId;
      s.(inflight := s.inflight[client := Removing(id, b, IsFilling(s.batches, b))])
  }

  function Advanced(s: State, client: int, p: Pending): State {
    match p
    case Removing(id, b, filling) =>
      var next := s.inflight - {client};
      if !Removable(s.applicants, id) then s.(inflight := next)
      else State(MarkRemoved(s.applicants, id), Adjust(s.batches, b, -1),
                 if b.Some? && !filling then s.inflight[client := Backfilling(id, b.value)] else next,
                 if b.Some? then s.removals + [id] else s.removals, s.backfills)
    case Setting(id, status) =>
      s.(inflight := s.inflight - {client},
         applicants := if id < |s.applicants| then s.applicants[id := s.applicants[id].(status := status)] else s.applicants)
    case Backfilling(id, _) => s.(inflight := s.inflight - {client}, backfills := s.backfills + [id])
  }

  function Step(s: State, e: Event): State {
    match e
    case Apply(b) =>
      if b >= |s.batches| then s
      else s.(applicants := s.applicants + [Applicant(Some(b), PENDING)], batches := Adjust(s.batches, Some(b), 1))
    case StartRemove(c, id) => ReadForRemoval(s, c, id)
    case StartStatus(c, id, status) =>
      if status.REMOVED? then ReadForRemoval(s, c, id)
      else if c in s.inflight || id >= |s.applicants| || !Settable(status) then s
      else s.(inflight := s.inflight[c := Setting(id, status)])
    case Advance(c) => if c in s.inflight then Advanced(s, c, s.inflight[c]) else s
    case Abort(c) => s.(inflight := s.inflight - {c})
    case OpenBatch => s.(batches := s.batches + [Batch(0, true)])
    case SetFilling(b, filling) =>
      if b < |s.batches| then s.(batches := s.batches[b := s.batches[b].(filling := filling)]) else s
    // an applicant created by a first login, which leaves the count alone
    case LoginCreate(b) => if b >= |s.batches| then s else s.(applicants := s.applicants + [Applicant(Some(b), PENDING)])
    // the backfill worker moves an applicant to another batch and adjusts both counts
    case MoveUp(id, from, to) =>
      if !Removable(s.applicants, id) || s.applicants[id].batchId != Some(from) || to >= |s.batches| then s
      else s.(applicants := s.applicants[id := Applicant(Some(to), ELIGIBLE)],
              batches := Adjust(Adjust(s.batches, Some(to), 1), Some(from), -1))
  }

  function Run(s: State, es: seq<Event>): State
    decreases |es|
  {
    if es == [] then s else Run(Step(s, es[0]), es[1..])
  }

  ghost predicate Ok(s: State) {
    && TablesOk(s.applicants, s.batches)
    && forall c | c in s.inflight ::
         match s.inflight[c]
         case Removing(id, b, _) => id < |s.applicants| && (b.Some? ==> b.value < |s.batches|)
         case Setting(id, status) => id < |s.applicants| && !status.REMOVED?
         case Backfilling(id, _) => id < |s.applicants|
  }

  lemma StepKeepsOk(s: State, e: Event)
    requires Ok(s)
    ensures Ok(Step(s, e)) && |s.batches| <= |Step(s, e).batches|
  {
  }

  /** A removal that nothing disturbs does what the service method does. */
  lemma RemovalAlone(s: State, c: int, id: nat)
    requires c !in s.inflight
    ensures var s' := Step(Step(Step(s, StartRemove(c, id)), Advance(c)), Advance(c));
            var newly, b := Removable(s.applicants, id), if id < |s.applicants| then s.applicants[id].batchId else None;
      && s'.applicants == MarkRemoved(s.applicants, id)
      && s'.batches == (if newly then Adjust(s.batches, b, -1) else s.batches)
      && s'.backfills == (if newly && b.Some? && !IsFilling(s.batches, b) then s.backfills + [id] else s.backfills)
      && s'.inflight == s.inflight
  {
  }

  /** The steps that make a count wrong: a login that creates an applicant, a removal
      that counts down a batch the applicant has left since it was read, and a status
      change that brings a removed applicant back. */
  predicate MakesDrift(s: State, e: Event) {
    || (e.LoginCreate? && e.b < |s.batches|)
    || (e.Advance? && e.client in s.inflight &&
        match s.inflight[e.client]
        case Removing(id, b, _) => Removable(s.applicants, id) && s.applicants[id].batchId != b
        case Setting(id, _) => id < |s.applicants| && s.applicants[id].status.REMOVED? && s.applicants[id].batchId.Some?
        case Backfilling(_, _) => false)
  }

  ghost predicate SameDrift(s: State, s': State) {
    && |s.batches| <= |s'.batches|
    && forall b | 0 <= b < |s.batches| :: Drift(s'.applicants, s'.batches, b) == Drift(s.applicants, s.batches, b)
  }

  lemma DriftOf(s: State, e: Event, b: nat)
    requires Ok(s) && b < |s.batches|
    ensures |s.batches| <= |Step(s, e).batches|
    ensures var s' := Step(s, e);
      Drift(s'.applicants, s'.batches, b) == Drift(s.applicants, s.batches, b) + DriftBy(s, e, b)
  {
    match e
    case Apply(b0) => MemberAdded(s.applicants, Applicant(Some(b0), PENDING), b);
    case LoginCreate(b0) => MemberAdded(s.applicants, Applicant(Some(b0), PENDING), b);
    case MoveUp(id, from, to) =>
      if Removable(s.applicants, id) {
        MemberChanged(s.applicants, id, Applicant(Some(to), ELIGIBLE), b);
      }
    case Advance(c) =>
      if c in s.inflight {
        match s.inflight[c]
        case Removing(id, b0, _) => MemberRemoved(s.applicants, id, b);
        case Setting(id, status) => MemberChanged(s.applicants, id, s.applicants[id].(status := status), b);
        case Backfilling(_, _) =>
      }
    case _ =>
  }

  /** A sign-up adds a pending applicant to the batch, and one to its count. */
  lemma ApplyTakesEffect(s: State, b: nat)
    requires b < |s.batches|
    ensures var s' := Step(s, Apply(b));
      && s'.applicants == s.applicants + [Applicant(Some(b), PENDING)]
      && s'.batches == s.batches[b := Batch(s.batches[b].currentCount + 1, s.batches[b].filling)]
      && s'.inflight == s.inflight
  {
  }

  /** What batches do meanwhile, and a login: a batch opens empty and filling, or changes
      whether it fills; a login adds a pending applicant; a request that dies writes nothing. */
  lemma OtherStepsTakeEffect(s: State, b: nat, c: int, filling: bool)
    requires b < |s.batches|
    ensures Step(s, OpenBatch).batches == s.batches + [Batch(0, true)]
    ensures Step(s, SetFilling(b, filling)).batches == s.batches[b := Batch(s.batches[b].currentCount, filling)]
    ensures Step(s, LoginCreate(b)).applicants == s.applicants + [Applicant(Some(b), PENDING)]
    ensures Step(s, LoginCreate(b)).batches == s.batches
    ensures var s' := Step(s, Abort(c));
            s'.applicants == s.applicants && s'.batches == s.batches && c !in s'.inflight
  {
  }

  /** A backfill move takes an applicant who is still in the batch, and not removed, to the
      other batch, and one from the count of the one to that of the other. */
  lemma MoveTakesEffect(s: State, id: nat, b: nat, to: nat)
    requires b < |s.batches| && to < |s.batches| && b != to
    ensures id < |s.applicants| && s.applicants[id].batchId == Some(b) && s.applicants[id].status != REMOVED ==>
      var s' := Step(s, MoveUp(id, b, to));
      && s'.applicants == s.applicants[id := Applicant(Some(to), ELIGIBLE)]
      && |s'.batches| == |s.batches|
      && s'.batches[b].currentCount == s.batches[b].currentCount - 1
      && s'.batches[to].currentCount == s.batches[to].currentCount + 1
    ensures id >= |s.applicants| || s.applicants[id].batchId != Some(b) || s.applicants[id].status == REMOVED ==>
      Step(s, MoveUp(id, b, to)) == s
  {
  }

  lemma {:induction false} RunAppend(s: State, es: seq<Event>, e: Event)
    ensures Run(s, es + [e]) == Step(Run(s, es), e)
    decreases |es|
  {
    if es == [] {
      assert [e][1..] == [];
    } else {
      assert (es + [e])[1..] == es[1..] + [e];
      RunAppend(Step(s, es[0]), es[1..], e);
    }
  }

  /** How much a step changes the drift of batch `b`. */
  ghost function DriftBy(s: State, e: Event, b: nat): int {
    if e.LoginCreate? && e.b < |s.batches| then if e.b == b then -1 else 0
    else if e.Advance? && e.client in s.inflight then
      match s.inflight[e.client]
      case Removing(id, b0, _) =>
        if Removable(s.applicants, id) then
          (if s.applicants[id].batchId == Some(b) then 1 else 0) - (if b0 == Some(b) then 1 else 0)
        else 0
      case Setting(id, _) =>
        if id < |s.applicants| && s.applicants[id].status.REMOVED? && s.applicants[id].batchId == Some(b) then -1 else 0
      case Backfilling(_, _) => 0
    else 0
  }

  /** A step keeps every count in line with the members exactly when it is not one of these. */
  lemma DriftIsKeptExactly(s: State, e: Event)
    requires Ok(s)
    ensures SameDrift(s, Step(s, e)) <==> !MakesDrift(s, e)
  {
    forall b | 0 <= b < |s.batches| {
      DriftOf(s, e, b);
    }
    if MakesDrift(s, e) {
      if e.LoginCreate? {
        DriftOf(s, e, e.b);
      } else {
        var p := s.inflight[e.client];
        var b := if p.Removing? && p.batchId.Some? then p.batchId.value else s.applicants[p.id].batchId.value;
        DriftOf(s, e, b);
        assert DriftBy(s, e, b) != 0;
      }
    }
    StepKeepsOk(s, e);
  }

  // ----- whole runs

  /** No step of the run is one that makes a count wrong. */
  predicate Clean(s: State, es: seq<Event>)
    decreases |es|
  {
    es != [] ==> !MakesDrift(s, es[0]) && Clean(Step(s, es[0]), es[1..])
  }

  /** Does the step bring a removed applicant back? */
  predicate BringsBack(s: State, e: Event) {
    e.Advance? && e.client in s.inflight && s.inflight[e.client].Setting?
    && s.inflight[e.client].id < |s.applicants| && s.applicants[s.inflight[e.client].id].status.REMOVED?
  }

  /** Does the step count an applicant down a second time? */
  predicate CountsAgain(s: State, e: Event) {
    e.Advance? && e.client in s.inflight && s.inflight[e.client].Removing? && s.inflight[e.client].batchId.Some?
    && s.inflight[e.client].id in s.removals && Removable(s.applicants, s.inflight[e.client].id)
  }

  /** Exactly these steps do, from any state: the row has to be back from REMOVED. */
  lemma CountsAgainExactly(s: State, e: Event)
    requires NoDuplicates(s.removals)
    ensures NoDuplicates(Step(s, e).removals) <==> !CountsAgain(s, e)
  {
    var removals := Step(s, e).removals;
    if CountsAgain(s, e) {
      var k :| 0 <= k < |s.removals| && s.removals[k] == s.inflight[e.client].id;
      assert removals[k] == removals[|s.removals|];
    }
  }

  /** And a row gets back from REMOVED in one way only: some step of the run sets its
      status. */
  lemma {:induction false} BroughtBack(s: State, es: seq<Event>, id: nat) returns (k: nat)
    requires id < |s.applicants| && s.applicants[id].status.REMOVED? && Removable(Run(s, es).applicants, id)
    ensures k < |es| && BringsBack(Run(s, es[..k]), es[k])
    ensures Run(s, es[..k]).inflight[es[k].client].id == id
    decreases |es|
  {
    if BringsBack(s, es[0]) && s.inflight[es[0].client].id == id {
      k := 0;
    } else {
      var rest := BroughtBack(Step(s, es[0]), es[1..], id);
      k := rest + 1;
      assert es[..k][1..] == es[1..][..rest];
    }
  }

  /** Whoever has been counted down stays removed, and is backfilled for at most once. */
  ghost predicate Ledger(s: State) {
    && NoDuplicates(s.removals) && NoDuplicates(s.backfills)
    && (forall id | id in s.removals :: id < |s.applicants| && s.applicants[id].status.REMOVED?)
    && (forall id | id in s.backfills :: id in s.removals)
    && (forall c | c in s.inflight && s.inflight[c].Backfilling? ::
          s.inflight[c].id in s.removals && s.inflight[c].id !in s.backfills)
    && (forall c, d | c in s.inflight && d in s.inflight && c != d ::
          s.inflight[c].Backfilling? && s.inflight[d].Backfilling? ==> s.inflight[c].id != s.inflight[d].id)
  }

  lemma RemovalKeepsLedger(s: State, c: int)
    requires Ledger(s) && c in s.inflight && s.inflight[c].Removing?
    ensures Ledger(Step(s, Advance(c)))
  {
  }

  lemma StepKeepsLedger(s: State, e: Event)
    requires Ledger(s) && !BringsBack(s, e)
    ensures Ledger(Step(s, e))
  {
    if e.Advance? && e.client in s.inflight && s.inflight[e.client].Removing? {
      RemovalKeepsLedger(s, e.client);
    }
  }

  /** No step of the run brings an applicant back. */
  predicate NoReturns(s: State, es: seq<Event>)
    decreases |es|
  {
    es != [] ==> !BringsBack(s, es[0]) && NoReturns(Step(s, es[0]), es[1..])
  }

  /** Then, whatever else the run does, logins, moves and stale removals included, no
      applicant is counted down, or backfilled for, twice. */
  lemma {:induction false} CountedOnce(s: State, es: seq<Event>)
    requires Ledger(s) && NoReturns(s, es)
    ensures Ledger(Run(s, es))
    decreases |es|
  {
    if es != [] {
      StepKeepsLedger(s, es[0]);
      CountedOnce(Step(s, es[0]), es[1..]);
    }
  }

  /** In every run without a step that makes a count wrong, from any start, the drift of
      every batch is what it was. */
  lemma {:induction false} CountsStayInLine(s: State, es: seq<Event>)
    requires Ok(s) && Clean(s, es)
    ensures SameDrift(s, Run(s, es))
    decreases |es|
  {
    if es != [] {
      DriftIsKeptExactly(s, es[0]);
      StepKeepsOk(s, es[0]);
      CountsStayInLine(Step(s, es[0]), es[1..]);
    }
  }

  /** Sign-ups, removals, status changes into REMOVED, and what batches do meanwhile. */
  predicate Plain(e: Event) {
    !e.LoginCreate? && !e.MoveUp? && (e.StartStatus? ==> e.status.REMOVED?)
  }

  ghost predicate PlainOk(s: State) {
    forall c | c in s.inflight ::
      match s.inflight[c]
      case Removing(id, b, _) => id < |s.applicants| && s.applicants[id].batchId == b
      case Setting(_, _) => false
      case Backfilling(_, _) => true
  }

  lemma StepKeepsPlain(s: State, e: Event)
    requires PlainOk(s) && Plain(e)
    ensures PlainOk(Step(s, e)) && !MakesDrift(s, e) && !BringsBack(s, e)
  {
  }

  lemma {:induction false} PlainIsClean(s: State, es: seq<Event>)
    requires PlainOk(s) && forall k | 0 <= k < |es| :: Plain(es[k])
    ensures Clean(s, es) && NoReturns(s, es)
    decreases |es|
  {
    if es != [] {
      StepKeepsPlain(s, es[0]);
      PlainIsClean(Step(s, es[0]), es[1..]);
    }
  }

  /** Every interleaving of these keeps every count in line, with at most one count-down
      and one backfill request for each applicant. */
  lemma {:induction false} RemovalsCountOnce(s: State, es: seq<Event>)
    requires TablesOk(s.applicants, s.batches) && s.inflight == map[] && s.removals == [] && s.backfills == []
    requires forall k | 0 <= k < |es| :: Plain(es[k])
    ensures SameDrift(s, Run(s, es))
    ensures NoDuplicates(Run(s, es).removals) && NoDuplicates(Run(s, es).backfills)
    ensures forall id | id in Run(s, es).backfills :: id in Run(s, es).removals
  {
    PlainIsClean(s, es);
    CountsStayInLine(s, es);
    CountedOnce(s, es);
  }

  /** A removed applicant who is brought back can be counted down, and backfilled for, again. */
  lemma ReturnCountsTwice(s: State, id: nat, c: int)
    requires Ok(s) && s.inflight == map[] && id < |s.applicants| && Removable(s.applicants, id)
    requires s.applicants[id].batchId.Some? && !IsFilling(s.batches, s.applicants[id].batchId)
    ensures var removed := Step(Step(Step(s, StartRemove(c, id)), Advance(c)), Advance(c));
            var back := Step(Step(removed, StartStatus(c, id, ACTIVE)), Advance(c));
            var again := Step(Step(Step(back, StartRemove(c, id)), Advance(c)), Advance(c));
      && again.removals == s.removals + [id, id] && again.backfills == s.backfills + [id, id]
      && !SameDrift(removed, back)
  {
    var removed := Step(Step(Step(s, StartRemove(c, id)), Advance(c)), Advance(c));
    assert removed.inflight == map[] && removed.removals == s.removals + [id];
    var setting := Step(removed, StartStatus(c, id, ACTIVE));
    var back := Step(setting, Advance(c));
    assert Removable(back.applicants, id) && back.inflight == map[];
    StepKeepsOk(s, StartRemove(c, id));
    StepKeepsOk(Step(s, StartRemove(c, id)), Advance(c));
    StepKeepsOk(Step(Step(s, StartRemove(c, id)), Advance(c)), Advance(c));
    StepKeepsOk(removed, StartStatus(c, id, ACTIVE));
    assert MakesDrift(setting, Advance(c));
    DriftIsKeptExactly(setting, Advance(c));
  }
}
