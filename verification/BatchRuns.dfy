/** Sign-ups, first logins, capacity checks and administrators acting on the batches at
    once, one database statement at a time. */
module BatchRuns {
  import opened Wrappers
  import opened Collections
  import opened Batches

  /** Where a request stands. The ones from `Holding` on to a commit hold the lock. */
  datatype Pc =
    | Waiting(gated: bool)
    | Holding(gated: bool)
    | NoneFilling(gated: bool)
    | Numbered(number: int)
    | Seen(id: nat, number: int, capacity: int)
    | Full(id: nat, number: int, capacity: int)
    | HoldingFull(id: nat, number: int, capacity: int)
    | Confirmed(id: nat, number: int, capacity: int, counted: nat)
    | Won(id: nat, number: int)
    | Notified(id: nat, number: int)
    | HoldingNext(id: nat, number: int)
    | NoNext(id: nat, number: int)
    | Moving(id: nat, to: Status)

  predicate Holds(pc: Pc) {
    pc.Holding? || pc.NoneFilling? || pc.Numbered? || pc.HoldingFull? || pc.Confirmed? || pc.HoldingNext? || pc.NoNext?
  }

  /** Between closing a batch and having seen to its successor. */
  predicate Closing(pc: Pc) {
    pc.Won? || pc.Notified? || pc.HoldingNext? || pc.NoNext?
  }

  datatype Flip = Flip(id: nat, counted: nat, capacity: int)

  /** `flips`, `notified` and `completed` record what the capacity checks have done: the
      batches closed, those whose applicants were notified, those whose successor was
      seen to. No request reads them. */
  datatype State = State(batches: seq<Batch>, live: map<nat, nat>, autoEnabled: bool,
                         lock: Option<int>, threads: map<int, Pc>,
                         flips: seq<Flip>, notified: seq<nat>, completed: seq<nat>)

  datatype Event =
    | SignUp(t: int)
    | Login(t: int)
    | Check(t: int)
    | Move(t: int, id: nat, to: Status)
    | Advance(t: int)
    | Abort(t: int)
    | ForceStatus(id: nat, to: Status)
    | SetCapacity(id: nat, capacity: int)
    | SetLive(id: nat, count: nat)
    | SetAuto(enabled: bool)

  function Live(s: State, id: nat): nat {
    if id in s.live then s.live[id] else 0
  }

  /** Request `t` moves on to `pc`, or ends. It holds the lock while it stands inside a
      transaction, and lets go of it by committing, rolling back or dying. */
  function Goto(s: State, t: int, pc: Option<Pc>): State {
    s.(threads := if pc.Some? then s.threads[t := pc.value] else s.threads - {t},
       lock := if pc.Some? && Holds(pc.value) then Some(t) else if s.lock == Some(t) then None else s.lock)
  }

  /** What one statement of a request does to the tables and the ledger, and where the
      request stands after it. */
  datatype Effect = Effect(pc: Option<Pc>, batches: seq<Batch>, flips: seq<Flip>, notified: seq<nat>, completed: seq<nat>)

  function Next(s: State, pc: Pc): Effect {
    var stay := Effect(None, s.batches, s.flips, s.notified, s.completed);
    match pc
    case Waiting(gated) => stay.(pc := Some(if s.lock.None? then Holding(gated) else pc))
    case Holding(gated) =>
      if FirstFilling(s.batches) < |s.batches| then stay else stay.(pc := Some(NoneFilling(gated)))
    case NoneFilling(gated) =>
      if gated && !s.autoEnabled then stay else stay.(pc := Some(Numbered(LastNumber(s.batches) + 1)))
    case Numbered(number) => stay.(batches := s.batches + [NewBatch(number)])
    case Seen(id, number, capacity) =>
      if Live(s, id) < capacity then stay else stay.(pc := Some(Full(id, number, capacity)))
    case Full(id, number, capacity) =>
      stay.(pc := Some(if s.lock.None? then HoldingFull(id, number, capacity) else pc))
    case HoldingFull(id, number, capacity) =>
      if Live(s, id) < capacity then stay else stay.(pc := Some(Confirmed(id, number, capacity, Live(s, id))))
    case Confirmed(id, number, capacity, counted) =>
      if id < |s.batches| && s.batches[id].status.FILLING? then
        stay.(pc := Some(Won(id, number)), batches := SetStatus(s.batches, id, SCREENING),
              flips := s.flips + [Flip(id, counted, capacity)])
      else stay
    case Won(id, number) => stay.(pc := Some(Notified(id, number)), notified := s.notified + [id])
    case Notified(id, number) => stay.(pc := Some(if s.lock.None? then HoldingNext(id, number) else pc))
    case HoldingNext(id, number) =>
      if ExistsFrom(s.batches, number + 1) then stay.(completed := s.completed + [id])
      else stay.(pc := Some(NoNext(id, number)))
    case NoNext(id, number) =>
      stay.(batches := s.batches + [NewBatch(number + 1)], completed := s.completed + [id])
    case Moving(id, to) => stay.(batches := SetStatus(s.batches, id, to))
  }

  function Advanced(s: State, t: int, pc: Pc): State {
    var n := Next(s, pc);
    Goto(s, t, n.pc).(batches := n.batches, flips := n.flips, notified := n.notified, completed := n.completed)
  }

  function Step(s: State, e: Event): State {
    match e
    case SignUp(t) =>
      if t in s.threads || FirstFilling(s.batches) < |s.batches| then s else Goto(s, t, Some(Waiting(true)))
    case Login(t) =>
      if t in s.threads || FirstFilling(s.batches) < |s.batches| then s else Goto(s, t, Some(Waiting(false)))
    case Check(t) =>
      var i := FirstFilling(s.batches);
      if t in s.threads || !s.autoEnabled || i == |s.batches| then s
      else Goto(s, t, Some(Seen(i, s.batches[i].number, s.batches[i].capacity)))
    case Move(t, id, to) =>
      if t in s.threads || id >= |s.batches| || !ValidTransition(s.batches[id].status, to) then s
      else Goto(s, t, Some(Moving(id, to)))
    case Advance(t) => if t in s.threads then Advanced(s, t, s.threads[t]) else s
    case Abort(t) => if t in s.threads then Goto(s, t, None) else s
    case ForceStatus(id, to) => if to.FILLING? then s else s.(batches := SetStatus(s.batches, id, to))
    case SetCapacity(id, capacity) =>
      if id < |s.batches| then s.(batches := s.batches[id := s.batches[id].(capacity := capacity)]) else s
    case SetLive(id, count) => s.(live := s.live[id := count])
    case SetAuto(enabled) => s.(autoEnabled := enabled)
  }

  function Run(s: State, es: seq<Event>): State
    decreases |es|
  {
    if es == [] then s else Run(Step(s, es[0]), es[1..])
  }

  function Init(): State { State([], map[], false, None, map[], [], [], []) }

  // ----- the invariant

  ghost predicate PcOk(batches: seq<Batch>, pc: Pc) {
    match pc
    case NoneFilling(_) => FirstFilling(batches) == |batches|
    case Numbered(number) => FirstFilling(batches) == |batches| && number == |batches| + 1
    case Seen(id, number, _) => id < |batches| && number == id + 1
    case Full(id, number, _) => id < |batches| && number == id + 1
    case HoldingFull(id, number, _) => id < |batches| && number == id + 1
    case Confirmed(id, number, capacity, counted) => id < |batches| && number == id + 1 && counted >= capacity
    case Won(id, number) => id < |batches| && number == id + 1 && !batches[id].status.FILLING?
    case Notified(id, number) => id < |batches| && number == id + 1 && !batches[id].status.FILLING?
    case HoldingNext(id, number) => id < |batches| && number == id + 1 && !batches[id].status.FILLING?
    case NoNext(id, number) => id == |batches| - 1 && number == id + 1 && !batches[id].status.FILLING?
    case Moving(_, to) => !to.FILLING?
    case _ => true
  }

  ghost predicate LockOk(s: State) {
    && (forall t | t in s.threads :: Holds(s.threads[t]) ==> s.lock == Some(t))
    && (s.lock.Some? ==> s.lock.value in s.threads && Holds(s.threads[s.lock.value]))
  }

  ghost predicate Core(s: State) {
    && TableOk(s.batches)
    && LockOk(s)
    && forall t | t in s.threads :: PcOk(s.batches, s.threads[t])
  }

  ghost predicate Flipped(s: State, id: nat) {
    exists k :: 0 <= k < |s.flips| && s.flips[k].id == id
  }

  ghost predicate FlipsOk(s: State) {
    && (forall k | 0 <= k < |s.flips| ::
          && s.flips[k].id < |s.batches| && !s.batches[s.flips[k].id].status.FILLING?
          && s.flips[k].counted >= s.flips[k].capacity)
    && (forall k, l | 0 <= k < l < |s.flips| :: s.flips[k].id != s.flips[l].id)
  }

  ghost predicate ListsOk(s: State) {
    && NoDuplicates(s.notified) && (forall id | id in s.notified :: Flipped(s, id))
    && NoDuplicates(s.completed) && (forall id | id in s.completed :: id in s.notified && id + 1 < |s.batches|)
  }

  ghost predicate CloserOk(s: State, pc: Pc) {
    Closing(pc) ==> Flipped(s, pc.id) && pc.id !in s.completed && (pc.Won? <==> pc.id !in s.notified)
  }

  /** What the closing requests have done so far, each batch by one request at most. */
  ghost predicate Ledger(s: State) {
    && FlipsOk(s) && ListsOk(s)
    && (forall t | t in s.threads :: CloserOk(s, s.threads[t]))
    && (forall t, u | t in s.threads && u in s.threads && t != u ::
          Closing(s.threads[t]) && Closing(s.threads[u]) ==> s.threads[t].id != s.threads[u].id)
  }

  ghost predicate Inv(s: State) { Core(s) && Ledger(s) }

  // ----- every step keeps it

  /** Batches change only by leaving FILLING, moving on, or being created. */
  ghost predicate Evolves(batches: seq<Batch>, later: seq<Batch>) {
    && |batches| <= |later|
    && forall i {:trigger later[i]} {:trigger batches[i]} | 0 <= i < |batches| ::
         later[i].number == batches[i].number && (later[i].status.FILLING? ==> batches[i].status.FILLING?)
  }

  /** Same number of batches: everyone's knowledge stays true. */
  lemma PcSurvivesUpdate(batches: seq<Batch>, later: seq<Batch>, pc: Pc)
    requires PcOk(batches, pc) && Evolves(batches, later) && |later| == |batches|
    ensures PcOk(later, pc)
  {
  }

  /** A new batch: the knowledge of those who do not hold the lock stays true. */
  lemma PcSurvivesCreate(batches: seq<Batch>, number: int, pc: Pc)
    requires PcOk(batches, pc) && !Holds(pc)
    ensures PcOk(batches + [NewBatch(number)], pc)
  {
  }

  lemma CreateKeepsTable(batches: seq<Batch>)
    requires TableOk(batches) && FirstFilling(batches) == |batches|
    ensures TableOk(batches + [NewBatch(|batches| + 1)])
    ensures Evolves(batches, batches + [NewBatch(|batches| + 1)])
  {
  }

  lemma LastIsNotFilling(batches: seq<Batch>)
    requires TableOk(batches) && (batches != [] ==> !batches[|batches| - 1].status.FILLING?)
    ensures FirstFilling(batches) == |batches|
  {
  }

  predicate Creates(pc: Pc) { pc.Numbered? || pc.NoNext? }

  /** One statement: the table stays in order, the request's new knowledge is right, and
      only a request that holds the lock adds a batch. */
  lemma NextIsOk(s: State, pc: Pc)
    requires TableOk(s.batches) && PcOk(s.batches, pc)
    ensures var n := Next(s, pc);
      && TableOk(n.batches) && Evolves(s.batches, n.batches)
      && (n.pc.Some? ==> PcOk(n.batches, n.pc.value))
      && if Creates(pc) then n.pc.None? && n.batches == s.batches + [NewBatch(|s.batches| + 1)]
         else |n.batches| == |s.batches|
  {
    if pc.NoneFilling? {
      LastNumberIsLength(s.batches);
    } else if pc.HoldingNext? {
      LaterExists(s.batches, pc.number + 1);
    } else if pc.NoNext? {
      LastIsNotFilling(s.batches);
      CreateKeepsTable(s.batches);
    } else if pc.Numbered? {
      CreateKeepsTable(s.batches);
    }
  }

  lemma GotoKeepsLock(s: State, t: int, pc: Option<Pc>)
    requires LockOk(s) && (pc.Some? && Holds(pc.value) ==> s.lock.None? || s.lock == Some(t))
    ensures LockOk(Goto(s, t, pc))
  {
  }

  lemma NextKeepsLock(s: State, t: int)
    requires LockOk(s) && t in s.threads
    ensures var pc := Next(s, s.threads[t]).pc; pc.Some? && Holds(pc.value) ==> s.lock.None? || s.lock == Some(t)
  {
  }

  lemma AdvanceKeepsCore(s: State, t: int)
    requires Core(s) && t in s.threads
    ensures Core(Step(s, Advance(t))) && Evolves(s.batches, Step(s, Advance(t)).batches)
  {
    var s', pc := Step(s, Advance(t)), s.threads[t];
    NextIsOk(s, pc);
    NextKeepsLock(s, t);
    GotoKeepsLock(s, t, Next(s, pc).pc);
    forall u | u in s'.threads ensures PcOk(s'.batches, s'.threads[u]) {
      if u != t {
        if Creates(pc) {
          assert !Holds(s.threads[u]);
          PcSurvivesCreate(s.batches, |s.batches| + 1, s.threads[u]);
        } else {
          PcSurvivesUpdate(s.batches, s'.batches, s.threads[u]);
        }
      }
    }
  }

  lemma GotoKeepsCore(s: State, t: int, pc: Option<Pc>)
    requires Core(s) && (pc.Some? ==> !Holds(pc.value) && PcOk(s.batches, pc.value))
    ensures Core(Goto(s, t, pc))
  {
  }

  /** What administrators do outside the lock. */
  lemma UpdateKeepsCore(s: State, batches: seq<Batch>)
    requires Core(s) && Evolves(s.batches, batches) && |batches| == |s.batches|
    ensures Core(s.(batches := batches))
  {
  }

  lemma StartKeepsCore(s: State, e: Event)
    requires Core(s) && (e.Check? || e.Move?)
    ensures Core(Step(s, e)) && Step(s, e).batches == s.batches
  {
    var s' := Step(s, e);
    if s' != s {
      GotoKeepsCore(s, e.t, Some(s'.threads[e.t]));
    }
  }

  lemma OtherStepKeepsCore(s: State, e: Event)
    requires Core(s) && !e.Advance?
    ensures Core(Step(s, e)) && Evolves(s.batches, Step(s, e).batches)
  {
    var s' := Step(s, e);
    match e
    case SignUp(t) => GotoKeepsCore(s, t, Some(Waiting(true)));
    case Login(t) => GotoKeepsCore(s, t, Some(Waiting(false)));
    case Check(t) => StartKeepsCore(s, e);
    case Move(t, id, to) => StartKeepsCore(s, e);
    case Abort(t) => GotoKeepsCore(s, t, None);
    case ForceStatus(id, to) => UpdateKeepsCore(s, s'.batches);
    case SetCapacity(id, capacity) => UpdateKeepsCore(s, s'.batches);
    case _ =>
  }

  lemma StepKeepsCore(s: State, e: Event)
    requires Core(s)
    ensures Core(Step(s, e)) && Evolves(s.batches, Step(s, e).batches)
  {
    if e.Advance? {
      if e.t in s.threads {
        AdvanceKeepsCore(s, e.t);
      }
    } else {
      OtherStepKeepsCore(s, e);
    }
  }

  /** Does the statement add to the ledger? */
  predicate Records(pc: Pc) {
    pc.Confirmed? || pc.Won? || pc.HoldingNext? || pc.NoNext?
  }

  /** `later` has the ledger of `s`, and a closing request of `later` was the same closing
      request in `s`. */
  ghost predicate SameClosers(s: State, later: State) {
    && later.flips == s.flips && later.notified == s.notified && later.completed == s.completed
    && Evolves(s.batches, later.batches)
    && forall t | t in later.threads && Closing(later.threads[t]) ::
         && t in s.threads && Closing(s.threads[t])
         && s.threads[t].id == later.threads[t].id && (s.threads[t].Won? <==> later.threads[t].Won?)
  }

  lemma SameClosersKeepLedger(s: State, later: State)
    requires Ledger(s) && SameClosers(s, later)
    ensures Ledger(later)
  {
  }

  lemma QuietNextKeepsClosing(s: State, pc: Pc)
    requires !Records(pc)
    ensures var n := Next(s, pc);
      && n.flips == s.flips && n.notified == s.notified && n.completed == s.completed
      && (n.pc.Some? && Closing(n.pc.value) ==>
            Closing(pc) && n.pc.value.id == pc.id && (pc.Won? <==> n.pc.value.Won?))
  {
  }

  lemma QuietStepKeepsClosers(s: State, e: Event)
    requires e.Advance? && e.t in s.threads ==> !Records(s.threads[e.t])
    requires Evolves(s.batches, Step(s, e).batches)
    ensures SameClosers(s, Step(s, e))
  {
    if e.Advance? && e.t in s.threads {
      QuietNextKeepsClosing(s, s.threads[e.t]);
    }
  }

  lemma FlipKeepsLedger(s: State, t: int)
    requires Inv(s) && t in s.threads && s.threads[t].Confirmed?
    ensures Ledger(Step(s, Advance(t)))
  {
    var s', pc := Step(s, Advance(t)), s.threads[t];
    NextIsOk(s, pc);
    if s.batches[pc.id].status.FILLING? {
      assert !Flipped(s, pc.id);
      assert s'.flips[|s.flips|].id == pc.id;
      forall id | Flipped(s, id) ensures Flipped(s', id) {
        var k :| 0 <= k < |s.flips| && s.flips[k].id == id;
        assert s'.flips[k].id == id;
      }
      forall u | u in s'.threads ensures CloserOk(s', s'.threads[u]) {
        assert u != t ==> CloserOk(s, s.threads[u]);
      }
    } else {
      SameClosersKeepLedger(s, s');
    }
  }

  lemma NotifyKeepsLedger(s: State, t: int)
    requires Inv(s) && t in s.threads && s.threads[t].Won?
    ensures Ledger(Step(s, Advance(t)))
  {
    var s', pc := Step(s, Advance(t)), s.threads[t];
    assert CloserOk(s, pc);
    assert forall id | Flipped(s, id) :: Flipped(s', id);
    forall u | u in s'.threads ensures CloserOk(s', s'.threads[u]) {
      assert u != t ==> CloserOk(s, s.threads[u]);
    }
  }

  lemma CompleteKeepsLedger(s: State, t: int)
    requires Inv(s) && t in s.threads && (s.threads[t].HoldingNext? || s.threads[t].NoNext?)
    ensures Ledger(Step(s, Advance(t)))
  {
    var s', pc := Step(s, Advance(t)), s.threads[t];
    assert CloserOk(s, pc);
    NextIsOk(s, pc);
    LaterExists(s.batches, pc.number + 1);
    assert forall id | Flipped(s, id) :: Flipped(s', id);
    forall u | u in s'.threads ensures CloserOk(s', s'.threads[u]) {
      assert u != t ==> CloserOk(s, s.threads[u]);
    }
  }

  lemma StepKeepsInv(s: State, e: Event)
    requires Inv(s)
    ensures Inv(Step(s, e)) && Evolves(s.batches, Step(s, e).batches)
  {
    StepKeepsCore(s, e);
    if e.Advance? && e.t in s.threads && Records(s.threads[e.t]) {
      if s.threads[e.t].Confirmed? {
        FlipKeepsLedger(s, e.t);
      } else if s.threads[e.t].Won? {
        NotifyKeepsLedger(s, e.t);
      } else {
        CompleteKeepsLedger(s, e.t);
      }
    } else {
      QuietStepKeepsClosers(s, e);
      SameClosersKeepLedger(s, Step(s, e));
    }
  }

  // ----- main results

  lemma {:induction false} RunKeepsInv(s: State, es: seq<Event>)
    requires Inv(s)
    ensures Inv(Run(s, es)) && Evolves(s.batches, Run(s, es).batches)
    decreases |es|
  {
    if es != [] {
      StepKeepsInv(s, es[0]);
      RunKeepsInv(Step(s, es[0]), es[1..]);
      EvolvesTransitive(s.batches, Step(s, es[0]).batches, Run(s, es).batches);
    }
  }

  lemma EvolvesTransitive(a: seq<Batch>, b: seq<Batch>, c: seq<Batch>)
    requires Evolves(a, b) && Evolves(b, c)
    ensures Evolves(a, c)
  {
  }

  /** In every run: batch numbers are 1, 2, 3, ..., at most one batch is filling, and it
      is the highest numbered; a batch that has stopped filling never fills again. */
  lemma BatchesStayInOrder(es: seq<Event>, more: seq<Event>)
    ensures var batches, later := Run(Init(), es).batches, Run(Run(Init(), es), more).batches;
      && (forall i | 0 <= i < |batches| :: batches[i].number == i + 1)
      && (forall i, j | 0 <= i < |batches| && 0 <= j < |batches| && batches[i].status.FILLING? ::
            batches[j].number <= batches[i].number && (batches[j].status.FILLING? ==> i == j))
      && |batches| <= |later|
      && (forall i | 0 <= i < |batches| && !batches[i].status.FILLING? :: !later[i].status.FILLING?)
  {
    RunKeepsInv(Init(), es);
    RunKeepsInv(Run(Init(), es), more);
  }

  /** In every run: the capacity check closes a batch at most once, having counted at
      least the capacity it read; only a closed batch has its applicants notified, and
      only once; and the next number then exists exactly once. */
  lemma BatchesCloseOnce(es: seq<Event>)
    ensures var s := Run(Init(), es);
      && (forall k, l | 0 <= k < l < |s.flips| :: s.flips[k].id != s.flips[l].id)
      && (forall k | 0 <= k < |s.flips| :: s.flips[k].counted >= s.flips[k].capacity)
      && NoDuplicates(s.notified) && (forall id | id in s.notified :: Flipped(s, id))
      && NoDuplicates(s.completed)
      && (forall id | id in s.completed ::
            && Flipped(s, id) && id in s.notified && id + 1 < |s.batches|
            && forall j | 0 <= j < |s.batches| :: s.batches[j].number == s.batches[id].number + 1 <==> j == id + 1)
  {
    RunKeepsInv(Init(), es);
  }

  /** The lock is held by a request inside its transaction and by nobody else. */
  lemma LockIsExclusive(es: seq<Event>, t: int, u: int)
    requires var s := Run(Init(), es); t in s.threads && u in s.threads && Holds(s.threads[t]) && Holds(s.threads[u])
    ensures t == u && Run(Init(), es).lock == Some(t)
  {
    RunKeepsInv(Init(), es);
  }

  function Steps(s: State, t: int, n: nat): State
    decreases n
  {
    if n == 0 then s else Steps(Step(s, Advance(t)), t, n - 1)
  }

  /** Request `t`, left alone, takes the system from `s` to `later`. */
  ghost predicate Alone(s: State, t: int, later: State) {
    exists n: nat :: Steps(s, t, n) == later
  }

  lemma AloneSelf(s: State, t: int)
    ensures Alone(s, t, s)
  {
    assert Steps(s, t, 0) == s;
  }

  lemma AloneStep(s: State, t: int, later: State)
    requires Alone(Step(s, Advance(t)), t, later)
    ensures Alone(s, t, later)
  {
    var n: nat :| Steps(Step(s, Advance(t)), t, n) == later;
    assert Steps(s, t, n + 1) == later;
  }

  lemma {:induction false} StepsSplit(s: State, t: int, m: nat, n: nat)
    ensures Steps(s, t, m + n) == Steps(Steps(s, t, m), t, n)
    decreases m
  {
    if m > 0 {
      StepsSplit(Step(s, Advance(t)), t, m - 1, n);
    }
  }

  lemma AloneTransitive(s: State, t: int, middle: State, later: State)
    requires Alone(s, t, middle) && Alone(middle, t, later)
    ensures Alone(s, t, later)
  {
    var m: nat :| Steps(s, t, m) == middle;
    var n: nat :| Steps(middle, t, n) == later;
    StepsSplit(s, t, m, n);
  }

  lemma {:induction false} StepsKeepInv(s: State, t: int, n: nat)
    requires Inv(s)
    ensures Inv(Steps(s, t, n))
    decreases n
  {
    if n > 0 {
      StepKeepsInv(s, Advance(t));
      StepsKeepInv(Step(s, Advance(t)), t, n - 1);
    }
  }

  lemma AloneKeepsInv(s: State, t: int, later: State)
    requires Inv(s) && Alone(s, t, later)
    ensures Inv(later)
  {
    var n: nat :| Steps(s, t, n) == later;
    StepsKeepInv(s, t, n);
  }

  /** Two and three statements in a row. */
  lemma AloneTwo(s: State, t: int)
    ensures Alone(s, t, Step(Step(s, Advance(t)), Advance(t)))
  {
    var s1 := Step(s, Advance(t));
    AloneSelf(Step(s1, Advance(t)), t);
    AloneStep(s1, t, Step(s1, Advance(t)));
    AloneStep(s, t, Step(s1, Advance(t)));
  }

  lemma AloneThree(s: State, t: int)
    ensures Alone(s, t, Step(Step(Step(s, Advance(t)), Advance(t)), Advance(t)))
  {
    var s1 := Step(s, Advance(t));
    AloneTwo(s1, t);
    AloneStep(s, t, Step(Step(s1, Advance(t)), Advance(t)));
  }

  /** The request has ended, leaving these batches and the lock free. */
  predicate Ended(s: State, t: int, batches: seq<Batch>) {
    t !in s.threads && s.batches == batches && s.lock.None?
  }

  /** The batches after a sign-up or a first login: with one to fill, except for a sign-up
      while automatic batches are off. */
  function Opened(s: State, gated: bool): seq<Batch> {
    if gated && !s.autoEnabled then s.batches else WithFilling(s.batches)
  }

  /** A first login that nothing disturbs does what the service method does. */
  lemma LoginAlone(s: State, t: int)
    requires Inv(s) && t !in s.threads && s.lock.None?
    ensures exists later :: Alone(Step(s, Login(t)), t, later) && Ended(later, t, WithFilling(s.batches))
  {
    if FirstFilling(s.batches) == |s.batches| {
      WaiterCreates(s, Step(s, Login(t)), t, false);
    } else {
      AloneSelf(s, t);
      assert Ended(s, t, WithFilling(s.batches));
    }
  }

  /** And so does a sign-up, which opens no batch while automatic batches are off. */
  lemma SignUpAlone(s: State, t: int)
    requires Inv(s) && t !in s.threads && s.lock.None?
    ensures exists later :: Alone(Step(s, SignUp(t)), t, later)
              && Ended(later, t, Opened(s, true))
  {
    if FirstFilling(s.batches) == |s.batches| {
      WaiterCreates(s, Step(s, SignUp(t)), t, true);
    } else {
      AloneSelf(s, t);
      assert Ended(s, t, Opened(s, true));
    }
  }

  lemma WaiterCreates(s: State, s0: State, t: int, gated: bool)
    requires t in s0.threads && s0.threads[t] == Waiting(gated) && s0.lock.None?
    requires s0.batches == s.batches && s0.autoEnabled == s.autoEnabled && FirstFilling(s.batches) == |s.batches|
    ensures exists later :: Alone(s0, t, later)
              && Ended(later, t, Opened(s, gated))
  {
    var s1 := Step(s0, Advance(t));
    assert s1.threads[t] == Holding(gated) && s1.batches == s.batches && s1.lock == Some(t) && s1.autoEnabled == s.autoEnabled;
    HolderCreates(s1, t, gated);
    var later :| Alone(s1, t, later)
                 && Ended(later, t, Opened(s, gated));
    AloneStep(s0, t, later);
  }

  lemma HolderCreates(s: State, t: int, gated: bool)
    requires t in s.threads && s.threads[t] == Holding(gated) && s.lock == Some(t)
    requires FirstFilling(s.batches) == |s.batches|
    ensures exists later :: Alone(s, t, later)
              && Ended(later, t, Opened(s, gated))
  {
    var s1 := Step(s, Advance(t));
    assert s1.threads[t] == NoneFilling(gated) && s1.batches == s.batches && s1.lock == Some(t);
    var s2 := Step(s1, Advance(t));
    if gated && !s.autoEnabled {
      AloneTwo(s, t);
      assert Ended(s2, t, Opened(s, gated));
    } else {
      assert s2.threads[t] == Numbered(LastNumber(s.batches) + 1) && s2.batches == s.batches && s2.lock == Some(t);
      AloneThree(s, t);
      assert Ended(Step(s2, Advance(t)), t, Opened(s, gated));
    }
  }

  /** An administrator's move that nothing disturbs takes a batch one stage on, or is
      refused. */
  lemma MoveAlone(s: State, t: int, id: nat, to: Status)
    requires Inv(s) && t !in s.threads
    ensures var moved, s' := id < |s.batches| && Stage(to) == Stage(s.batches[id].status) + 1,
                             Step(Step(s, Move(t, id, to)), Advance(t));
      && t !in s'.threads && |s'.batches| == |s.batches|
      && (moved ==> s'.batches[id] == s.batches[id].(status := to))
      && forall k | 0 <= k < |s.batches| && (k != id || !moved) :: s'.batches[k] == s.batches[k]
  {
    if id < |s.batches| {
      TransitionsStepForward(s.batches[id].status, to);
    }
  }

  /** What the other steps do: a request that dies leaves the tables alone and lets go of
      its lock, and administrators' writes take effect on the one batch. */
  lemma OtherStepsTakeEffect(s: State, t: int, id: nat, to: Status, capacity: int)
    requires Inv(s)
    ensures var s' := Step(s, Abort(t));
      s'.batches == s.batches && t !in s'.threads && s'.lock != Some(t)
      && forall u | u != t :: (u in s'.threads <==> u in s.threads) && (u in s.threads ==> s'.threads[u] == s.threads[u])
    ensures id < |s.batches| && to != FILLING ==>
      Step(s, ForceStatus(id, to)).batches == s.batches[id := s.batches[id].(status := to)]
    ensures id < |s.batches| ==>
      Step(s, SetCapacity(id, capacity)).batches == s.batches[id := s.batches[id].(capacity := capacity)]
    ensures Live(Init(), id) == 0
  {
  }

  predicate IsFull(s: State) {
    var i := FirstFilling(s.batches);
    s.autoEnabled && i < |s.batches| && Live(s, i) >= s.batches[i].capacity
  }

  /** Nothing has been written down since. */
  predicate SameLedger(s: State, later: State) {
    later.flips == s.flips && later.notified == s.notified && later.completed == s.completed
  }

  /** Where an undisturbed check of a full batch stands after its re-count. */
  ghost predicate Recounted(s: State, s': State, t: int) {
    var i := FirstFilling(s.batches);
    && i < |s.batches| && t in s'.threads
    && s'.threads[t] == Confirmed(i, s.batches[i].number, s.batches[i].capacity, Live(s, i))
    && s'.batches == s.batches && s'.live == s.live && s'.lock == Some(t) && SameLedger(s, s')
  }

  lemma CheckConfirms(s: State, t: int)
    requires t !in s.threads && s.lock.None? && IsFull(s)
    ensures exists later :: Alone(Step(s, Check(t)), t, later) && Recounted(s, later, t)
  {
    var i := FirstFilling(s.batches);
    var number, capacity := s.batches[i].number, s.batches[i].capacity;
    var s0 := Step(s, Check(t));
    assert s0.threads[t] == Seen(i, number, capacity) && s0.lock.None? && s0.live == s.live && s0.batches == s.batches;
    var s1 := Step(s0, Advance(t));
    assert s1.threads[t] == Full(i, number, capacity) && s1.lock.None? && s1.live == s.live && s1.batches == s.batches;
    var s2 := Step(s1, Advance(t));
    assert s2.threads[t] == HoldingFull(i, number, capacity) && s2.lock == Some(t) && SameLedger(s, s2);
    assert s2.live == s.live && s2.batches == s.batches;
    AloneThree(s0, t);
    assert Recounted(s, Step(s2, Advance(t)), t);
  }

  /** ... and where it stands once it holds the lock again, its batch closed. */
  ghost predicate InSecondLock(s: State, s': State, t: int) {
    && t in s.threads && s.threads[t].Confirmed? && t in s'.threads
    && var pc := s.threads[t];
    && s'.threads[t] == HoldingNext(pc.id, pc.number)
    && s'.batches == SetStatus(s.batches, pc.id, SCREENING) && s'.lock == Some(t)
    && s'.flips == s.flips + [Flip(pc.id, pc.counted, pc.capacity)]
    && s'.notified == s.notified + [pc.id] && s'.completed == s.completed
  }

  lemma CloserReachesSecondLock(s: State, t: int)
    requires Core(s) && t in s.threads && s.threads[t].Confirmed? && s.batches[s.threads[t].id].status.FILLING?
    ensures exists later :: Alone(s, t, later) && InSecondLock(s, later, t)
  {
    assert PcOk(s.batches, s.threads[t]) && s.lock == Some(t);
    var id, number := s.threads[t].id, s.threads[t].number;
    var closed := SetStatus(s.batches, id, SCREENING);
    var s1 := Step(s, Advance(t));
    assert s1.lock.None? && t in s1.threads && s1.threads[t] == Won(id, number) && s1.batches == closed;
    var s2 := Step(s1, Advance(t));
    assert s2.lock.None? && t in s2.threads && s2.threads[t] == Notified(id, number) && s2.batches == closed;
    AloneThree(s, t);
    assert InSecondLock(s, Step(s2, Advance(t)), t);
  }

  /** The check has ended: the last batch closed, its applicants notified, the next batch
      open, and the lock free. */
  ghost predicate HasRolled(s: State, later: State, t: int, counted: nat)
    requires s.batches != []
  {
    var i := |s.batches| - 1;
    && Ended(later, t, Rolled(s.batches))
    && later.flips == s.flips + [Flip(i, counted, s.batches[i].capacity)]
    && later.notified == s.notified + [i] && later.completed == s.completed + [i]
  }

  /** ... and at its end, the next batch open. */
  ghost predicate HasOpened(s: State, later: State, t: int) {
    && Ended(later, t, s.batches + [NewBatch(|s.batches| + 1)])
    && later.flips == s.flips && later.notified == s.notified && later.completed == s.completed + [|s.batches| - 1]
  }

  lemma CloserCreates(s: State, t: int)
    requires TableOk(s.batches) && s.batches != [] && t in s.threads && s.lock == Some(t)
    requires s.threads[t] == HoldingNext(|s.batches| - 1, |s.batches|)
    ensures exists later :: Alone(s, t, later) && HasOpened(s, later, t)
  {
    LaterExists(s.batches, |s.batches| + 1);
    var s1 := Step(s, Advance(t));
    assert s1.threads[t] == NoNext(|s.batches| - 1, |s.batches|) && s1.batches == s.batches && s1.lock == Some(t);
    assert SameLedger(s, s1);
    AloneTwo(s, t);
    assert HasOpened(s, Step(s1, Advance(t)), t);
  }

  lemma CheckCloses(s: State, t: int)
    requires Inv(s) && t in s.threads && s.threads[t].Confirmed? && s.threads[t].id == |s.batches| - 1
    requires s.batches[s.threads[t].id].status.FILLING? && s.threads[t].capacity == s.batches[s.threads[t].id].capacity
    ensures exists later :: Alone(s, t, later) && HasRolled(s, later, t, s.threads[t].counted)
  {
    assert PcOk(s.batches, s.threads[t]);
    CloserReachesSecondLock(s, t);
    var middle :| Alone(s, t, middle) && InSecondLock(s, middle, t);
    AloneKeepsInv(s, t, middle);
    CloserCreates(middle, t);
    var later :| Alone(middle, t, later) && HasOpened(middle, later, t);
    AloneTransitive(s, t, middle, later);
    OpenedIsRolled(s, middle, later, t);
  }

  lemma OpenedIsRolled(s: State, middle: State, later: State, t: int)
    requires t in s.threads && s.threads[t].Confirmed? && s.batches != [] && s.threads[t].id == |s.batches| - 1
    requires s.threads[t].capacity == s.batches[|s.batches| - 1].capacity
    requires InSecondLock(s, middle, t) && HasOpened(middle, later, t)
    ensures HasRolled(s, later, t, s.threads[t].counted)
  {
  }

  /** A capacity check that nothing disturbs does what the service method does: it closes
      a full batch, the last one, notifies its applicants and opens the next. */
  lemma CheckAlone(s: State, t: int)
    requires Inv(s) && t !in s.threads && s.lock.None? && IsFull(s)
    ensures FirstFilling(s.batches) == |s.batches| - 1
    ensures exists later :: Alone(Step(s, Check(t)), t, later) && HasRolled(s, later, t, Live(s, |s.batches| - 1))
  {
    var s0 := Step(s, Check(t));
    StepKeepsInv(s, Check(t));
    FillingIsLast(s.batches);
    CheckConfirms(s, t);
    var middle :| Alone(s0, t, middle) && Recounted(s, middle, t);
    AloneKeepsInv(s0, t, middle);
    CheckCloses(middle, t);
    var later :| Alone(middle, t, later) && HasRolled(middle, later, t, middle.threads[t].counted);
    AloneTransitive(s0, t, middle, later);
    assert HasRolled(s, later, t, Live(s, |s.batches| - 1));
  }

  /** And of a batch with a free seat, or without one that is filling, or while automatic
      batches are off, it ends at once and leaves all tables alone. */
  lemma CheckOfRoomAlone(s: State, t: int)
    requires Inv(s) && t !in s.threads && s.lock.None?
    requires !s.autoEnabled || (forall i | 0 <= i < |s.batches| && s.batches[i].status.FILLING? :: Live(s, i) < s.batches[i].capacity)
    ensures exists later :: Alone(Step(s, Check(t)), t, later) && Ended(later, t, s.batches) && SameLedger(s, later)
  {
    var s0 := Step(s, Check(t));
    AloneSelf(s0, t);
    if t in s0.threads {
      AloneSelf(Step(s0, Advance(t)), t);
      AloneStep(s0, t, Step(s0, Advance(t)));
      assert Ended(Step(s0, Advance(t)), t, s.batches);
    } else {
      assert Ended(s0, t, s.batches);
    }
  }

  /** A batch is full from its capacity on. */
  lemma FullExactly(s: State)
    ensures IsFull(s) <==> s.autoEnabled && exists i ::
              0 <= i < |s.batches| && s.batches[i].status == FILLING && s.batches[i].capacity <= Live(s, i)
              && forall j | 0 <= j < i :: s.batches[j].status != FILLING
  {
    var i := FirstFilling(s.batches);
    if j :| 0 <= j < |s.batches| && s.batches[j].status == FILLING && s.batches[j].capacity <= Live(s, j)
            && forall k | 0 <= k < j :: s.batches[k].status != FILLING {
      assert i == j;
    }
  }

  // ----- full when closed?

  /** The head count of a batch after a run: the last one that came about in it. */
  function LastCount(es: seq<Event>, id: nat, count: nat): nat {
    if es == [] then count
    else LastCount(es[1..], id, if es[0].SetLive? && es[0].id == id then es[0].count else count)
  }

  lemma LiveAfterStep(s: State, e: Event, id: nat)
    ensures Live(Step(s, e), id) == if e.SetLive? && e.id == id then e.count else Live(s, id)
  {
  }

  lemma {:induction false} LiveIsLast(s: State, es: seq<Event>, id: nat)
    ensures Live(Run(s, es), id) == LastCount(es, id, Live(s, id))
    decreases |es|
  {
    if es != [] {
      LiveAfterStep(s, es[0], id);
      LiveIsLast(Step(s, es[0]), es[1..], id);
    }
  }

  /** A removal between the check's first count and its lock is not missed: holding the
      lock, the check goes on exactly if the batch is still full then, and otherwise ends,
      closing nothing. */
  lemma RecountSeesRemovals(s: State, t: int, between: seq<Event>)
    requires t in s.threads && s.threads[t].Seen?
    requires var s' := Run(s, between);
             t in s'.threads && s'.threads[t] == HoldingFull(s.threads[t].id, s.threads[t].number, s.threads[t].capacity)
    ensures var s', id := Run(s, between), s.threads[t].id;
            var after, count := Step(s', Advance(t)), LastCount(between, id, Live(s, id));
      && after.batches == s'.batches && after.flips == s'.flips
      && (count >= s.threads[t].capacity ==>
            t in after.threads && after.threads[t] == Confirmed(id, s.threads[t].number, s.threads[t].capacity, count))
      && (count < s.threads[t].capacity ==> t !in after.threads)
  {
    LiveIsLast(s, between, s.threads[t].id);
  }

  /** Between the re-count and the update a removal is missed, as it does not take the
      lock: the batch closes with at least the capacity that was read exactly if the last
      head count by then, or the one counted if there was none since, is at least that. */
  lemma ClosesFullExactly(s: State, t: int, between: seq<Event>)
    requires Inv(s) && t in s.threads && s.threads[t].HoldingFull? && Live(s, s.threads[t].id) >= s.threads[t].capacity
    requires var counted := Step(s, Advance(t));
             var s' := Run(counted, between);
             t in counted.threads && t in s'.threads && s'.threads[t] == counted.threads[t]
             && s.threads[t].id < |s'.batches| && s'.batches[s.threads[t].id].status.FILLING?
    ensures var id, capacity := s.threads[t].id, s.threads[t].capacity;
            var closed := Step(Run(Step(s, Advance(t)), between), Advance(t));
      && id < |closed.batches| && closed.batches[id].status.SCREENING?
      && (Live(closed, id) >= capacity <==> LastCount(between, id, Live(s, id)) >= capacity)
  {
    LiveIsLast(Step(s, Advance(t)), between, s.threads[t].id);
  }

  /** From every state with a full batch there is such a run that closes it short. */
  lemma RemovalBeatsRecount(s: State, t: int, fewer: nat)
    requires t !in s.threads && s.lock.None? && IsFull(s) && fewer < s.batches[FirstFilling(s.batches)].capacity
    ensures exists middle :: Alone(Step(s, Check(t)), t, middle) && Recounted(s, middle, t)
              && var i := FirstFilling(s.batches);
                 var closed := Step(Step(middle, SetLive(i, fewer)), Advance(t));
                 i < |closed.batches| && closed.batches[i].status.SCREENING? && Live(closed, i) < closed.batches[i].capacity
  {
    CheckConfirms(s, t);
    var middle :| Alone(Step(s, Check(t)), t, middle) && Recounted(s, middle, t);
    RemovalAfterRecount(s, middle, t, fewer);
  }

  lemma RemovalAfterRecount(s: State, s': State, t: int, fewer: nat)
    requires Recounted(s, s', t) && fewer < s.batches[FirstFilling(s.batches)].capacity
    ensures var i := FirstFilling(s.batches);
            var closed := Step(Step(s', SetLive(i, fewer)), Advance(t));
            |closed.batches| == |s.batches| && closed.batches[i].status.SCREENING?
            && Live(closed, i) < closed.batches[i].capacity
  {
  }
}
