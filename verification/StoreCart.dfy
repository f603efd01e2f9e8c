/** The storefront's cart context: a request counter decides which asynchronous responses
    may be shown. The server's cart is known by its version alone. */
module StoreCart {
  import opened Wrappers

  /** The refs and state of the provider that decide what is shown, and the two tokens in
      local storage that identify the visitor. */
  datatype Client = Client(cart: Option<nat>, reqSeq: nat, mutating: bool, guestToken: bool, customer: bool)
  {
    predicate HasIdentity() { guestToken || customer }
  }

  datatype Response = Loaded(version: nat) | Gone | Failed

  // ----- what the callbacks do between two awaits

  /** Start of `refresh`: claim a token. Without an identity there is nothing to fetch. */
  function Claimed(c: Client): Client {
    c.(reqSeq := c.reqSeq + 1, cart := if c.HasIdentity() then c.cart else None)
  }

  /** End of `refresh`: a response counts only while its token is the latest. */
  function Refreshed(c: Client, token: nat, r: Response): Client {
    if token != c.reqSeq then c
    else
      match r
      case Loaded(v) => c.(cart := Some(v))
      case Gone => c.(cart := None, guestToken := false)
      case Failed => c
  }

  function Begun(c: Client): Client { c.(mutating := true, reqSeq := c.reqSeq + 1) }

  function Minted(c: Client): Client { c.(guestToken := c.guestToken || !c.customer) }

  /** End of `runMutation`: a result is stored at once, and any end bumps the counter. */
  function Ended(c: Client, result: Option<nat>): Client {
    c.(cart := if result.Some? then result else c.cart, reqSeq := c.reqSeq + 1, mutating := false)
  }

  /** End of `hydrate`, which has no token. */
  function Hydrated(c: Client, r: Response): Client {
    match r
    case Loaded(v) => c.(cart := Some(v))
    case Gone => c.(cart := None, guestToken := false)
    case Failed => c
  }

  class StoreCartProvider {
    var cart: Option<nat>
    var reqSeq: nat
    var mutating: bool
    var guestToken: bool
    var customer: bool
    var isOpen: bool
    var error: bool

    function View(): Client reads this { Client(cart, reqSeq, mutating, guestToken, customer) }

    constructor (guestToken: bool, customer: bool)
      ensures View() == Client(None, 0, false, guestToken, customer)
    {
      cart, reqSeq, mutating, isOpen, error := None, 0, false, false, false;
      this.guestToken, this.customer := guestToken, customer;
    }

    /** `refresh` up to its await: the token to fetch under, if there is anything to fetch. */
    method StartRefresh() returns (token: Option<nat>)
      modifies this`cart, this`reqSeq
      ensures View() == Claimed(old(View()))
      ensures token == if guestToken || customer then Some(reqSeq) else None
    {
      reqSeq := reqSeq + 1;
      if !guestToken && !customer {
        cart := None;
        return None;
      }
      return Some(reqSeq);
    }

    /** `refresh` after its await. */
    method FinishRefresh(token: nat, r: Response)
      modifies this`cart, this`guestToken, this`error
      ensures View() == Refreshed(old(View()), token, r)
      ensures error == if token != reqSeq || r.Gone? then old(error) else r.Failed?
    {
      if token != reqSeq {
        return;
      }
      match r
      case Loaded(v) =>
        cart := Some(v);
        error := false;
      case Gone =>
        guestToken := false;
        cart := None;
      case Failed =>
        error := true;
    }

    /** `runMutation` up to its await. No refresh claimed before can be shown any more. */
    method StartMutation()
      modifies this`mutating, this`reqSeq, this`error
      ensures View() == Begun(old(View())) && !error
      ensures forall token: nat, r | token <= old(reqSeq) :: Refreshed(View(), token, r) == View()
    {
      mutating := true;
      error := false;
      reqSeq := reqSeq + 1;
    }

    /** A first add by a visitor without an identity mints a guest cart on its way. */
    method MintCart()
      modifies this`guestToken
      ensures View() == Minted(old(View()))
    {
      if !guestToken && !customer {
        guestToken := true;
      }
    }

    /** `runMutation` after its await, the `finally` block included. Nor can a refresh
        claimed while it ran. */
    method FinishMutation(result: Option<nat>)
      modifies this`cart, this`mutating, this`reqSeq, this`error
      ensures View() == Ended(old(View()), result) && error == (old(error) || result.None?)
      ensures forall token: nat, r | token <= old(reqSeq) :: Refreshed(View(), token, r) == View()
    {
      if result.Some? {
        cart := result;
      } else {
        error := true;
      }
      reqSeq := reqSeq + 1;
      mutating := false;
    }

    /** Opening the drawer refreshes, unless a mutation is in flight. */
    method OpenCart() returns (token: Option<nat>)
      modifies this`isOpen, this`cart, this`reqSeq
      ensures isOpen
      ensures View() == if old(mutating) then old(View()) else Claimed(old(View()))
      ensures token == if !old(mutating) && (guestToken || customer) then Some(reqSeq) else None
    {
      isOpen := true;
      token := None;
      if !mutating {
        token := StartRefresh();
      }
    }

    method Clear()
      modifies this`cart, this`error, this`isOpen
      ensures View() == old(View()).(cart := None) && !error && !isOpen
    {
      cart, error, isOpen := None, false, false;
    }
  }

  // ----- the client against a versioned server

  datatype Refresh = Refresh(token: nat, answer: Option<nat>)

  /** The initial load: never made, not answered yet, answered, shown, or failed. */
  datatype Load = Skipped | Asking | Answered(version: nat) | Shown(version: nat) | Broken

  /** `log` lists the versions shown, oldest first; nothing reads it. A mutation in
      flight holds the version of the last write it made, if it has made one. */
  datatype State = State(client: Client, server: nat, refreshes: map<int, Refresh>, mutations: map<int, Option<nat>>,
                         load: Load, log: seq<nat>)

  datatype Event =
    | StartRefresh(id: int)
    | OpenCart(id: int)
    | ServeRefresh(id: int)
    | FinishRefresh(id: int)
    | FailRefresh(id: int, gone: bool)
    | StartMutation(id: int)
    | ServeMutation(id: int)
    | MintCart(id: int)
    | FinishMutation(id: int)
    | FailMutation(id: int)
    | Clear
    | ServeHydrate
    | FinishHydrate
    | FailHydrate(gone: bool)
    | ServerWrite

  function BeginRefresh(s: State, id: int): State {
    if id in s.refreshes then s
    else
      var c := Claimed(s.client);
      s.(client := c, refreshes := if c.HasIdentity() then s.refreshes[id := Refresh(c.reqSeq, None)] else s.refreshes)
  }

  function Step(s: State, e: Event): State {
    match e
    case StartRefresh(id) => BeginRefresh(s, id)
    case OpenCart(id) => if s.client.mutating then s else BeginRefresh(s, id)
    case ServeRefresh(id) =>
      if id !in s.refreshes || s.refreshes[id].answer.Some? then s
      else s.(refreshes := s.refreshes[id := s.refreshes[id].(answer := Some(s.server))])
    case FinishRefresh(id) =>
      if id !in s.refreshes || s.refreshes[id].answer.None? then s
      else
        var r := s.refreshes[id];
        s.(client := Refreshed(s.client, r.token, Loaded(r.answer.value)), refreshes := s.refreshes - {id},
           log := if r.token == s.client.reqSeq then s.log + [r.answer.value] else s.log)
    case FailRefresh(id, gone) =>
      if id !in s.refreshes then s
      else s.(client := Refreshed(s.client, s.refreshes[id].token, if gone then Gone else Failed),
              refreshes := s.refreshes - {id})
    case StartMutation(id) =>
      if id in s.mutations then s
      else s.(client := Begun(s.client), mutations := s.mutations[id := None])
    case ServeMutation(id) =>
      if id !in s.mutations then s
      else s.(server := s.server + 1, mutations := s.mutations[id := Some(s.server + 1)])
    case MintCart(id) => if id in s.mutations then s.(client := Minted(s.client)) else s
    case FinishMutation(id) =>
      if id !in s.mutations || s.mutations[id].None? then s
      else s.(client := Ended(s.client, s.mutations[id]), mutations := s.mutations - {id},
              log := s.log + [s.mutations[id].value])
    case FailMutation(id) =>
      if id !in s.mutations then s
      else s.(client := Ended(s.client, None), mutations := s.mutations - {id})
    case Clear => s.(client := s.client.(cart := None))
    case ServeHydrate => if s.load.Asking? then s.(load := Answered(s.server)) else s
    case FinishHydrate =>
      if !s.load.Answered? then s
      else s.(client := Hydrated(s.client, Loaded(s.load.version)), load := Load.Shown(s.load.version),
              log := s.log + [s.load.version])
    case FailHydrate(gone) =>
      if !s.load.Asking? && !s.load.Answered? then s
      else s.(client := Hydrated(s.client, if gone then Gone else Failed), load := Broken)
    case ServerWrite => s.(server := s.server + 1)
  }

  function Run(s: State, es: seq<Event>): State
    decreases |es|
  {
    if es == [] then s else Run(Step(s, es[0]), es[1..])
  }

  // ----- the counter

  /** A refresh starting, or a mutation starting, finishing or failing. */
  predicate Bumps(s: State, e: Event) {
    || (e.StartRefresh? && e.id !in s.refreshes)
    || (e.OpenCart? && !s.client.mutating && e.id !in s.refreshes)
    || (e.StartMutation? && e.id !in s.mutations)
    || (e.FinishMutation? && e.id in s.mutations && s.mutations[e.id].Some?)
    || (e.FailMutation? && e.id in s.mutations)
  }

  predicate Quiet(s: State, es: seq<Event>)
    decreases |es|
  {
    es != [] ==> !Bumps(s, es[0]) && Quiet(Step(s, es[0]), es[1..])
  }

  lemma StepCounts(s: State, e: Event)
    ensures Step(s, e).client.reqSeq == s.client.reqSeq + if Bumps(s, e) then 1 else 0
  {
  }

  lemma {:induction false} CounterTellsQuiet(s: State, es: seq<Event>)
    ensures s.client.reqSeq <= Run(s, es).client.reqSeq
    ensures s.client.reqSeq == Run(s, es).client.reqSeq <==> Quiet(s, es)
    decreases |es|
  {
    if es != [] {
      StepCounts(s, es[0]);
      CounterTellsQuiet(Step(s, es[0]), es[1..]);
    }
  }

  /** A refresh's answer is shown exactly when, since its claim, no refresh or mutation
      has started and no mutation has ended. */
  lemma ShownExactlyWhenQuiet(s: State, id: int, es: seq<Event>)
    requires id !in s.refreshes && s.client.HasIdentity()
    requires var s' := Run(Step(s, StartRefresh(id)), es);
             id in s'.refreshes && s'.refreshes[id].token == s.client.reqSeq + 1 && s'.refreshes[id].answer.Some?
    ensures var s' := Run(Step(s, StartRefresh(id)), es);
            var after := Step(s', FinishRefresh(id));
      && (Quiet(Step(s, StartRefresh(id)), es) ==> after.client.cart == s'.refreshes[id].answer)
      && (!Quiet(Step(s, StartRefresh(id)), es) ==> after.client == s'.client && after.log == s'.log)
  {
    CounterTellsQuiet(Step(s, StartRefresh(id)), es);
  }

  // ----- what is shown never goes back

  ghost predicate Sorted(log: seq<nat>) {
    forall i, j | 0 <= i < j < |log| :: log[i] <= log[j]
  }

  ghost predicate AtLeast(log: seq<nat>, v: nat) {
    forall i | 0 <= i < |log| :: log[i] <= v
  }

  /** The initial load has shown something newer than `v`. */
  predicate Overtaken(load: Load, v: nat) { load.Shown? && load.version > v }

  /** The refresh that holds the latest token, if it has its answer, is no older than
      anything shown, unless the initial load overtook it. */
  ghost predicate RefreshOk(s: State, r: Refresh) {
    && r.token <= s.client.reqSeq
    && (r.answer.Some? ==>
          && r.answer.value <= s.server
          && (r.token == s.client.reqSeq ==> AtLeast(s.log, r.answer.value) || Overtaken(s.load, r.answer.value)))
  }

  /** Nothing is newer than the server. */
  ghost predicate Inv(s: State) {
    && AtLeast(s.log, s.server)
    && (s.load.Answered? ==> s.load.version <= s.server)
    && (s.load.Shown? ==> s.load.version in s.log)
    && (forall id | id in s.mutations && s.mutations[id].Some? :: s.mutations[id].value <= s.server)
    && (forall id | id in s.refreshes :: RefreshOk(s, s.refreshes[id]))
    && (forall i, j | i in s.refreshes && j in s.refreshes && i != j :: s.refreshes[i].token != s.refreshes[j].token)
  }

  lemma StepKeepsRefresh(s: State, e: Event, id: int)
    requires Inv(s) && id in Step(s, e).refreshes
    ensures RefreshOk(Step(s, e), Step(s, e).refreshes[id])
  {
    assert id in s.refreshes ==> RefreshOk(s, s.refreshes[id]);
  }

  lemma StepKeepsInv(s: State, e: Event)
    requires Inv(s)
    ensures Inv(Step(s, e))
  {
    forall id | id in Step(s, e).refreshes {
      StepKeepsRefresh(s, e, id);
    }
    assert e.FinishRefresh? && e.id in s.refreshes ==> RefreshOk(s, s.refreshes[e.id]);
  }

  lemma {:induction false} RunKeepsInv(s: State, es: seq<Event>)
    requires Inv(s)
    ensures Inv(Run(s, es))
    decreases |es|
  {
    if es != [] {
      StepKeepsInv(s, es[0]);
      RunKeepsInv(Step(s, es[0]), es[1..]);
    }
  }

  /** Something newer than `v` was the last to be shown. */
  predicate NewerShown(log: seq<nat>, v: nat) { log != [] && log[|log| - 1] > v }

  /** The steps that show an older version than has been shown before: a mutation's answer
      or the initial load's, when something newer is the last shown, and a refresh's, when
      the initial load overtook it. */
  predicate GoesBack(s: State, e: Event) {
    match e
    case FinishMutation(id) => id in s.mutations && s.mutations[id].Some? && NewerShown(s.log, s.mutations[id].value)
    case FinishHydrate => s.load.Answered? && NewerShown(s.log, s.load.version)
    case FinishRefresh(id) =>
      id in s.refreshes && s.refreshes[id].answer.Some? && s.refreshes[id].token == s.client.reqSeq
      && Overtaken(s.load, s.refreshes[id].answer.value)
    case _ => false
  }

  /** Exactly these, with any number of refreshes and mutations, other writers and the
      initial load in flight. */
  lemma OrderIsKeptExactly(s: State, e: Event)
    requires Inv(s) && Sorted(s.log)
    ensures Sorted(Step(s, e).log) <==> !GoesBack(s, e)
  {
    assert e.FinishRefresh? && e.id in s.refreshes ==> RefreshOk(s, s.refreshes[e.id]);
    var log := Step(s, e).log;
    if GoesBack(s, e) {
      var v := if e.FinishRefresh? then s.load.version else s.log[|s.log| - 1];
      var i :| 0 <= i < |s.log| && s.log[i] == v;
      assert log[i] > log[|s.log|];
    }
  }

  // ----- which answers in flight can still go back

  /** The client goes on, and the server stays as it is. */
  predicate ClientOnly(e: Event) { !e.ServerWrite? && !e.ServeMutation? }

  predicate AllClient(es: seq<Event>) { forall k | 0 <= k < |es| :: ClientOnly(es[k]) }

  /** After some such run the step shows an older version than has been shown before. */
  ghost predicate CanGoBack(s: State, e: Event) {
    exists es :: AllClient(es) && GoesBack(Run(s, es), e)
  }

  /** A mutation's answer stays, or is gone, while the server does. */
  lemma {:induction false} AnswersStay(s: State, es: seq<Event>, id: int)
    requires Inv(s) && AllClient(es) && id in s.mutations && s.mutations[id].Some?
    ensures var s' := Run(s, es);
      && s'.server == s.server
      && (id in s'.mutations && s'.mutations[id].Some? ==> s'.mutations[id] == s.mutations[id])
    decreases |es|
  {
    if es != [] {
      assert ClientOnly(es[0]);
      StepKeepsInv(s, es[0]);
      var s1 := Step(s, es[0]);
      if id in s1.mutations && s1.mutations[id].Some? {
        AnswersStay(s1, es[1..], id);
      } else {
        GoneStaysGone(s1, es[1..], id);
      }
    }
  }

  lemma {:induction false} GoneStaysGone(s: State, es: seq<Event>, id: int)
    requires AllClient(es) && !(id in s.mutations && s.mutations[id].Some?)
    ensures var s' := Run(s, es); s'.server == s.server && !(id in s'.mutations && s'.mutations[id].Some?)
    decreases |es|
  {
    if es != [] {
      assert ClientOnly(es[0]);
      GoneStaysGone(Step(s, es[0]), es[1..], id);
    }
  }

  lemma {:induction false} LoadStays(s: State, es: seq<Event>)
    requires AllClient(es) && s.load.Answered?
    ensures var s' := Run(s, es); s'.server == s.server && (s'.load.Answered? ==> s'.load == s.load)
    decreases |es|
  {
    if es != [] {
      assert ClientOnly(es[0]);
      var s1 := Step(s, es[0]);
      if s1.load.Answered? {
        LoadStays(s1, es[1..]);
      } else {
        OverStaysOver(s1, es[1..]);
      }
    }
  }

  lemma {:induction false} OverStaysOver(s: State, es: seq<Event>)
    requires AllClient(es) && !s.load.Asking? && !s.load.Answered?
    ensures Run(s, es).server == s.server && Run(s, es).load == s.load
    decreases |es|
  {
    if es != [] {
      assert ClientOnly(es[0]);
      OverStaysOver(Step(s, es[0]), es[1..]);
    }
  }

  lemma {:induction false} RunAppend(s: State, es: seq<Event>, e: Event)
    ensures Run(s, es + [e]) == Step(Run(s, es), e)
    decreases |es|
  {
    if es == [] {
      assert [e][1..] == [];
    } else {
      assert (es + [e])[1..] == es[1..] + [e];
      RunAppend(Step(s, es[0]), es[1..], e);
    }
  }

  /** A mutation that mints a cart, and a refresh: the client shows what the server has. */
  function ShowServer(k: int, m: int): seq<Event> {
    [StartMutation(m)] + [MintCart(m)] + [StartRefresh(k)] + [ServeRefresh(k)] + [FinishRefresh(k)]
  }

  lemma ServerIsShown(s: State, k: int, m: int)
    requires k !in s.refreshes && m !in s.mutations
    ensures AllClient(ShowServer(k, m))
    ensures var s' := Run(s, ShowServer(k, m));
      s'.log == s.log + [s.server] && s'.mutations == s.mutations[m := None] && s'.load == s.load
  {
    var s1 := Step(s, StartMutation(m));
    var s2 := Step(s1, MintCart(m));
    assert s2.client.HasIdentity() && s2.refreshes == s.refreshes;
    var s3 := Step(s2, StartRefresh(k));
    assert s3.refreshes[k] == Refresh(s3.client.reqSeq, None) && s3.server == s.server;
    RunAppend(s, [], StartMutation(m));
    RunAppend(s, [StartMutation(m)], MintCart(m));
    RunAppend(s, [StartMutation(m)] + [MintCart(m)], StartRefresh(k));
    RunAppend(s, [StartMutation(m)] + [MintCart(m)] + [StartRefresh(k)], ServeRefresh(k));
    RunAppend(s, [StartMutation(m)] + [MintCart(m)] + [StartRefresh(k)] + [ServeRefresh(k)], FinishRefresh(k));
  }

  lemma {:induction false} FreshId(ids: set<int>) returns (k: int)
    ensures forall id | id in ids :: id < k
    decreases |ids|
  {
    if last :| last in ids {
      var rest := FreshId(ids - {last});
      k := if rest > last then rest else last + 1;
      assert forall id | id in ids :: id == last || id in ids - {last};
    } else {
      k := 0;
    }
  }

  /** A mutation's answer can still go back exactly when the server has moved on since. */
  lemma MutationCanGoBackExactly(s: State, id: int)
    requires Inv(s) && id in s.mutations && s.mutations[id].Some?
    ensures CanGoBack(s, FinishMutation(id)) <==> s.mutations[id].value < s.server
  {
    if s.mutations[id].value < s.server {
      var k := FreshId(s.refreshes.Keys);
      var m := FreshId(s.mutations.Keys);
      ServerIsShown(s, k, m);
      assert GoesBack(Run(s, ShowServer(k, m)), FinishMutation(id));
    }
    forall es | AllClient(es) && GoesBack(Run(s, es), FinishMutation(id)) ensures s.mutations[id].value < s.server {
      AnswersStay(s, es, id);
      RunKeepsInv(s, es);
    }
  }

  /** So can the initial load's. */
  lemma LoadCanGoBackExactly(s: State)
    requires Inv(s) && s.load.Answered?
    ensures CanGoBack(s, FinishHydrate) <==> s.load.version < s.server
  {
    if s.load.version < s.server {
      var k := FreshId(s.refreshes.Keys);
      var m := FreshId(s.mutations.Keys);
      ServerIsShown(s, k, m);
      assert GoesBack(Run(s, ShowServer(k, m)), FinishHydrate);
    }
    forall es | AllClient(es) && GoesBack(Run(s, es), FinishHydrate) ensures s.load.version < s.server {
      LoadStays(s, es);
      RunKeepsInv(s, es);
    }
  }

  /** The initial load has, or may yet get, an answer newer than `v`. */
  predicate LoadAhead(s: State, v: nat) {
    match s.load
    case Asking => s.server > v
    case Answered(h) => h > v
    case Shown(h) => h > v
    case _ => false
  }

  lemma {:induction false} NotAheadStays(s: State, es: seq<Event>, v: nat)
    requires AllClient(es) && !LoadAhead(s, v)
    ensures !LoadAhead(Run(s, es), v)
    decreases |es|
  {
    if es != [] {
      assert ClientOnly(es[0]);
      NotAheadStays(Step(s, es[0]), es[1..], v);
    }
  }

  /** The answer of refresh `id` of `s` can still be shown after something newer. */
  ghost predicate RefreshCanGoBack(s: State, id: int)
    requires id in s.refreshes
  {
    exists es :: AllClient(es) && var s' := Run(s, es);
      id in s'.refreshes && s'.refreshes[id] == s.refreshes[id] && GoesBack(s', FinishRefresh(id))
  }

  lemma LoadSettles(s: State) returns (es: seq<Event>)
    requires s.load.Asking? || s.load.Answered? || s.load.Shown?
    ensures AllClient(es)
    ensures var s' := Run(s, es);
      && s'.refreshes == s.refreshes && s'.client.reqSeq == s.client.reqSeq
      && s'.load == Load.Shown(if s.load.Asking? then s.server else s.load.version)
  {
    RunAppend(s, [], FinishHydrate);
    if s.load.Asking? {
      RunAppend(s, [], ServeHydrate);
      RunAppend(s, [] + [ServeHydrate], FinishHydrate);
      es := [] + [ServeHydrate] + [FinishHydrate];
    } else if s.load.Answered? {
      es := [] + [FinishHydrate];
    } else {
      es := [];
    }
  }

  /** A refresh's answer, under the latest token, can go back exactly when the initial load
      is ahead of it. */
  lemma RefreshCanGoBackExactly(s: State, id: int)
    requires id in s.refreshes && s.refreshes[id].answer.Some? && s.refreshes[id].token == s.client.reqSeq
    ensures RefreshCanGoBack(s, id) <==> LoadAhead(s, s.refreshes[id].answer.value)
  {
    var v := s.refreshes[id].answer.value;
    if LoadAhead(s, v) {
      var es := LoadSettles(s);
      assert Run(s, es).refreshes[id] == s.refreshes[id] && GoesBack(Run(s, es), FinishRefresh(id));
    }
    forall es | AllClient(es) && GoesBack(Run(s, es), FinishRefresh(id)) && Run(s, es).refreshes[id] == s.refreshes[id]
      ensures LoadAhead(s, v)
    {
      if !LoadAhead(s, v) {
        NotAheadStays(s, es, v);
      }
    }
  }

  /** One mutation at a time, and nobody else writing. */
  predicate Alone(s: State, e: Event) {
    !e.ServerWrite? && (e.StartMutation? ==> |s.mutations| == 0)
  }

  predicate AllAlone(s: State, es: seq<Event>)
    decreases |es|
  {
    es != [] ==> Alone(s, es[0]) && AllAlone(Step(s, es[0]), es[1..])
  }

  ghost predicate AloneInv(s: State) {
    && (forall i, j | i in s.mutations && j in s.mutations :: i == j)
    && (forall id | id in s.mutations && s.mutations[id].Some? :: s.mutations[id].value == s.server)
  }

  lemma StepKeepsAlone(s: State, e: Event)
    requires Inv(s) && AloneInv(s) && Alone(s, e)
    ensures AloneInv(Step(s, e)) && !(e.FinishMutation? && GoesBack(s, e))
  {
  }

  /** The version that the step puts on screen, if it shows one: a mutation's answer, a
      refresh's under the latest token, or the initial load's. */
  function Shows(s: State, e: Event): Option<nat> {
    match e
    case FinishMutation(id) => if id in s.mutations then s.mutations[id] else None
    case FinishRefresh(id) => if id in s.refreshes && s.refreshes[id].token == s.client.reqSeq then s.refreshes[id].answer else None
    case FinishHydrate => if s.load.Answered? then Some(s.load.version) else None
    case _ => None
  }

  /** An answer that the cart is gone, under the latest token or to the initial load. */
  predicate LosesCart(s: State, e: Event) {
    match e
    case FailRefresh(id, gone) => gone && id in s.refreshes && s.refreshes[id].token == s.client.reqSeq
    case FailHydrate(gone) => gone && (s.load.Asking? || s.load.Answered?)
    case _ => false
  }

  /** The cart leaves the screen: cleared, gone, or claimed for a visitor without identity. */
  predicate Blanks(s: State, e: Event) {
    || e.Clear? || LosesCart(s, e)
    || (Bumps(s, e) && (e.StartRefresh? || e.OpenCart?) && !s.client.guestToken && !s.client.customer)
  }

  /** What a step leaves on screen. */
  lemma CartChangesExactly(s: State, e: Event)
    ensures Step(s, e).client.cart
         == if Shows(s, e).Some? then Shows(s, e) else if Blanks(s, e) then None else s.client.cart
    ensures Step(s, e).log == if Shows(s, e).Some? then s.log + [Shows(s, e).value] else s.log
  {
  }

  /** A mutation's answer is what the client then shows, and a failed one leaves the cart
      as it was; either ends the mutation. */
  lemma MutationsAreShown(s: State, id: int)
    requires id in s.mutations
    ensures s.mutations[id].Some? ==> Step(s, FinishMutation(id)).client.cart == s.mutations[id]
    ensures s.mutations[id].Some? ==> id !in Step(s, FinishMutation(id)).mutations && !Step(s, FinishMutation(id)).client.mutating
    ensures Step(s, FailMutation(id)).client.cart == s.client.cart
    ensures id !in Step(s, FailMutation(id)).mutations && !Step(s, FailMutation(id)).client.mutating
  {
  }

  /** A refresh claims the next token, if there is somebody to fetch a cart for; an answer
      of whatever kind ends it, and the initial load is over once it is shown or has failed. */
  lemma RequestsEnd(s: State, id: int)
    ensures id !in s.refreshes ==>
      (id in Step(s, StartRefresh(id)).refreshes <==> s.client.guestToken || s.client.customer)
    ensures id in Step(s, StartRefresh(id)).refreshes && id !in s.refreshes ==>
      Step(s, StartRefresh(id)).refreshes[id] == Refresh(s.client.reqSeq + 1, None)
    ensures forall gone :: id !in Step(s, FailRefresh(id, gone)).refreshes
    ensures id in s.refreshes && s.refreshes[id].answer.Some? ==> id !in Step(s, FinishRefresh(id)).refreshes
    ensures s.load.Answered? ==> Step(s, FinishHydrate).load == Load.Shown(s.load.version)
    ensures forall gone :: s.load.Asking? || s.load.Answered? ==> Step(s, FailHydrate(gone)).load == Broken
  {
  }

  /** The guest token is minted only on the way of a mutation, for a visitor who is nobody
      yet, and lost only with the cart; the customer's session is not touched. */
  lemma IdentityChangesExactly(s: State, e: Event)
    ensures Step(s, e).client.customer == s.client.customer
    ensures Step(s, e).client.guestToken
         == if e.MintCart? && e.id in s.mutations && !s.client.customer then true
            else if LosesCart(s, e) then false
            else s.client.guestToken
    ensures Step(s, e).client.mutating
         == if e.StartMutation? && Bumps(s, e) then true
            else if (e.FinishMutation? || e.FailMutation?) && Bumps(s, e) then false
            else s.client.mutating
  {
  }

  /** Once something has been shown, it is on screen. */
  ghost predicate LastOnScreen(s: State) {
    s.log != [] ==> s.client.cart == Some(s.log[|s.log| - 1])
  }

  predicate NeverBlanks(s: State, es: seq<Event>)
    decreases |es|
  {
    es != [] ==> !Blanks(s, es[0]) && NeverBlanks(Step(s, es[0]), es[1..])
  }

  /** And the last version shown stays there as long as nothing takes the cart away. */
  lemma {:induction false} LastShownStays(s: State, es: seq<Event>)
    requires LastOnScreen(s) && NeverBlanks(s, es)
    ensures LastOnScreen(Run(s, es))
    decreases |es|
  {
    if es != [] {
      CartChangesExactly(s, es[0]);
      LastShownStays(Step(s, es[0]), es[1..]);
    }
  }

  /** What is on screen is the last version shown, or nothing. */
  ghost predicate OnScreen(s: State) {
    s.client.cart.Some? ==> s.log != [] && s.client.cart.value == s.log[|s.log| - 1]
  }

  lemma CartIsLastShown(s: State, e: Event)
    requires OnScreen(s)
    ensures OnScreen(Step(s, e))
  {
  }

  /** The initial load is over, and has overtaken no refresh. */
  ghost predicate LoadOver(s: State) {
    && !s.load.Asking? && !s.load.Answered?
    && forall id | id in s.refreshes && s.refreshes[id].answer.Some? :: !Overtaken(s.load, s.refreshes[id].answer.value)
  }

  ghost predicate SessionOk(s: State) {
    Inv(s) && Sorted(s.log) && AloneInv(s) && OnScreen(s) && LoadOver(s)
  }

  lemma StepKeepsLoadOver(s: State, e: Event)
    requires Inv(s) && LoadOver(s)
    ensures LoadOver(Step(s, e)) && (GoesBack(s, e) ==> e.FinishMutation?)
  {
  }

  lemma StepKeepsSession(s: State, e: Event)
    requires SessionOk(s) && Alone(s, e)
    ensures SessionOk(Step(s, e))
  {
    StepKeepsInv(s, e);
    StepKeepsLoadOver(s, e);
    StepKeepsAlone(s, e);
    OrderIsKeptExactly(s, e);
    CartIsLastShown(s, e);
  }

  lemma {:induction false} RunKeepsSession(s: State, es: seq<Event>)
    requires SessionOk(s) && AllAlone(s, es)
    ensures SessionOk(Run(s, es))
    decreases |es|
  {
    if es != [] {
      StepKeepsSession(s, es[0]);
      RunKeepsSession(Step(s, es[0]), es[1..]);
    }
  }

  /** The initial load has settled and nothing is in flight. */
  predicate Settled(s: State) {
    && !s.load.Asking? && !s.load.Answered? && s.refreshes == map[] && s.mutations == map[]
    && (s.client.cart.Some? ==> s.client.cart.value <= s.server)
    && (s.load.Shown? ==> s.client.cart == Some(s.load.version))
    && s.log == if s.client.cart.Some? then [s.client.cart.value] else []
  }

  /** Then, in any run from a settled initial load on, the versions shown never go back,
      none is newer than the server, and the cart on screen is the last one shown, or nothing. */
  lemma ShownVersionsNeverGoBack(s: State, es: seq<Event>)
    requires Settled(s) && AllAlone(s, es)
    ensures var s' := Run(s, es); Sorted(s'.log) && AtLeast(s'.log, s'.server) && OnScreen(s')
    ensures NeverBlanks(s, es) ==> LastOnScreen(Run(s, es))
  {
    RunKeepsSession(s, es);
    if NeverBlanks(s, es) {
      LastShownStays(s, es);
    }
  }

  function Fresh(server: nat, load: Load): State {
    State(Client(None, 0, false, true, false), server, map[], map[], load, [])
  }

  /** Two mutations at once can go back: the first one's answer arrives last. */
  lemma TwoMutationsCanGoBack(server: nat)
    ensures var s := Fresh(server, Skipped);
            var served := Step(Step(Step(Step(s, StartMutation(1)), StartMutation(2)), ServeMutation(1)), ServeMutation(2));
            Step(Step(served, FinishMutation(2)), FinishMutation(1)).log == [server + 2, server + 1]
  {
  }

  /** So can one mutation when someone else writes: a refresh shows the newer version first. */
  lemma OtherWriterCanGoBack(server: nat)
    ensures var s := Step(Step(Step(Fresh(server, Skipped), StartMutation(1)), ServeMutation(1)), ServerWrite);
            var shown := Step(Step(Step(s, StartRefresh(7)), ServeRefresh(7)), FinishRefresh(7));
            Step(shown, FinishMutation(1)).log == [server + 2, server + 1]
  {
  }

  /** And the initial load, which claims no token, when it settles late; ... */
  lemma HydrateCanGoBack(server: nat)
    ensures var s := Step(Fresh(server, Asking), ServeHydrate);
            var mutated := Step(Step(Step(s, StartMutation(1)), ServeMutation(1)), FinishMutation(1));
            Step(mutated, FinishHydrate).log == [server + 1, server]
  {
  }

  /** ... and a refresh that it overtakes, with one mutation and no other writer. */
  lemma OvertakenRefreshCanGoBack(server: nat)
    ensures var s := Step(Step(Step(Fresh(server, Asking), StartMutation(1)), StartRefresh(7)), ServeRefresh(7));
            var loaded := Step(Step(Step(s, ServeMutation(1)), ServeHydrate), FinishHydrate);
            Step(loaded, FinishRefresh(7)).log == [server + 1, server]
  {
    var s := Step(Step(Step(Fresh(server, Asking), StartMutation(1)), StartRefresh(7)), ServeRefresh(7));
    assert s.refreshes[7] == Refresh(2, Some(server)) && s.client.reqSeq == 2;
  }
}
