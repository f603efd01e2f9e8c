/** Requests on one cart with their reads and writes interleaved. */
module CartRuns {
  import opened Wrappers
  import opened Pricing
  import opened CartItems
  import opened Collections

  /** What a request has read and decided, and has still to write. */
  datatype Pending =
    | Overwriting(id: nat, skuId: int, quantity: int, sku: Sku, at: int)
    | Counting(skuId: int, quantity: int, sku: Sku, at: int)
    | Inserting(skuId: int, quantity: int, sku: Sku, at: int)

  datatype State = State(cart: Cart, shop: Shop, inflight: map<int, Pending>)

  datatype Event =
    | StartAdd(client: int, skuId: int, qty: int)
    | StartUpdate(client: int, id: nat, qty: int)
    | Advance(client: int)
    | Remove(id: nat)
    | ChangeShop(shop: Shop)
    | Abort(client: int)

  /** The read half of `addSkuToCart`. */
  function ReadForAdd(s: State, skuId: int, qty: int): Option<Pending> {
    match LoadPricingSku(s.shop, skuId)
    case Err(_) => None
    case Ok(sku) =>
      var i := IndexOf(s.cart.lines, skuId);
      var newQty := (if i < |s.cart.lines| then s.cart.lines[i].quantity else 0) + qty;
      if qty <= 0 || newQty > MAX_CART_ITEM_QTY then None
      else if i < |s.cart.lines| then Some(Overwriting(s.cart.lines[i].id, skuId, newQty, sku, s.shop.now))
      else Some(Counting(skuId, newQty, sku, s.shop.now))
  }

  /** The read half of `updateItem`. */
  function ReadForUpdate(s: State, id: nat, qty: int): Option<Pending> {
    var i := IndexOfId(s.cart.lines, id);
    if qty <= 0 || qty > MAX_CART_ITEM_QTY || i == |s.cart.lines| then None
    else
      match LoadPricingSku(s.shop, s.cart.lines[i].skuId)
      case Err(_) => None
      case Ok(sku) => Some(Overwriting(id, s.cart.lines[i].skuId, qty, sku, s.shop.now))
  }

  /** The write halves: an update by id, which fails if the row is gone, and an insert,
      which the unique key on (cart, SKU) refuses if the SKU has a line by now. */
  function Write(c: Cart, p: Pending): Cart {
    match p
    case Overwriting(id, _, quantity, sku, at) =>
      var i := IndexOfId(c.lines, id);
      if i == |c.lines| then c else c.(lines := c.lines[i := Reprice(c.lines[i], quantity, sku, at)])
    case Counting(_, _, _, _) => c
    case Inserting(skuId, quantity, sku, at) =>
      if IndexOf(c.lines, skuId) < |c.lines| then c
      else Cart(c.lines + [NewLine(c.nextId, skuId, quantity, sku, at)], c.nextId + 1)
  }

  function Begin(s: State, client: int, p: Option<Pending>): State {
    if client in s.inflight || p.None? then s else s.(inflight := s.inflight[client := p.value])
  }

  function Step(s: State, e: Event): State {
    match e
    case StartAdd(c, skuId, qty) => Begin(s, c, ReadForAdd(s, skuId, qty))
    case StartUpdate(c, id, qty) => Begin(s, c, ReadForUpdate(s, id, qty))
    case Advance(c) =>
      if c !in s.inflight then s
      else if s.inflight[c].Counting? && |s.cart.lines| < MAX_CART_LINES then
        var p := s.inflight[c];
        s.(inflight := s.inflight[c := Inserting(p.skuId, p.quantity, p.sku, p.at)])
      else s.(cart := Write(s.cart, s.inflight[c]), inflight := s.inflight - {c})
    case Remove(id) => s.(cart := s.cart.(lines := Without(s.cart.lines, id)))
    case ChangeShop(shop) => s.(shop := shop)
    case Abort(c) => s.(inflight := s.inflight - {c})
  }

  function Run(s: State, es: seq<Event>): State
    decreases |es|
  {
    if es == [] then s else Run(Step(s, es[0]), es[1..])
  }

  function Init(shop: Shop): State { State(Cart([], 0), shop, map[]) }

  ghost predicate PendingOk(c: Cart, p: Pending) {
    && 1 <= p.quantity <= MAX_CART_ITEM_QTY && p.sku.id == p.skuId && p.sku.Purchasable()
    && (p.Overwriting? ==> p.id < c.nextId)
    && (p.Overwriting? ==>
          forall i | 0 <= i < |c.lines| && c.lines[i].id == p.id :: c.lines[i].skuId == p.skuId)
  }

  ghost predicate Inv(s: State) {
    && CartOk(s.cart) && ShopOk(s.shop)
    && forall c | c in s.inflight :: PendingOk(s.cart, s.inflight[c])
  }

  lemma WriteKeepsCart(c: Cart, p: Pending)
    requires CartOk(c) && PendingOk(c, p)
    ensures CartOk(Write(c, p)) && c.nextId <= Write(c, p).nextId
    ensures forall q | PendingOk(c, q) :: PendingOk(Write(c, p), q)
  {
  }

  lemma RemoveKeepsCart(c: Cart, id: nat)
    requires CartOk(c)
    ensures CartOk(c.(lines := Without(c.lines, id)))
    ensures forall q | PendingOk(c, q) :: PendingOk(c.(lines := Without(c.lines, id)), q)
    ensures |Without(c.lines, id)| <= |c.lines|
  {
  }

  ghost predicate EventOk(e: Event) {
    e.ChangeShop? ==> ShopOk(e.shop)
  }

  lemma StepKeepsInv(s: State, e: Event)
    requires Inv(s) && EventOk(e)
    ensures Inv(Step(s, e))
  {
    match e
    case Advance(c) =>
      if c in s.inflight {
        WriteKeepsCart(s.cart, s.inflight[c]);
      }
    case Remove(id) => RemoveKeepsCart(s.cart, id);
    case _ =>
  }

  lemma InitHasInv(shop: Shop)
    requires ShopOk(shop)
    ensures Inv(Init(shop)) && Room(Init(shop))
  {
  }

  /** In every interleaving, with prices and catalogue changing at will: quantities stay
      within 1 and the cap, a SKU has at most one line, and every stored price is the
      price of the stored quantity for the SKU and time its request read. */
  lemma {:induction false} RunKeepsInv(s: State, es: seq<Event>)
    requires Inv(s) && forall k | 0 <= k < |es| :: EventOk(es[k])
    ensures Inv(Run(s, es))
    decreases |es|
  {
    if es != [] {
      StepKeepsInv(s, es[0]);
      RunKeepsInv(Step(s, es[0]), es[1..]);
    }
  }

  /** A request that nothing disturbs does what the service method does: its read, and
      as many of its later steps as it takes. */
  lemma AddAlone(s: State, c: int, skuId: int, qty: int)
    requires Inv(s) && c !in s.inflight && qty >= 1
    ensures var s' := Step(Step(Step(s, StartAdd(c, skuId, qty)), Advance(c)), Advance(c));
      && s'.cart == (match AddSku(s.cart, s.shop, Addition(skuId, qty))
                     case Ok(next) => next
                     case Err(_) => s.cart)
      && s'.inflight == s.inflight
  {
  }

  lemma UpdateAlone(s: State, c: int, id: nat, qty: int)
    requires Inv(s) && c !in s.inflight
    ensures var s' := Step(Step(s, StartUpdate(c, id, qty)), Advance(c));
      && s'.cart == (match UpdateLine(s.cart, s.shop, id, qty)
                     case Ok(next) => next
                     case Err(_) => s.cart)
      && s'.inflight == s.inflight
  {
  }

  // ----- when an overlapping add counts

  datatype Seen = Seen(id: nat, quantity: int)

  /** What an add reads of the cart. */
  function LineOf(lines: seq<Line>, skuId: int): Option<Seen> {
    var i := IndexOf(lines, skuId);
    if i < |lines| then Some(Seen(lines[i].id, lines[i].quantity)) else None
  }

  /** The write that follows a read of `addSkuToCart`, once the lines have been counted. */
  function ToWrite(p: Pending): Pending {
    if p.Counting? then Inserting(p.skuId, p.quantity, p.sku, p.at) else p
  }

  lemma IndexOfIdIs(lines: seq<Line>, i: nat)
    requires i < |lines| && forall j | 0 <= j < i :: lines[j].id != lines[i].id
    ensures IndexOfId(lines, lines[i].id) == i
  {
  }

  /** The commit of an add, whatever has happened since its read: it raises the SKU by the
      quantity asked for exactly when the SKU's line is the one read, at the quantity read,
      or, if none was read, there still is none. */
  lemma CommitCountsExactly(c: Cart, p: Pending, seen: Option<Seen>, qty: int)
    requires CartOk(c) && PendingOk(c, p) && qty >= 1
    requires match seen
             case Some(l) => p.Overwriting? && p.id == l.id && p.quantity == l.quantity + qty
             case None => p.Inserting? && p.quantity == qty
    ensures Quantity(Write(c, p).lines, p.skuId) == Quantity(c.lines, p.skuId) + qty <==> LineOf(c.lines, p.skuId) == seen
  {
    var i := IndexOf(c.lines, p.skuId);
    var lines := Write(c, p).lines;
    if i < |c.lines| {
      IndexOfIdIs(c.lines, i);
      IndexOfIs(lines, p.skuId, i);
    } else if p.Inserting? {
      IndexOfIs(lines, p.skuId, i);
    } else {
      assert IndexOfId(c.lines, p.id) == |c.lines|;
    }
  }

  lemma ReadSays(s: State, skuId: int, qty: int)
    requires ReadForAdd(s, skuId, qty).Some?
    ensures var p, seen := ToWrite(ReadForAdd(s, skuId, qty).value), LineOf(s.cart.lines, skuId);
      && p.skuId == skuId && qty >= 1
      && match seen
         case Some(l) => p.Overwriting? && p.id == l.id && p.quantity == l.quantity + qty
         case None => p.Inserting? && p.quantity == qty
  {
  }

  /** In any run between the read of an add and its write. */
  lemma {:induction false} AddCountsExactly(s: State, c: int, skuId: int, qty: int, between: seq<Event>)
    requires Inv(s) && c !in s.inflight && ReadForAdd(s, skuId, qty).Some?
    requires forall k | 0 <= k < |between| :: EventOk(between[k])
    requires var s' := Run(Step(s, StartAdd(c, skuId, qty)), between);
             c in s'.inflight && s'.inflight[c] == ToWrite(ReadForAdd(s, skuId, qty).value)
    ensures var s' := Run(Step(s, StartAdd(c, skuId, qty)), between);
            Quantity(Write(s'.cart, s'.inflight[c]).lines, skuId) == Quantity(s'.cart.lines, skuId) + qty
            <==> LineOf(s'.cart.lines, skuId) == LineOf(s.cart.lines, skuId)
  {
    var s0 := Step(s, StartAdd(c, skuId, qty));
    StepKeepsInv(s, StartAdd(c, skuId, qty));
    RunKeepsInv(s0, between);
    ReadSays(s, skuId, qty);
    CommitCountsExactly(Run(s0, between).cart, Run(s0, between).inflight[c], LineOf(s.cart.lines, skuId), qty);
  }

  /** Does the step write the line of this SKU? */
  predicate WritesTo(s: State, e: Event, skuId: int) {
    match e
    case Advance(c) => c in s.inflight && !s.inflight[c].Counting? && s.inflight[c].skuId == skuId
    case Remove(id) => LineOf(s.cart.lines, skuId).Some? && LineOf(s.cart.lines, skuId).value.id == id
    case _ => false
  }

  predicate LeavesAlone(s: State, es: seq<Event>, skuId: int)
    decreases |es|
  {
    es != [] ==> !WritesTo(s, es[0], skuId) && LeavesAlone(Step(s, es[0]), es[1..], skuId)
  }

  lemma WriteKeepsLineOf(c: Cart, p: Pending, skuId: int)
    requires CartOk(c) && PendingOk(c, p) && p.skuId != skuId
    ensures RowOf(Write(c, p).lines, skuId) == RowOf(c.lines, skuId)
    ensures LineOf(Write(c, p).lines, skuId) == LineOf(c.lines, skuId)
  {
    var lines, at := Write(c, p).lines, IndexOf(c.lines, skuId);
    IndexOfIs(lines, skuId, if at == |c.lines| then |lines| else at);
  }

  lemma RemoveKeepsLineOf(c: Cart, id: nat, skuId: int)
    requires CartOk(c)
    requires LineOf(c.lines, skuId).Some? ==> LineOf(c.lines, skuId).value.id != id
    ensures RowOf(Without(c.lines, id), skuId) == RowOf(c.lines, skuId)
    ensures LineOf(Without(c.lines, id), skuId) == LineOf(c.lines, skuId)
  {
    var i, at := IndexOfId(c.lines, id), IndexOf(c.lines, skuId);
    var lines := Without(c.lines, id);
    if i < |c.lines| {
      IndexOfIs(lines, skuId, if at == |c.lines| || i < at then at - 1 else at);
    }
  }

  /** The whole line of a SKU, stored price included. */
  function RowOf(lines: seq<Line>, skuId: int): Option<Line> {
    var i := IndexOf(lines, skuId);
    if i < |lines| then Some(lines[i]) else None
  }

  /** A line, and so its stored price, changes only by a step that writes it. */
  lemma {:induction false} LineOfStays(s: State, es: seq<Event>, skuId: int)
    requires Inv(s) && LeavesAlone(s, es, skuId) && forall k | 0 <= k < |es| :: EventOk(es[k])
    ensures RowOf(Run(s, es).cart.lines, skuId) == RowOf(s.cart.lines, skuId)
    ensures LineOf(Run(s, es).cart.lines, skuId) == LineOf(s.cart.lines, skuId)
    decreases |es|
  {
    if es != [] {
      StepKeepsInv(s, es[0]);
      match es[0] {
        case Advance(c) =>
          if c in s.inflight && !s.inflight[c].Counting? {
            WriteKeepsLineOf(s.cart, s.inflight[c], skuId);
          }
        case Remove(id) => RemoveKeepsLineOf(s.cart, id, skuId);
        case _ =>
      }
      LineOfStays(Step(s, es[0]), es[1..], skuId);
    }
  }

  /** So an add counts in every run in which nothing else writes to its SKU meanwhile,
      however many requests on other SKUs overlap with it. */
  lemma {:induction false} AddCountsUndisturbed(s: State, c: int, skuId: int, qty: int, between: seq<Event>)
    requires Inv(s) && c !in s.inflight && ReadForAdd(s, skuId, qty).Some?
    requires forall k | 0 <= k < |between| :: EventOk(between[k])
    requires LeavesAlone(Step(s, StartAdd(c, skuId, qty)), between, skuId)
    requires var s' := Run(Step(s, StartAdd(c, skuId, qty)), between);
             c in s'.inflight && s'.inflight[c] == ToWrite(ReadForAdd(s, skuId, qty).value)
    ensures var s' := Run(Step(s, StartAdd(c, skuId, qty)), between);
            Quantity(Step(s', Advance(c)).cart.lines, skuId) == Quantity(s.cart.lines, skuId) + qty
  {
    StepKeepsInv(s, StartAdd(c, skuId, qty));
    LineOfStays(Step(s, StartAdd(c, skuId, qty)), between, skuId);
    AddCountsExactly(s, c, skuId, qty, between);
  }

  // ----- the price a write stores

  /** A write changes at most the line of its SKU. That line then has the quantity decided
      on, at the price of that quantity for the SKU and time the request read. */
  lemma WriteIsPriced(c: Cart, p: Pending)
    requires CartOk(c) && PendingOk(c, p) && Write(c, p) != c
    ensures var lines := Write(c, p).lines;
      exists i :: 0 <= i < |lines| && lines[i].skuId == p.skuId && lines[i].quantity == p.quantity
        && lines[i].unitPriceSnapshot == UnitPrice(p.sku, p.quantity, p.at)
        && forall j | 0 <= j < |lines| && j != i :: j < |c.lines| && lines[j] == c.lines[j]
  {
    var lines := Write(c, p).lines;
    var i := if p.Overwriting? then IndexOfId(c.lines, p.id) else |c.lines|;
    assert i < |c.lines| ==> c.lines[i].skuId == p.skuId;
    assert lines[i].unitPriceSnapshot == UnitPrice(p.sku, p.quantity, p.at);
  }

  /** What an add has read is the catalogue, the clock and the quantity of that moment. */
  lemma AddReadsLive(s: State, skuId: int, qty: int)
    requires ReadForAdd(s, skuId, qty).Some?
    ensures var p := ReadForAdd(s, skuId, qty).value;
      && skuId in s.shop.catalog && p.sku == s.shop.catalog[skuId] && p.at == s.shop.now
      && p.skuId == skuId && p.quantity == Quantity(s.cart.lines, skuId) + qty
  {
  }

  lemma UpdateReadsLive(s: State, id: nat, qty: int)
    requires ReadForUpdate(s, id, qty).Some?
    ensures var p := ReadForUpdate(s, id, qty).value;
      && p.skuId in s.shop.catalog && p.sku == s.shop.catalog[p.skuId] && p.at == s.shop.now
      && p.Overwriting? && p.id == id && p.quantity == qty
      && exists l :: l in s.cart.lines && l.id == id && l.skuId == p.skuId
  {
    assert s.cart.lines[IndexOfId(s.cart.lines, id)] in s.cart.lines;
  }

  /** In any run between the read of an add and its write: if the write goes through, the
      SKU's line is left at the price that the catalogue and the clock had at the read. */
  lemma {:induction false} AddStoresReadPrice(s: State, c: int, skuId: int, qty: int, between: seq<Event>)
    requires Inv(s) && c !in s.inflight && ReadForAdd(s, skuId, qty).Some?
    requires forall k | 0 <= k < |between| :: EventOk(between[k])
    requires var s' := Run(Step(s, StartAdd(c, skuId, qty)), between);
             c in s'.inflight && s'.inflight[c] == ToWrite(ReadForAdd(s, skuId, qty).value)
             && Step(s', Advance(c)).cart != s'.cart
    ensures skuId in s.shop.catalog
    ensures var s' := Run(Step(s, StartAdd(c, skuId, qty)), between);
            var row, quantity := RowOf(Step(s', Advance(c)).cart.lines, skuId), Quantity(s.cart.lines, skuId) + qty;
            row.Some? && row.value.quantity == quantity
            && row.value.unitPriceSnapshot == UnitPrice(s.shop.catalog[skuId], quantity, s.shop.now)
  {
    var s0 := Step(s, StartAdd(c, skuId, qty));
    StepKeepsInv(s, StartAdd(c, skuId, qty));
    RunKeepsInv(s0, between);
    AddReadsLive(s, skuId, qty);
    WrittenRow(Run(s0, between).cart, Run(s0, between).inflight[c]);
  }

  /** And so for an update. */
  lemma {:induction false} UpdateStoresReadPrice(s: State, c: int, id: nat, qty: int, between: seq<Event>)
    requires Inv(s) && c !in s.inflight && ReadForUpdate(s, id, qty).Some?
    requires forall k | 0 <= k < |between| :: EventOk(between[k])
    requires var s' := Run(Step(s, StartUpdate(c, id, qty)), between);
             c in s'.inflight && s'.inflight[c] == ReadForUpdate(s, id, qty).value
             && Step(s', Advance(c)).cart != s'.cart
    ensures var skuId := ReadForUpdate(s, id, qty).value.skuId;
            var s' := Run(Step(s, StartUpdate(c, id, qty)), between);
            var row := RowOf(Step(s', Advance(c)).cart.lines, skuId);
            skuId in s.shop.catalog && row.Some? && row.value.id == id && row.value.quantity == qty
            && row.value.unitPriceSnapshot == UnitPrice(s.shop.catalog[skuId], qty, s.shop.now)
  {
    var s0 := Step(s, StartUpdate(c, id, qty));
    StepKeepsInv(s, StartUpdate(c, id, qty));
    RunKeepsInv(s0, between);
    UpdateReadsLive(s, id, qty);
    WrittenRow(Run(s0, between).cart, Run(s0, between).inflight[c]);
  }

  lemma WrittenRow(c: Cart, p: Pending)
    requires CartOk(c) && PendingOk(c, p) && Write(c, p) != c
    ensures var row := RowOf(Write(c, p).lines, p.skuId);
            row.Some? && row.value.quantity == p.quantity
            && row.value.unitPriceSnapshot == UnitPrice(p.sku, p.quantity, p.at)
            && (p.Overwriting? ==> row.value.id == p.id)
  {
    WriteIsPriced(c, p);
    WriteKeepsCart(c, p);
    var lines := Write(c, p).lines;
    var i :| 0 <= i < |lines| && lines[i].skuId == p.skuId && lines[i].quantity == p.quantity
             && lines[i].unitPriceSnapshot == UnitPrice(p.sku, p.quantity, p.at);
    IndexOfIs(lines, p.skuId, i);
    if p.Overwriting? {
      assert lines[IndexOfId(c.lines, p.id)].skuId == p.skuId;
    }
  }

  // ----- the cap on lines

  predicate HasLine(lines: seq<Line>, skuId: int) { IndexOf(lines, skuId) < |lines| }

  /** The SKUs without a line that some request is about to insert. */
  function NewSkus(s: State): set<int> {
    set c | c in s.inflight && s.inflight[c].Inserting? && !HasLine(s.cart.lines, s.inflight[c].skuId)
      :: s.inflight[c].skuId
  }

  /** There is room for every insert that is under way. */
  predicate Room(s: State) { |s.cart.lines| + |NewSkus(s)| <= MAX_CART_LINES }

  /** A count that passes although the inserts under way will fill the cart, for a SKU that
      is neither in the cart nor among them. */
  predicate Overfills(s: State, e: Event) {
    && e.Advance? && e.client in s.inflight && s.inflight[e.client].Counting?
    && |s.cart.lines| < MAX_CART_LINES == |s.cart.lines| + |NewSkus(s)|
    && !HasLine(s.cart.lines, s.inflight[e.client].skuId) && s.inflight[e.client].skuId !in NewSkus(s)
  }

  lemma CountKeepsRoom(s: State, c: int)
    requires c in s.inflight && s.inflight[c].Counting? && Room(s)
    ensures Room(Step(s, Advance(c))) <==> !Overfills(s, Advance(c))
  {
    var s', p := Step(s, Advance(c)), s.inflight[c];
    var added := if |s.cart.lines| < MAX_CART_LINES && !HasLine(s.cart.lines, p.skuId) then {p.skuId} else {};
    forall k | k in NewSkus(s) ensures k in NewSkus(s') {
      var d :| d in s.inflight && s.inflight[d].Inserting? && s.inflight[d].skuId == k;
      assert d in s'.inflight && s'.inflight[d] == s.inflight[d];
    }
    if added != {} {
      assert s'.inflight[c].skuId == p.skuId;
    }
    assert NewSkus(s') == NewSkus(s) + added;
  }

  lemma InsertMovesIn(s: State, c: int)
    requires c in s.inflight && s.inflight[c].Inserting? && s.inflight[c].skuId in NewSkus(s)
    ensures var s' := Step(s, Advance(c));
            |s'.cart.lines| == |s.cart.lines| + 1 && NewSkus(s') == NewSkus(s) - {s.inflight[c].skuId}
  {
    var s', p := Step(s, Advance(c)), s.inflight[c];
    assert s'.cart.lines[..|s.cart.lines|] == s.cart.lines && s'.cart.lines[|s.cart.lines|].skuId == p.skuId;
    forall k ensures HasLine(s'.cart.lines, k) <==> HasLine(s.cart.lines, k) || k == p.skuId {
      assert HasLine(s.cart.lines, k) ==> s'.cart.lines[IndexOf(s.cart.lines, k)].skuId == k;
    }
    forall k | k in NewSkus(s) && k != p.skuId ensures k in NewSkus(s') {
      var d :| d in s.inflight && s.inflight[d].Inserting? && s.inflight[d].skuId == k;
      assert d in s'.inflight && s'.inflight[d] == s.inflight[d];
    }
  }

  lemma OverwriteKeepsLines(c: Cart, p: Pending, skuId: int)
    requires p.Overwriting?
    ensures |Write(c, p).lines| == |c.lines| && (HasLine(Write(c, p).lines, skuId) <==> HasLine(c.lines, skuId))
  {
    var lines := Write(c, p).lines;
    assert forall i | 0 <= i < |lines| :: lines[i].skuId == c.lines[i].skuId;
  }

  lemma RemoveFreesRoom(s: State, id: nat)
    requires Room(s)
    ensures Room(Step(s, Remove(id)))
  {
    var s', i := Step(s, Remove(id)), IndexOfId(s.cart.lines, id);
    if i < |s.cart.lines| {
      var gone := s.cart.lines[i].skuId;
      forall k | HasLine(s.cart.lines, k) && k != gone ensures HasLine(s'.cart.lines, k) {
        var at := IndexOf(s.cart.lines, k);
        assert s'.cart.lines[if at < i then at else at - 1].skuId == k;
      }
      assert NewSkus(s') <= NewSkus(s) + {gone};
      SubsetSize(NewSkus(s'), NewSkus(s) + {gone});
    }
  }

  lemma OtherStepKeepsRoom(s: State, e: Event)
    requires Room(s) && !e.Remove?
    requires e.Advance? && e.client in s.inflight ==> s.inflight[e.client].Overwriting?
    ensures Room(Step(s, e))
  {
    var s' := Step(s, e);
    if e.Advance? && e.client in s.inflight {
      forall k ensures HasLine(s'.cart.lines, k) <==> HasLine(s.cart.lines, k) {
        OverwriteKeepsLines(s.cart, s.inflight[e.client], k);
      }
      OverwriteKeepsLines(s.cart, s.inflight[e.client], 0);
    }
    assert NewSkus(s') <= NewSkus(s);
    SubsetSize(NewSkus(s'), NewSkus(s));
  }

  /** A step takes the cart's room away exactly when it is such a count. */
  lemma RoomIsKeptExactly(s: State, e: Event)
    requires Room(s)
    ensures Room(Step(s, e)) <==> !Overfills(s, e)
  {
    if e.Remove? {
      RemoveFreesRoom(s, e.id);
    } else if e.Advance? && e.client in s.inflight && s.inflight[e.client].Counting? {
      CountKeepsRoom(s, e.client);
    } else if e.Advance? && e.client in s.inflight && s.inflight[e.client].Inserting? {
      if HasLine(s.cart.lines, s.inflight[e.client].skuId) {
        var s' := Step(s, e);
        assert s'.cart == s.cart && NewSkus(s') <= NewSkus(s);
        SubsetSize(NewSkus(s'), NewSkus(s));
      } else {
        InsertMovesIn(s, e.client);
      }
    } else {
      OtherStepKeepsRoom(s, e);
    }
  }

  /** No count of the run overfills the cart. */
  predicate Guarded(s: State, es: seq<Event>)
    decreases |es|
  {
    es != [] ==> !Overfills(s, es[0]) && Guarded(Step(s, es[0]), es[1..])
  }

  /** Then the cart never holds more than the capped number of lines. */
  lemma {:induction false} CapHolds(s: State, es: seq<Event>)
    requires Room(s) && Guarded(s, es)
    ensures Room(Run(s, es)) && |Run(s, es).cart.lines| <= MAX_CART_LINES
    decreases |es|
  {
    if es != [] {
      RoomIsKeptExactly(s, es[0]);
      CapHolds(Step(s, es[0]), es[1..]);
    }
  }

  /** Every step of the run is an insert that has already passed its count. */
  predicate OnlyInserts(s: State, es: seq<Event>)
    decreases |es|
  {
    es != [] ==>
      && es[0].Advance? && es[0].client in s.inflight && s.inflight[es[0].client].Inserting?
      && OnlyInserts(Step(s, es[0]), es[1..])
  }

  lemma {:induction false} InsertsAreGuarded(s: State, es: seq<Event>)
    requires OnlyInserts(s, es)
    ensures Guarded(s, es)
    decreases |es|
  {
    if es != [] {
      InsertsAreGuarded(Step(s, es[0]), es[1..]);
    }
  }

  /** The inserts under way can all go through. */
  lemma {:induction false} InsertsGoThrough(s: State) returns (es: seq<Event>)
    ensures OnlyInserts(s, es) && |Run(s, es).cart.lines| == |s.cart.lines| + |NewSkus(s)|
    decreases |NewSkus(s)|
  {
    if NewSkus(s) == {} {
      es := [];
    } else {
      var k :| k in NewSkus(s);
      var c :| c in s.inflight && s.inflight[c].Inserting? && s.inflight[c].skuId == k;
      InsertMovesIn(s, c);
      var rest := InsertsGoThrough(Step(s, Advance(c)));
      es := [Advance(c)] + rest;
      assert es[1..] == rest;
    }
  }

  /** Room is exactly what keeps the cap: where there is room, the inserts under way never
      take the cart beyond it; where there is none, they can. */
  lemma RoomIsExact(s: State)
    ensures Room(s) <==> forall es | OnlyInserts(s, es) :: |Run(s, es).cart.lines| <= MAX_CART_LINES
  {
    if Room(s) {
      forall es | OnlyInserts(s, es) ensures |Run(s, es).cart.lines| <= MAX_CART_LINES {
        InsertsAreGuarded(s, es);
        CapHolds(s, es);
      }
    } else {
      var es := InsertsGoThrough(s);
    }
  }

  ghost predicate AnyInserting(s: State) {
    exists c :: c in s.inflight && s.inflight[c].Inserting?
  }

  /** No request counts the lines while another stands between its count and its insert. */
  ghost predicate NoOverlap(s: State, es: seq<Event>)
    decreases |es|
  {
    es != [] ==>
      && (es[0].Advance? && es[0].client in s.inflight && s.inflight[es[0].client].Counting? ==> !AnyInserting(s))
      && NoOverlap(Step(s, es[0]), es[1..])
  }

  /** In particular, no count overfills the cart if none comes between another request's
      count and its insert. */
  lemma {:induction false} CapHoldsWithoutOverlap(s: State, es: seq<Event>)
    requires Room(s) && NoOverlap(s, es)
    ensures Guarded(s, es) && |Run(s, es).cart.lines| <= MAX_CART_LINES
    decreases |es|
  {
    if es != [] {
      assert !AnyInserting(s) ==> NewSkus(s) == {};
      RoomIsKeptExactly(s, es[0]);
      CapHoldsWithoutOverlap(Step(s, es[0]), es[1..]);
    }
  }

  /** With it, two requests can take a cart of 99 lines to 101. */
  lemma OverlapExceedsCap(s: State, c: int, d: int, x: int, y: int)
    requires |s.cart.lines| == MAX_CART_LINES - 1 && c != d && x != y && s.inflight == map[]
    requires IndexOf(s.cart.lines, x) == IndexOf(s.cart.lines, y) == |s.cart.lines|
    requires LoadPricingSku(s.shop, x).Ok? && LoadPricingSku(s.shop, y).Ok?
    ensures var counted := Step(Step(Step(Step(s, StartAdd(c, x, 1)), StartAdd(d, y, 1)), Advance(c)), Advance(d));
            |Step(Step(counted, Advance(c)), Advance(d)).cart.lines| == MAX_CART_LINES + 1
  {
  }

  /** Two adds of one each to the same line can leave it only one higher. */
  lemma OverlapLosesAnAdd(s: State, c: int, d: int, x: int)
    requires CartOk(s.cart) && c != d && s.inflight == map[] && LoadPricingSku(s.shop, x).Ok?
    requires IndexOf(s.cart.lines, x) < |s.cart.lines|
    requires s.cart.lines[IndexOf(s.cart.lines, x)].quantity < MAX_CART_ITEM_QTY
    ensures var read := Step(Step(s, StartAdd(c, x, 1)), StartAdd(d, x, 1));
            var i := IndexOf(s.cart.lines, x);
            var lines := Step(Step(read, Advance(c)), Advance(d)).cart.lines;
            |lines| == |s.cart.lines| && lines[i].skuId == x && lines[i].quantity == s.cart.lines[i].quantity + 1
  {
  }
}
