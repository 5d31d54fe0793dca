/**
  The in-memory order collection and its six route handlers, each as a pure
  function from the current sequence of orders (and the request's inputs) to
  a reply and the next sequence.

  Lookups use the FIRST order whose `"id"` is the requested string, exactly as
  `find` and `findIndex` do; ids are not guaranteed unique, because a payload
  may carry its own `"id"` key and spread it over the generated or URL id.
 */
module Orders {
  import opened Json
  import opened OrderSchema

  /** A stored order: the top-level properties of a JavaScript object. */
  type Order = Fields

  const IdKey: string := "id"

  /** Error texts the handlers send back with a 400 reply. */
  const IncompleteOrderData: string := "Incomplete order data"
  const NoDataProvided: string := "No data provided for update"

  /** What a handler answers, without the HTTP status and JSON framing. */
  datatype Reply =
    | Listing(orders: seq<Order>)   // 200, the whole collection
    | Created(orderId: string)      // 201, with the generated id
    | Found(order: Order)           // 200, one order
    | Updated                       // 200, full replacement done
    | PartiallyUpdated              // 200, merge done
    | Deleted                       // 200, removal done
    | BadRequest(error: string)     // 400
    | NotFound                      // 404

  /** A reply together with the collection after the request. */
  datatype Step = Step(reply: Reply, orders: seq<Order>)

  // ---------------------------------------------------------------------------
  // Lookup by id
  // ---------------------------------------------------------------------------

  /** `order.id === id`: present and the very same string. */
  predicate HasId(o: Order, id: string)
  {
    IdKey in o && o[IdKey] == Str(id)
  }

  /** No order in `s` has id `id`. */
  predicate Absent(s: seq<Order>, id: string)
  {
    forall j :: 0 <= j < |s| ==> !HasId(s[j], id)
  }

  /** `i` is the least index whose order has id `id`. */
  predicate IsFirstMatch(s: seq<Order>, id: string, i: int)
  {
    && 0 <= i < |s|
    && HasId(s[i], id)
    && forall j :: 0 <= j < i ==> !HasId(s[j], id)
  }

  /** `findIndex`: the first index whose order has id `id`, or -1. */
  function FindIndex(s: seq<Order>, id: string): (r: int)
    ensures r == -1 <==> Absent(s, id)
    ensures r != -1 ==> IsFirstMatch(s, id, r)
    decreases |s|
  {
    if |s| == 0 then -1
    else if HasId(s[0], id) then 0
    else
      var r := FindIndex(s[1..], id);
      if r == -1 then -1 else r + 1
  }

  // ---------------------------------------------------------------------------
  // Record construction
  // ---------------------------------------------------------------------------

  /** `{ id: id, ...fields }`: the id first, then every field of the payload,
      so a payload `"id"` wins. */
  function WithId(id: string, fields: Fields): (o: Order)
    ensures o.Keys == fields.Keys + {IdKey}
    ensures forall k :: k in fields ==> o[k] == fields[k]
    ensures IdKey !in fields ==> o[IdKey] == Str(id)
  {
    map[IdKey := Str(id)] + fields
  }

  /** `Object.assign(o, body)`: every own property of `body` overwrites or
      extends `o`; the other properties of `o` stay. */
  function Assign(o: Order, body: Value): (o': Order)
    ensures o'.Keys == o.Keys + OwnProps(body).Keys
    ensures forall k :: k in OwnProps(body) ==> o'[k] == OwnProps(body)[k]
    ensures forall k :: k in o && k !in OwnProps(body) ==> o'[k] == o[k]
  {
    o + OwnProps(body)
  }

  // ---------------------------------------------------------------------------
  // The handlers
  // ---------------------------------------------------------------------------

  /** GET /orders: the whole collection, in insertion order. */
  function List(s: seq<Order>): (step: Step)
    ensures step.reply.Listing? && step.reply.orders == s
    ensures step.orders == s
  {
    Step(Listing(s), s)
  }

  /** POST /orders: validate, then append `{ id: newId, ...data }`. `newId`
      stands for the random id the generator draws; nothing checks it against
      the ids already stored. */
  function Create(s: seq<Order>, data: Value, newId: string): (step: Step)
    ensures !ValidOrder(data) ==> step == Step(BadRequest(IncompleteOrderData), s)
    ensures ValidOrder(data) ==>
      && step.reply == Created(newId)
      && |step.orders| == |s| + 1
      && step.orders[..|s|] == s
      && step.orders[|s|].Keys == data.fields.Keys + {IdKey}
      && (forall k :: k in data.fields ==> step.orders[|s|][k] == data.fields[k])
      && step.orders[|s|][IdKey] == (if IdKey in data.fields then data.fields[IdKey] else Str(newId))
  {
    if !ValidateOrderData(data) then Step(BadRequest(IncompleteOrderData), s)
    else Step(Created(newId), s + [WithId(newId, data.fields)])
  }

  /** GET /orders/:id: the first order with that id. */
  function Get(s: seq<Order>, id: string): (step: Step)
    ensures step.orders == s
    ensures step.reply.NotFound? <==> Absent(s, id)
    ensures forall i :: IsFirstMatch(s, id, i) ==> step.reply == Found(s[i])
    ensures step.reply.NotFound? || step.reply.Found?
  {
    var i := FindIndex(s, id);
    if i == -1 then Step(NotFound, s) else Step(Found(s[i]), s)
  }

  /** PUT /orders/:id: validate first, then overwrite the first match with
      `{ id: id, ...data }`, dropping every old field the payload lacks. */
  function Replace(s: seq<Order>, id: string, data: Value): (step: Step)
    ensures !ValidOrder(data) ==> step == Step(BadRequest(IncompleteOrderData), s)
    ensures ValidOrder(data) && Absent(s, id) ==> step == Step(NotFound, s)
    ensures forall i :: ValidOrder(data) && IsFirstMatch(s, id, i) ==>
      && step.reply == Updated
      && |step.orders| == |s|
      && (forall j :: 0 <= j < |s| && j != i ==> step.orders[j] == s[j])
      && step.orders[i].Keys == data.fields.Keys + {IdKey}
      && (forall k :: k in data.fields ==> step.orders[i][k] == data.fields[k])
      && step.orders[i][IdKey] == (if IdKey in data.fields then data.fields[IdKey] else Str(id))
  {
    if !ValidateOrderData(data) then Step(BadRequest(IncompleteOrderData), s)
    else
      var i := FindIndex(s, id);
      if i == -1 then Step(NotFound, s)
      else Step(Updated, s[i := WithId(id, data.fields)])
  }

  /** PATCH /orders/:id: refuse a falsy body, then merge the body's own
      properties into the first match. The result is not validated. */
  function Patch(s: seq<Order>, id: string, data: Value): (step: Step)
    ensures !Truthy(data) ==> step == Step(BadRequest(NoDataProvided), s)
    ensures Truthy(data) && Absent(s, id) ==> step == Step(NotFound, s)
    ensures forall i :: Truthy(data) && IsFirstMatch(s, id, i) ==>
      && step.reply == PartiallyUpdated
      && |step.orders| == |s|
      && (forall j :: 0 <= j < |s| && j != i ==> step.orders[j] == s[j])
      && step.orders[i].Keys == s[i].Keys + OwnProps(data).Keys
      && (forall k :: k in OwnProps(data) ==> step.orders[i][k] == OwnProps(data)[k])
      && (forall k :: k in s[i] && k !in OwnProps(data) ==> step.orders[i][k] == s[i][k])
  {
    if !Truthy(data) then Step(BadRequest(NoDataProvided), s)
    else
      var i := FindIndex(s, id);
      if i == -1 then Step(NotFound, s)
      else Step(PartiallyUpdated, s[i := Assign(s[i], data)])
  }

  /** DELETE /orders/:id: remove the first match; later orders move up one
      place and keep their relative order. */
  function Delete(s: seq<Order>, id: string): (step: Step)
    ensures Absent(s, id) ==> step == Step(NotFound, s)
    ensures forall i :: IsFirstMatch(s, id, i) ==>
      && step.reply == Deleted
      && |step.orders| == |s| - 1
      && (forall j :: 0 <= j < i ==> step.orders[j] == s[j])
      && (forall j :: i <= j < |s| - 1 ==> step.orders[j] == s[j + 1])
      && multiset(step.orders) + multiset{s[i]} == multiset(s)
  {
    var i := FindIndex(s, id);
    if i == -1 then Step(NotFound, s)
    else
      assert s == s[..i] + [s[i]] + s[i + 1..];
      Step(Deleted, s[..i] + s[i + 1..])
  }

  // ---------------------------------------------------------------------------
  // Routing and request sequences
  // ---------------------------------------------------------------------------

  /** The six routes, with the inputs each handler reads. `newId` is the id
      the generator would produce for a create. */
  datatype Request =
    | ListOrders
    | CreateOrder(body: Value, newId: string)
    | GetOrder(id: string)
    | ReplaceOrder(id: string, body: Value)
    | PatchOrder(id: string, body: Value)
    | DeleteOrder(id: string)

  /** Dispatch one request. Only a reply `Created` adds an order and only a
      reply `Deleted` removes one; every other reply leaves the count alone. */
  function Handle(s: seq<Order>, req: Request): (step: Step)
    ensures step.reply.Created? ==> |step.orders| == |s| + 1
    ensures step.reply.Deleted? ==> |step.orders| == |s| - 1
    ensures !step.reply.Created? && !step.reply.Deleted? ==> |step.orders| == |s|
    ensures step.reply.Created? <==> req.CreateOrder? && ValidOrder(req.body)
    ensures step.reply.Deleted? <==> req.DeleteOrder? && !Absent(s, req.id)
  {
    match req
    case ListOrders => List(s)
    case CreateOrder(body, newId) => Create(s, body, newId)
    case GetOrder(id) => Get(s, id)
    case ReplaceOrder(id, body) => Replace(s, id, body)
    case PatchOrder(id, body) => Patch(s, id, body)
    case DeleteOrder(id) =>
      var i := FindIndex(s, id);
      assert i != -1 ==> IsFirstMatch(s, id, i);
      Delete(s, id)
  }

  /** The collection a process starts with. */
  const Initial: seq<Order> := []

  /** The replies to a sequence of requests, and the collection after them. */
  datatype Trace = Trace(replies: seq<Reply>, orders: seq<Order>)

  function Run(s: seq<Order>, reqs: seq<Request>): (t: Trace)
    ensures |t.replies| == |reqs|
    decreases |reqs|
  {
    if |reqs| == 0 then Trace([], s)
    else
      var step := Handle(s, reqs[0]);
      var rest := Run(step.orders, reqs[1..]);
      Trace([step.reply] + rest.replies, rest.orders)
  }

  /** How many of `replies` report a created order. */
  function Creations(replies: seq<Reply>): (n: nat)
    ensures n <= |replies|
    decreases |replies|
  {
    if |replies| == 0 then 0
    else (if replies[0].Created? then 1 else 0) + Creations(replies[1..])
  }

  /** How many of `replies` report a deleted order. */
  function Deletions(replies: seq<Reply>): (n: nat)
    ensures n <= |replies|
    decreases |replies|
  {
    if |replies| == 0 then 0
    else (if replies[0].Deleted? then 1 else 0) + Deletions(replies[1..])
  }
}
