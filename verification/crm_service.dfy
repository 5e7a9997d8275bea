/** The downstream CRM service: a fail-closed session gate that asks the
    authority over the network, and an order store in which every read and
    write is scoped to the caller's username. */
module CrmService {
  import opened Wrappers
  import opened Wire

  /** The cookie the browser is expected to carry. */
  const AuthCookie: string := "auth_token"

  /** The cookie under which the token is forwarded to the authority. */
  const ForwardCookie: string := "session_id"

  const AuthLoginUrl: string := "http://localhost:5000/login"

  /** A document id, opaque here (the string form of an ObjectId). */
  type OrderId = string

  /** An order document; `username` is whatever value the session carried
      under "name". */
  datatype Order = Order(username: Json, item: Json, price: Json)

  type Store = map<OrderId, Order>

  /** The decoded validation body that `validate_session` hands back. */
  type Session = Object

  datatype Response =
    | JsonError(status: int, error: string)
    | Created(orderId: OrderId)
    | OrderList(orders: Store)
    | Deleted
    | Updated
    | InternalError
    | RedirectTo(location: string)
    | DashboardPage(user: Session, orders: Store)

  /** The HTTP status each response is sent with. */
  function StatusOf(r: Response): int
  {
    match r
    case JsonError(status, _) => status
    case Created(_) => 201
    case InternalError => 500
    case RedirectTo(_) => 302
    case _ => 200
  }

  const Unauthorized: Response := JsonError(403, "Unauthorized")
  const MissingFields: Response := JsonError(400, "Missing fields")
  const NothingToUpdate: Response := JsonError(400, "Nothing to update")
  const NotFound: Response := JsonError(404, "Order not found")

  /** The outbound validation request `validate_session` would send, or
      None when the `auth_token` cookie is absent or empty. The token goes
      out as the cookie `session_id`, with no query arguments. */
  function OutboundCall(cookies: map<string, string>): (r: Option<Request>)
    ensures r.None? <==> !(AuthCookie in cookies && cookies[AuthCookie] != "")
    ensures r.Some? ==> r.value.args == map[]
    ensures r.Some? ==> r.value.cookies.Keys == {ForwardCookie}
    ensures r.Some? ==> r.value.cookies[ForwardCookie] == cookies[AuthCookie]
  {
    var token := Get(cookies, AuthCookie);
    if token.None? || token.value == "" then None
    else Some(Request(map[], map[ForwardCookie := token.value]))
  }

  /** The decision on the authority's reply: a session only for a 200
      whose body has `status == "ok"`; a network failure is a denial. */
  function Decide(reply: Reply): (r: Option<Session>)
    ensures r.Some? <==>
      reply.Resp? && reply.response.status == 200
      && "status" in reply.response.body && reply.response.body["status"] == JStr("ok")
    ensures r.Some? ==> r.value == reply.response.body
  {
    match reply
    case NetErr => None
    case Resp(JsonResponse(status, body)) =>
      if status == 200 && Get(body, "status") == Some(JStr("ok")) then Some(body) else None
  }

  /** `validate_session`: no cookie means no call and no session; otherwise
      `network` answers the outbound request and the reply is decided. */
  function ValidateSession(cookies: map<string, string>, network: Request -> Reply): (r: Option<Session>)
    ensures OutboundCall(cookies).None? ==> r.None?
    ensures OutboundCall(cookies).Some? ==> r == Decide(network(OutboundCall(cookies).value))
    ensures r.Some? ==> Admitted(r)
    ensures r.Some? ==>
      && OutboundCall(cookies).Some?
      && network(OutboundCall(cookies).value).Resp?
      && network(OutboundCall(cookies).value).response.status == 200
      && r.value == network(OutboundCall(cookies).value).response.body
      && Get(r.value, "status") == Some(JStr("ok"))
  {
    match OutboundCall(cookies)
    case None => None
    case Some(req) => Decide(network(req))
  }

  /** `if not session`: the gate admits only a non-empty session dict
      (Python treats both None and `{}` as falsy). */
  predicate Admitted(gate: Option<Session>)
  {
    gate.Some? && gate.value != map[]
  }

  /** The orders whose owner equals `who`, as `find({"username": who})`. */
  function OwnedBy(store: Store, who: Json): Store
  {
    map id | id in store && store[id].username == who :: store[id]
  }

  /** The result of one handler: the store afterwards and the response. */
  datatype Outcome = Outcome(store: Store, response: Response)

  /** POST /api/orders. `newId` stands for the id `insert_one` assigns. */
  function CreateOrder(gate: Option<Session>, body: Object, store: Store, newId: OrderId): (r: Outcome)
    requires newId !in store
    ensures !Admitted(gate) ==> r == Outcome(store, Unauthorized)
    ensures Admitted(gate) && !(Truthy(Get(body, "item")) && Truthy(Get(body, "price"))) ==>
      r == Outcome(store, MissingFields)
    ensures Admitted(gate) && Truthy(Get(body, "item")) && Truthy(Get(body, "price")) && "name" !in gate.value ==>
      r == Outcome(store, InternalError)
    ensures r.response.Created? <==>
      Admitted(gate) && Truthy(Get(body, "item")) && Truthy(Get(body, "price")) && "name" in gate.value
    ensures r.response.Created? ==>
      && r.response.orderId == newId
      && r.store.Keys == store.Keys + {newId}
      && r.store[newId] == Order(gate.value["name"], body["item"], body["price"])
      && (forall id :: id in store ==> r.store[id] == store[id])
    ensures !r.response.Created? ==> r.store == store
  {
    if !Admitted(gate) then Outcome(store, Unauthorized)
    else
      var session := gate.value;
      var item := Get(body, "item");
      var price := Get(body, "price");
      if !Truthy(item) || !Truthy(price) then Outcome(store, MissingFields)
      else if "name" !in session then Outcome(store, InternalError)
      else Outcome(store[newId := Order(session["name"], item.value, price.value)], Created(newId))
  }

  /** GET /api/orders: exactly the caller's orders; the store is untouched. */
  function GetOrders(gate: Option<Session>, store: Store): (r: Outcome)
    ensures r.store == store
    ensures !Admitted(gate) ==> r.response == Unauthorized
    ensures Admitted(gate) && "name" !in gate.value ==> r.response == InternalError
    ensures Admitted(gate) && "name" in gate.value ==>
      && r.response.OrderList?
      && (forall id :: id in r.response.orders <==>
            id in store && store[id].username == gate.value["name"])
      && (forall id :: id in r.response.orders ==> r.response.orders[id] == store[id])
  {
    if !Admitted(gate) then Outcome(store, Unauthorized)
    else if "name" !in gate.value then Outcome(store, InternalError)
    else Outcome(store, OrderList(OwnedBy(store, gate.value["name"])))
  }

  /** DELETE /api/orders/<id>: removes the order only if the caller owns it. */
  function DeleteOrder(gate: Option<Session>, store: Store, id: OrderId): (r: Outcome)
    ensures !Admitted(gate) ==> r == Outcome(store, Unauthorized)
    ensures Admitted(gate) && "name" !in gate.value ==> r == Outcome(store, InternalError)
    ensures r.response == Deleted <==>
      Admitted(gate) && "name" in gate.value && id in store && store[id].username == gate.value["name"]
    ensures r.response == Deleted ==> r.store.Keys == store.Keys - {id}
    ensures forall k :: k in r.store ==> k in store && r.store[k] == store[k]
    ensures r.response != Deleted ==> r.store == store
    ensures Admitted(gate) && "name" in gate.value && r.response != Deleted ==> r.response == NotFound
  {
    if !Admitted(gate) then Outcome(store, Unauthorized)
    else
      var session := gate.value;
      if "name" !in session then Outcome(store, InternalError)
      else if id in store && store[id].username == session["name"] then Outcome(store - {id}, Deleted)
      else Outcome(store, NotFound)
  }

  /** The `$set` document: the truthy fields among item and price. */
  function Patch(o: Order, item: Option<Json>, price: Option<Json>): Order
  {
    o.(item := if Truthy(item) then item.value else o.item,
       price := if Truthy(price) then price.value else o.price)
  }

  /** PUT /api/orders/<id>: overwrites the truthy fields of an order the
      caller owns; an update with no truthy field is refused first. */
  function UpdateOrder(gate: Option<Session>, body: Object, store: Store, id: OrderId): (r: Outcome)
    ensures !Admitted(gate) ==> r == Outcome(store, Unauthorized)
    ensures Admitted(gate) && !Truthy(Get(body, "item")) && !Truthy(Get(body, "price")) ==>
      r == Outcome(store, NothingToUpdate)
    ensures Admitted(gate) && (Truthy(Get(body, "item")) || Truthy(Get(body, "price"))) && "name" !in gate.value ==>
      r == Outcome(store, InternalError)
    ensures r.response == Updated <==>
      && Admitted(gate) && "name" in gate.value
      && (Truthy(Get(body, "item")) || Truthy(Get(body, "price")))
      && id in store && store[id].username == gate.value["name"]
    ensures (Admitted(gate) && "name" in gate.value
             && (Truthy(Get(body, "item")) || Truthy(Get(body, "price")))
             && r.response != Updated) ==> r.response == NotFound
    ensures r.response == Updated ==>
      && r.store.Keys == store.Keys
      && r.store[id].username == store[id].username
      && r.store[id].item == (if Truthy(Get(body, "item")) then body["item"] else store[id].item)
      && r.store[id].price == (if Truthy(Get(body, "price")) then body["price"] else store[id].price)
      && (forall k :: k in store && k != id ==> r.store[k] == store[k])
    ensures r.response != Updated ==> r.store == store
  {
    if !Admitted(gate) then Outcome(store, Unauthorized)
    else
      var session := gate.value;
      var item := Get(body, "item");
      var price := Get(body, "price");
      if !Truthy(item) && !Truthy(price) then Outcome(store, NothingToUpdate)
      else if "name" !in session then Outcome(store, InternalError)
      else if id in store && store[id].username == session["name"] then
        Outcome(store[id := Patch(store[id], item, price)], Updated)
      else Outcome(store, NotFound)
  }

  /** GET /dashboard: without a session, back to the authority's login
      page; with one, the page lists the orders whose owner equals
      `session.get("name")` (a missing name queries for null). */
  function Dashboard(gate: Option<Session>, store: Store): (r: Response)
    ensures !Admitted(gate) <==> r == RedirectTo(AuthLoginUrl)
    ensures Admitted(gate) ==> r.DashboardPage? && r.user == gate.value
    ensures Admitted(gate) && "name" in gate.value ==>
      forall id :: id in r.orders <==> id in store && store[id].username == gate.value["name"]
    ensures Admitted(gate) && "name" !in gate.value ==>
      forall id :: id in r.orders <==> id in store && store[id].username == JNull
    ensures Admitted(gate) ==> forall id :: id in r.orders ==> r.orders[id] == store[id]
  {
    if !Admitted(gate) then RedirectTo(AuthLoginUrl)
    else
      var session := gate.value;
      var who := if "name" in session then session["name"] else JNull;
      DashboardPage(session, OwnedBy(store, who))
  }

  /** For a session that carries a name, the dashboard shows exactly the
      orders that GET /api/orders returns. */
  lemma DashboardAgreesWithList(gate: Option<Session>, store: Store)
    requires Admitted(gate) && "name" in gate.value
    ensures GetOrders(gate, store).response.OrderList?
    ensures Dashboard(gate, store).orders == GetOrders(gate, store).response.orders
  {
  }

  /** One order request, as the handlers receive it after routing. */
  datatype Op =
    | CreateOp(body: Object, newId: OrderId)
    | ListOp
    | DeleteOp(id: OrderId)
    | UpdateOp(body: Object, id: OrderId)

  predicate Enabled(store: Store, op: Op)
  {
    op.CreateOp? ==> op.newId !in store
  }

  /** Going from `store` to `store'` touched only orders owned by `who`:
      every other order is still there, unchanged, every order that
      stays keeps its owner, and every added or changed order is `who`'s. */
  predicate Isolated(store: Store, store': Store, who: Json)
  {
    && (forall id :: id in store && store[id].username != who ==> id in store' && store'[id] == store[id])
    && (forall id :: id in store && id in store' ==> store'[id].username == store[id].username)
    && (forall id :: id in store' && (id !in store || store'[id] != store[id]) ==> store'[id].username == who)
  }

  /** Owner isolation: a request never touches another user's orders, a
      request without a session touches nothing, and the store changes
      only when the response is a success (200 or 201). */
  function Handle(gate: Option<Session>, store: Store, op: Op): (r: Outcome)
    requires Enabled(store, op)
    ensures !Admitted(gate) ==> r == Outcome(store, Unauthorized) && StatusOf(r.response) == 403
    ensures Admitted(gate) && "name" in gate.value ==> Isolated(store, r.store, gate.value["name"])
    ensures Admitted(gate) && "name" !in gate.value ==> r.store == store
    ensures r.store != store ==> StatusOf(r.response) == 200 || StatusOf(r.response) == 201
  {
    match op
    case CreateOp(body, newId) => CreateOrder(gate, body, store, newId)
    case ListOp => GetOrders(gate, store)
    case DeleteOp(id) => DeleteOrder(gate, store, id)
    case UpdateOp(body, id) => UpdateOrder(gate, body, store, id)
  }

  /** Deleting a just-created order restores the store it was created in. */
  lemma DeleteUndoesCreate(gate: Option<Session>, body: Object, store: Store, newId: OrderId)
    requires newId !in store
    requires CreateOrder(gate, body, store, newId).response.Created?
    ensures DeleteOrder(gate, CreateOrder(gate, body, store, newId).store, newId) == Outcome(store, Deleted)
  {
  }

  /** A created order shows up in its creator's list, with the item and
      price that were sent. */
  lemma CreateThenList(gate: Option<Session>, body: Object, store: Store, newId: OrderId)
    requires newId !in store
    requires CreateOrder(gate, body, store, newId).response.Created?
    ensures var list := GetOrders(gate, CreateOrder(gate, body, store, newId).store).response;
      && list.OrderList?
      && newId in list.orders
      && list.orders[newId] == Order(gate.value["name"], body["item"], body["price"])
  {
  }

}
