/** The orders page: a list of orders with a selected order that is either being edited or
    viewed, a status-update action, and the order form with its item lines. */
module Orders {
  import opened Common
  import opened Reconcile

  datatype OrderItem = OrderItem(menuItemId: int, quantity: int)

  /** An order as the API carries it. `items` is the list inside the `{items: [...]}`
      wrapper; `total` stands for the amount, whose floating-point value is not modelled. */
  datatype OrderDto = OrderDto(
    restaurantId: int, customerId: int, items: seq<OrderItem>, total: int, status: string)

  type Order = WithId<OrderDto>

  /** The seven wire-level statuses of an order. */
  const KnownStatuses: set<string> :=
    {"PENDING", "PREPARING", "READY", "COMPLETED", "CANCELLED", "ACCEPTED", "DELIVERED"}

  /** The Portuguese label of each known status. */
  const StatusLabels: map<string, string> := map[
    "PENDING" := "Pendente",
    "PREPARING" := "Preparando",
    "READY" := "Pronto",
    "COMPLETED" := "Concluído",
    "CANCELLED" := "Cancelado",
    "ACCEPTED" := "Aceito",
    "DELIVERED" := "Entregue"]

  /** The label shown for a status; a status the page does not know is shown as it is. */
  function TranslateStatus(status: string): (r: string)
    ensures status in StatusLabels ==> r == StatusLabels[status]
    ensures status !in StatusLabels ==> r == status
  {
    if status in StatusLabels && StatusLabels[status] != "" then StatusLabels[status] else status
  }

  /** Every known status has a label, distinct from the wire name and from every other
      known status's label; any other status is shown unchanged. */
  lemma TranslateStatusSpec(s: string, t: string)
    ensures StatusLabels.Keys == KnownStatuses
    ensures s in KnownStatuses ==> TranslateStatus(s) != s && TranslateStatus(s) != ""
    ensures s !in KnownStatuses ==> TranslateStatus(s) == s
    ensures s in KnownStatuses && t in KnownStatuses && s != t ==>
      TranslateStatus(s) != TranslateStatus(t)
  {
  }

  const DefaultStatusClass: string := "bg-gray-100 text-gray-800"

  /** The badge colour of a status: exactly the known statuses get a colour of their own,
      every other status the grey default. */
  function StatusColorClass(status: string): (r: string)
    ensures r != DefaultStatusClass <==> status in KnownStatuses
  {
    match status
    case "PENDING" => "bg-yellow-100 text-yellow-800"
    case "PREPARING" => "bg-blue-100 text-blue-800"
    case "READY" => "bg-green-100 text-green-800"
    case "COMPLETED" => "bg-green-100 text-green-800"
    case "CANCELLED" => "bg-red-100 text-red-800"
    case "ACCEPTED" => "bg-blue-100 text-blue-800"
    case "DELIVERED" => "bg-purple-100 text-purple-800"
    case _ => DefaultStatusClass
  }

  /** `orders.map(o => o.id === id ? {...o, status} : o)`: the status of every entry with
      that id becomes `status`; nothing else about any entry changes. */
  function SetStatusById(l: seq<Order>, id: int, status: string): (r: seq<Order>)
    ensures |r| == |l|
    ensures forall i :: 0 <= i < |l| ==> r[i].id == l[i].id
    ensures forall i :: 0 <= i < |l| && l[i].id == Some(id) ==>
      r[i].dto == l[i].dto.(status := status)
    ensures forall i :: 0 <= i < |l| && l[i].id != Some(id) ==> r[i] == l[i]
  {
    if l == [] then []
    else
      var head := if l[0].id == Some(id) then l[0].(dto := l[0].dto.(status := status)) else l[0];
      [head] + SetStatusById(l[1..], id, status)
  }

  /** Setting a status twice is the same as setting it once, and a second status overrides
      the first. */
  lemma SetStatusOverrides(l: seq<Order>, id: int, s1: string, s2: string)
    ensures SetStatusById(SetStatusById(l, id, s1), id, s2) == SetStatusById(l, id, s2)
  {
  }

  const LoadError: string := "Falha ao carregar a lista de pedidos. Por favor, tente novamente."
  const NotFoundError: string := "Pedido não encontrado."
  const StatusError: string := "Falha ao atualizar o status do pedido. Por favor, tente novamente."
  const SaveError: string := "Falha ao salvar o pedido. Por favor, tente novamente."

  /** The page's state. `selectedOrder` is bound to the form (editing) or to the details
      view (viewing details). */
  class OrdersPage {
    var orders: seq<Order>
    var loading: bool
    var error: Option<string>
    var selectedOrder: Option<Order>
    var isEditing: bool
    var isViewingDetails: bool

    constructor ()
      ensures orders == [] && loading && error == None
      ensures selectedOrder == None && !isEditing && !isViewingDetails
    {
      orders := [];
      loading := true;
      error := None;
      selectedOrder := None;
      isEditing := false;
      isViewingDetails := false;
    }

    /** Loads the list. Nothing happens while signed out; otherwise a success replaces the
        list and clears the error, and a failure keeps the list and sets the error. */
    method FetchOrders(isAuthenticated: bool, reply: Reply<seq<Order>>) returns (called: bool)
      modifies this
      ensures called == isAuthenticated
      ensures !called ==> orders == old(orders) && loading == old(loading) && error == old(error)
      ensures called ==> !loading
      ensures called && reply.Ok? ==> orders == reply.value && error == None
      ensures called && reply.Err? ==> orders == old(orders) && error == Some(LoadError)
      ensures selectedOrder == old(selectedOrder)
      ensures isEditing == old(isEditing) && isViewingDetails == old(isViewingDetails)
    {
      called := isAuthenticated;
      if !isAuthenticated {
        return;
      }
      loading := true;
      if reply.Ok? {
        orders := reply.value;
        error := None;
      } else {
        error := Some(LoadError);
      }
      loading := false;
    }

    method SelectOrder(order: Order)
      modifies this
      ensures selectedOrder == Some(order) && isEditing && !isViewingDetails
      ensures orders == old(orders) && error == old(error) && loading == old(loading)
    {
      selectedOrder := Some(order);
      isEditing := true;
      isViewingDetails := false;
    }

    method ViewOrderDetails(order: Order)
      modifies this
      ensures selectedOrder == Some(order) && isViewingDetails && !isEditing
      ensures orders == old(orders) && error == old(error) && loading == old(loading)
    {
      selectedOrder := Some(order);
      isViewingDetails := true;
      isEditing := false;
    }

    method Cancel()
      modifies this
      ensures selectedOrder == None && !isEditing && !isViewingDetails
      ensures orders == old(orders) && error == old(error) && loading == old(loading)
    {
      selectedOrder := None;
      isEditing := false;
      isViewingDetails := false;
    }

    /** The "new order" button and the details view's edit button: only the editing flag
        is raised, so from the details view both flags end up set. */
    method StartEditing()
      modifies this`isEditing
      ensures isEditing
    {
      isEditing := true;
    }

    /** Changes the status of the order with id `orderId`. The order is looked up locally
        first: when it is absent the page reports it and sends nothing. Otherwise the local
        record with only its status replaced is sent, and on success only the status of the
        entries with that id changes. */
    method UpdateStatus(orderId: int, newStatus: string, reply: Reply<Order>)
      returns (call: Option<Call<Order>>)
      modifies this`orders, this`error
      ensures var k := FindIndex(old(orders), orderId);
        k.None? ==> call == None && orders == old(orders) && error == Some(NotFoundError)
      ensures var k := FindIndex(old(orders), orderId);
        k.Some? ==> call == Some(Update(Some(orderId),
                                        old(orders)[k.value].(dto := old(orders)[k.value].dto.(status := newStatus))))
      ensures call.Some? && reply.Ok? ==>
        orders == SetStatusById(old(orders), orderId, newStatus) && error == None
      ensures call.Some? && reply.Err? ==> orders == old(orders) && error == Some(StatusError)
    {
      var k := FindIndex(orders, orderId);
      if k.None? {
        error := Some(NotFoundError);
        return None;
      }
      var found := orders[k.value];
      var updatedOrder := found.(dto := found.dto.(status := newStatus));
      call := Some(Update(Some(orderId), updatedOrder));
      if reply.Err? {
        error := Some(StatusError);
        return;
      }
      orders := SetStatusById(orders, orderId, newStatus);
      error := None;
    }

    /** Saves the form. With a selected order that has an id the order is updated and its
        list entries become the submitted values with that id; otherwise the order is created
        and the server's record is appended. A success closes the form (the error banner is
        left as it was); a failure keeps everything and sets the error. */
    method SaveOrder(updatedOrder: Order, reply: Reply<Order>) returns (call: Call<Order>)
      modifies this`orders, this`error, this`selectedOrder, this`isEditing, this`isViewingDetails
      ensures var sel := old(selectedOrder);
        if sel.Some? && HasTruthyId(sel.value)
        then call == Update(sel.value.id, updatedOrder)
        else call == Create(updatedOrder)
      ensures reply.Ok? && call.Update? ==>
        orders == ReplaceById(old(orders), call.target, updatedOrder.(id := call.target))
      ensures reply.Ok? && call.Create? ==> orders == old(orders) + [reply.value]
      ensures reply.Ok? ==>
        selectedOrder == None && !isEditing && !isViewingDetails && error == old(error)
      ensures reply.Err? ==>
        orders == old(orders) && error == Some(SaveError) && selectedOrder == old(selectedOrder)
        && isEditing == old(isEditing) && isViewingDetails == old(isViewingDetails)
    {
      if selectedOrder.Some? && HasTruthyId(selectedOrder.value) {
        var id := selectedOrder.value.id;
        call := Update(id, updatedOrder);
        if reply.Err? {
          error := Some(SaveError);
          return;
        }
        orders := ReplaceById(orders, id, updatedOrder.(id := id));
      } else {
        call := Create(updatedOrder);
        if reply.Err? {
          error := Some(SaveError);
          return;
        }
        orders := orders + [reply.value];
      }
      selectedOrder := None;
      isEditing := false;
      isViewingDetails := false;
    }
  }

  /** A numeric field `x || d`: 0 falls back to the default. */
  function OrDefault(x: int, d: int): int {
    if x != 0 then x else d
  }

  /** The form's starting values: the order's fields, with 1 for a missing restaurant or
      customer, 0 for a missing total and PENDING for a missing status. The form has no id. */
  function InitialOrderForm(order: Option<Order>): (f: OrderDto)
    ensures order.None? ==> f == OrderDto(1, 1, [], 0, "PENDING")
    ensures order.Some? ==> f.items == order.value.dto.items && f.total == order.value.dto.total
    ensures order.Some? && order.value.dto.restaurantId != 0 ==> f.restaurantId == order.value.dto.restaurantId
    ensures order.Some? && order.value.dto.customerId != 0 ==> f.customerId == order.value.dto.customerId
    ensures order.Some? && order.value.dto.status != "" ==> f.status == order.value.dto.status
    ensures order.Some? && order.value.dto.restaurantId == 0 ==> f.restaurantId == 1
    ensures order.Some? && order.value.dto.customerId == 0 ==> f.customerId == 1
    ensures order.Some? && order.value.dto.status == "" ==> f.status == "PENDING"
    ensures f.restaurantId != 0 && f.customerId != 0 && f.status != ""
  {
    match order
    case None => OrderDto(1, 1, [], 0, "PENDING")
    case Some(o) => OrderDto(
      OrDefault(o.dto.restaurantId, 1), OrDefault(o.dto.customerId, 1),
      o.dto.items, o.dto.total, OrElse(o.dto.status, "PENDING"))
  }

  /** What the form hands to the page on submit: its fields with the edited item lines, and
      no id. */
  function SubmittedOrder(formData: OrderDto, items: seq<OrderItem>): (o: Order)
    ensures o.id == None && o.dto.items == items
    ensures o.dto.(items := formData.items) == formData
  {
    WithId(None, formData.(items := items))
  }

  datatype OrderField = CustomerId(n: int) | RestaurantId(n: int) | Total(n: int) | Status(s: string)

  datatype ItemField = MenuItemId(n: int) | Quantity(n: int)

  /** The order form's state: the fields, and the item lines kept apart from them. */
  class OrderForm {
    var formData: OrderDto
    var items: seq<OrderItem>

    constructor (order: Option<Order>)
      ensures formData == InitialOrderForm(order)
      ensures items == if order.Some? then order.value.dto.items else []
    {
      formData := InitialOrderForm(order);
      items := if order.Some? then order.value.dto.items else [];
    }

    /** Appends an empty line: item 0, quantity 1. */
    method AddItem()
      modifies this`items
      ensures items == old(items) + [OrderItem(0, 1)]
    {
      items := items + [OrderItem(0, 1)];
    }

    /** Deletes exactly the line at `index`; the others keep their order. */
    method RemoveItem(index: nat)
      requires index < |items|
      modifies this`items
      ensures items == RemoveAt(old(items), index)
    {
      items := RemoveAt(items, index);
    }

    /** Sets one field of the line at `index`. */
    method UpdateItem(index: nat, field: ItemField)
      requires index < |items|
      modifies this`items
      ensures |items| == |old(items)|
      ensures forall k :: 0 <= k < |items| && k != index ==> items[k] == old(items)[k]
      ensures items[index] == match field
        case MenuItemId(n) => old(items)[index].(menuItemId := n)
        case Quantity(n) => old(items)[index].(quantity := n)
    {
      var item := items[index];
      match field {
        case MenuItemId(n) => items := items[index := item.(menuItemId := n)];
        case Quantity(n) => items := items[index := item.(quantity := n)];
      }
    }

    /** Sets one field of the order. */
    method Change(field: OrderField)
      modifies this`formData
      ensures formData == match field
        case CustomerId(n) => old(formData).(customerId := n)
        case RestaurantId(n) => old(formData).(restaurantId := n)
        case Total(n) => old(formData).(total := n)
        case Status(s) => old(formData).(status := s)
    {
      match field {
        case CustomerId(n) => formData := formData.(customerId := n);
        case RestaurantId(n) => formData := formData.(restaurantId := n);
        case Total(n) => formData := formData.(total := n);
        case Status(s) => formData := formData.(status := s);
      }
    }

    method Submit() returns (submitted: Order)
      ensures submitted == SubmittedOrder(formData, items)
    {
      submitted := WithId(None, formData.(items := items));
    }
  }

  /** Opening the form on an order and submitting it untouched gives the order's own values
      (without its id) whenever the order has a restaurant, a customer and a status. */
  lemma FormRoundTrip(o: Order)
    requires o.dto.restaurantId != 0 && o.dto.customerId != 0 && o.dto.status != ""
    ensures SubmittedOrder(InitialOrderForm(Some(o)), o.dto.items) == WithId(None, o.dto)
  {
  }

  /** Saving an untouched form over a selected order with a truthy id leaves the list as it
      was: the merged id restores exactly the entry that was selected. */
  lemma UntouchedSaveKeepsList(l: seq<Order>, k: nat)
    requires k < |l| && HasTruthyId(l[k]) && UniqueIds(l)
    requires l[k].dto.restaurantId != 0 && l[k].dto.customerId != 0 && l[k].dto.status != ""
    ensures var o := l[k];
      ReplaceById(l, o.id, SubmittedOrder(InitialOrderForm(Some(o)), o.dto.items).(id := o.id)) == l
  {
  }
}
