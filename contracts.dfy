/**
 * The status enumerations shared by the backend and the web client, the names of
 * the realtime events, and the HTTP errors the NestJS services throw.
 */
module Contracts {

  /** `OrderStatus`. No code path ever writes `CANCELLED` for an order. */
  datatype OrderStatus = DRAFT | CONFIRMED | IN_PROGRESS | READY | CANCELLED | CLOSED

  /** `OrderItemStatus`. Items are soft-cancelled, never deleted. */
  datatype ItemStatus = PENDING | IN_PROGRESS | READY | CANCELLED

  /** `Role`. */
  datatype Role = ADMIN | WAITER | KITCHEN | CASHIER

  /** The string value of an order status on the wire. */
  function OrderStatusName(s: OrderStatus): string {
    match s
    case DRAFT => "DRAFT"
    case CONFIRMED => "CONFIRMED"
    case IN_PROGRESS => "IN_PROGRESS"
    case READY => "READY"
    case CANCELLED => "CANCELLED"
    case CLOSED => "CLOSED"
  }

  /** The string value of an item status on the wire. */
  function ItemStatusName(s: ItemStatus): string {
    match s
    case PENDING => "PENDING"
    case IN_PROGRESS => "IN_PROGRESS"
    case READY => "READY"
    case CANCELLED => "CANCELLED"
  }

  /** The position of an order status along DRAFT, CONFIRMED, IN_PROGRESS, READY, CLOSED. */
  function OrderRank(s: OrderStatus): nat {
    match s
    case DRAFT => 0
    case CONFIRMED => 1
    case IN_PROGRESS => 2
    case READY => 3
    case CLOSED => 4
    case CANCELLED => 5
  }

  lemma OrderStatusNameInjective(a: OrderStatus, b: OrderStatus)
    requires OrderStatusName(a) == OrderStatusName(b)
    ensures a == b
  {
  }

  lemma ItemStatusNameInjective(a: ItemStatus, b: ItemStatus)
    requires ItemStatusName(a) == ItemStatusName(b)
    ensures a == b
  {
  }

  // `WS_EVENTS`
  const ORDER_NEW: string := "order.new"
  const ORDER_STATUS_CHANGED: string := "order.status.changed"
  const ORDER_ITEM_STATUS_CHANGED: string := "order.item.status.changed"

  /** The NestJS exceptions the services throw, with their messages. */
  datatype HttpError =
    | NotFound(message: string)
    | Conflict(message: string)
    | BadRequest(message: string)
    | Forbidden(message: string)
    | Unauthorized(message: string)
}
