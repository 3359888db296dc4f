/** Normalized broker state: order, fill, position and account snapshots, and the submission entity. */
module Brokerage {
  import opened Prelude
  import opened Portfolio

  type ClientId = string
  type BrokerId = string
  type ActivityId = string

  /** Ownership of a broker order is decided by its client id alone: it starts with the strategy's prefix. */
  predicate Owned(client: ClientId, prefix: string) {
    prefix <= client
  }

  datatype OrderStatus =
    | PendingNew | Accepted | New | PartiallyFilled | PendingCancel | PendingReplace | AcceptedForBidding | Held
    | Stopped | Filled | Canceled | Expired | BrokerRejected | Replaced | Suspended | DoneForDay | Calculated | Unknown
  {
    predicate Terminal() {
      this in {Filled, Canceled, Expired, BrokerRejected, Replaced, DoneForDay, Calculated}
    }
  }

  datatype OrderType = Market | Limit

  datatype TimeInForce = Day | GoodTilCanceled | ImmediateOrCancel | FillOrKill

  datatype AccountSnapshot = AccountSnapshot(accountHash: string, active: bool, blocked: bool, cash: real, equity: real,
                                             buyingPower: real, capturedAt: int)
  {
    predicate PermitsNewExposure() { active && !blocked && buyingPower > 0.0 && cash >= 0.0 }
  }

  datatype OrderSnapshot = OrderSnapshot(brokerId: BrokerId, clientId: ClientId, status: OrderStatus, symbol: string,
                                         side: Side, quantity: real, filled: real, averagePrice: Option<real>,
                                         limitPrice: Option<real>, updatedAt: int)
  {
    function Remaining(): real { quantity - filled }
  }

  /** What the constructor of an order snapshot demands. */
  predicate ValidOrder(order: OrderSnapshot) {
    && order.brokerId != "" && order.quantity > 0.0 && 0.0 <= order.filled <= order.quantity
    && (order.filled > 0.0 <==> order.averagePrice.Some?)
    && (order.averagePrice.Some? ==> order.averagePrice.value > 0.0)
    && (order.limitPrice.Some? ==> order.limitPrice.value > 0.0)
    && (order.status == Filled ==> order.filled == order.quantity)
  }

  datatype PositionSnapshot = PositionSnapshot(symbol: string, quantity: real, marketValue: real, capturedAt: int)

  /** One execution as the broker reports it; `clientId` is its owner when known. */
  datatype FillActivity = FillActivity(activityId: ActivityId, executionId: string, brokerId: BrokerId,
                                       clientId: Option<ClientId>, symbol: string, side: Side, quantity: real,
                                       price: real, fee: Option<real>, timestamp: int)

  datatype ActivityPage = ActivityPage(activities: seq<FillActivity>, nextToken: Option<ActivityId>)

  /** The approved request; its hash stands for its whole content. */
  datatype ApprovedOrder = ApprovedOrder(clientId: ClientId, symbol: string, side: Side, quantity: int,
                                         orderType: OrderType, timeInForce: TimeInForce, limitPrice: Option<real>,
                                         extendedHours: bool, namespace: string, accountHash: string)

  predicate ValidApproved(order: ApprovedOrder) {
    && order.clientId != "" && order.quantity > 0
    && (order.orderType == Limit <==> order.limitPrice.Some?)
    && (order.limitPrice.Some? ==> order.limitPrice.value > 0.0)
  }

  // ----- submissions -----

  datatype SubmissionState = Persisted | Started | Acknowledged | Ambiguous | Reconciled | Rejected
  {
    predicate Terminal() { this == Reconciled || this == Rejected }

    /** How far a submission has come; every durable change must move it up. */
    function Rank(): nat {
      match this
      case Persisted => 0
      case Started => 1
      case Acknowledged => 2
      case Ambiguous => 2
      case Reconciled => 3
      case Rejected => 3
    }
  }

  datatype Submission = Submission(sequence: nat, order: ApprovedOrder, payloadHash: string, state: SubmissionState,
                                   createdAt: int, updatedAt: int, brokerId: Option<BrokerId>, reason: Option<string>)

  /** What the constructor of a journal entry demands; a stored row that breaks it cannot be read back. */
  predicate ValidSubmission(entry: Submission) {
    && entry.sequence > 0 && entry.order.clientId != ""
    && entry.createdAt <= entry.updatedAt
    && (if entry.state == Acknowledged || entry.state == Reconciled then entry.brokerId.Some? && entry.brokerId.value != ""
        else entry.brokerId.None?)
    && (entry.state == Ambiguous || entry.state == Rejected ==> entry.reason.Some? && entry.reason.value != "")
  }
}
