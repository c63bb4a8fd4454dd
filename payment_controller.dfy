/** controllers/paymentController.js: paying for an order through the bank's
    processor. The processor (utils/paymentService.js, not part of this model)
    is a function parameter: the model records what it is sent and applies
    what it answers. */
module PaymentController {
  import opened Common
  import opened OrderModel
  import Db

  /** The JSON values the client's `paymentDetails` object may carry. */
  datatype JsValue = Num(n: int) | Str(s: string)

  /** The object handed to `processPayment`. */
  type ProcessorRequest = map<string, JsValue>

  /** What `processPayment` resolves to; an absent `error` is "". */
  datatype ProcessorResult = ProcessorResult(success: bool, transactionId: string, error: string, timestamp: nat)

  /** `{ amount: order.totalAmount, ...paymentDetails }`: the spread comes last,
      so an `amount` key the client sends wins over the order's total. */
  function ProcessorRequestFor(totalAmount: int, details: map<string, JsValue>): (req: ProcessorRequest)
    ensures req.Keys == details.Keys + {"amount"}
    ensures req["amount"] == if "amount" in details then details["amount"] else Num(totalAmount)
    ensures forall k :: k in details ==> req[k] == details[k]
  {
    map["amount" := Num(totalAmount)] + details
  }

  /** The guards, in the order they run: the order exists, the caller owns it,
      it is not already Paid. A Failed order passes, so it may be paid again. */
  function CheckPayable(orders: map<Id, Order>, key: Id, user: Id): (r: Option<Error>)
    ensures r.None? <==> key in orders && orders[key].user == user && orders[key].paymentStatus != Paid
    ensures key !in orders ==> r == Some(NotFound("Order not found"))
    ensures key in orders && orders[key].user != user ==>
      r == Some(Unauthorized("Not authorized to pay for this order"))
    ensures key in orders && orders[key].user == user && orders[key].paymentStatus == Paid ==>
      r == Some(BadRequest("Order is already paid"))
  {
    if key !in orders then Some(NotFound("Order not found"))
    else if orders[key].user != user then Some(Unauthorized("Not authorized to pay for this order"))
    else if orders[key].paymentStatus == Paid then Some(BadRequest("Order is already paid"))
    else None
  }

  /** The order after the processor answered: Paid or Failed, and
      `paymentDetails` replaced by a fresh object of the matching shape. */
  function ApplyResult(o: Order, res: ProcessorResult): (p: Order)
    ensures p.paymentStatus == (if res.success then Paid else Failed)
    ensures res.success ==> p.paymentDetails == Some(Approved(res.transactionId, res.timestamp))
    ensures !res.success ==> p.paymentDetails == Some(Declined(res.error, res.timestamp))
    ensures p.(paymentStatus := o.paymentStatus, paymentDetails := o.paymentDetails) == o
  {
    if res.success then
      o.(paymentStatus := Paid, paymentDetails := Some(Approved(res.transactionId, res.timestamp)))
    else
      o.(paymentStatus := Failed, paymentDetails := Some(Declined(res.error, res.timestamp)))
  }

  /** `paymentResult.error || 'Payment failed'`: the processor's error when it
      gave one, and never an empty message. */
  function FailureMessage(res: ProcessorResult): (m: string)
    ensures m != ""
    ensures res.error != "" ==> m == res.error
  {
    if res.error != "" then res.error else "Payment failed"
  }

  /** Whatever the processor answers, success or decline, the order is no
      longer Pending afterwards. A processor call that rejects instead of
      answering leaves the order as it was (Pending or Failed); the model has
      no such call. */
  lemma ApplyResultNeverPending(o: Order, res: ProcessorResult)
    ensures ApplyResult(o, res).paymentStatus != Pending
  {
  }

  /** POST /api/payments. When a guard fails the processor is not called and
      the order is unchanged. Otherwise the processor is sent the request
      object, the order is updated with its answer, and a decline is answered
      with a 400 carrying the processor's error. */
  method ProcessPaymentRequest(db: Db.Database, user: Id, key: Id, details: map<string, JsValue>,
                               process: ProcessorRequest -> ProcessorResult)
    returns (r: Result<string>, sent: Option<ProcessorRequest>)
    requires db.Valid()
    modifies db
    ensures db.Valid()
    ensures db.carts == old(db.carts) && db.products == old(db.products) && db.nextId == old(db.nextId)
    ensures CheckPayable(old(db.orders), key, user).Some? ==>
      r == Err(CheckPayable(old(db.orders), key, user).value) && sent == None &&
      db.orders == old(db.orders)
    ensures CheckPayable(old(db.orders), key, user).None? ==>
      var o := old(db.orders)[key];
      var res := process(ProcessorRequestFor(o.totalAmount, details));
      sent == Some(ProcessorRequestFor(o.totalAmount, details)) &&
      db.orders == old(db.orders)[key := ApplyResult(o, res)] &&
      r == if res.success then Ok(res.transactionId) else Err(BadRequest(FailureMessage(res)))
  {
    var guard := CheckPayable(db.orders, key, user);
    if guard.Some? {
      return Err(guard.value), None;
    }
    var order := db.orders[key];
    var request := ProcessorRequestFor(order.totalAmount, details);
    sent := Some(request);
    var result := process(request);
    if result.success {
      order := order.(paymentStatus := Paid,
                      paymentDetails := Some(Approved(result.transactionId, result.timestamp)));
      db.orders := db.orders[key := order];
      r := Ok(result.transactionId);
    } else {
      order := order.(paymentStatus := Failed,
                      paymentDetails := Some(Declined(result.error, result.timestamp)));
      db.orders := db.orders[key := order];
      r := Err(BadRequest(FailureMessage(result)));
    }
  }
}
