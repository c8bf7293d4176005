/** The ERP that receives the orders: one atomic receipt per request, idempotent by key. */
module ErpMock {
  import opened Prelude
  import opened Schema

  /** What the ERP keeps of an order it registered. */
  datatype Record = Record(erpOrderId: string, orderUid: string, receivedAt: Time, items: nat, total: Money, city: string)

  /** The two dictionaries, and the order uids registered so far, oldest first. */
  datatype Erp = Erp(byKey: map<string, Record>, byOrder: map<string, string>, log: seq<string>)

  const EMPTY_ERP := Erp(map[], map[], [])

  datatype Answer = Ack(erpOrderId: string, duplicate: bool) | Unavailable(code: int)

  const SERVER_ERROR_CODES: set<int> := {500, 503}

  /** One POST: its idempotency key, its body, the id drawn for it and the injected failure, if any. */
  datatype Request = Request(key: string, payload: OrderPayload, drawnId: string, at: Time, failure: Option<int>)

  function RecordOf(q: Request): Record {
    Record(q.drawnId, q.payload.order.uid, q.at, |q.payload.items|, q.payload.order.total, q.payload.shipping.fields.city)
  }

  function Receive(erp: Erp, q: Request): (Erp, Answer) {
    if q.key != "" && q.key in erp.byKey then (erp, Ack(erp.byKey[q.key].erpOrderId, true))
    else if q.failure.Some? then (erp, Unavailable(q.failure.value))
    else
      var record := RecordOf(q);
      (Erp(if q.key != "" then erp.byKey[q.key := record] else erp.byKey,
           erp.byOrder[record.orderUid := record.erpOrderId],
           erp.log + [record.orderUid]),
       Ack(record.erpOrderId, false))
  }

  function ReceiveAll(erp: Erp, requests: seq<Request>): Erp
    decreases |requests|
  {
    if requests == [] then erp else ReceiveAll(Receive(erp, requests[0]).0, requests[1..])
  }

  /** Requests other than those that carry `key`. */
  function Others(requests: seq<Request>, key: string): seq<Request> {
    if requests == [] then []
    else (if requests[0].key == key then [] else [requests[0]]) + Others(requests[1..], key)
  }

  /**
   Idempotence by key: once a key is acknowledged, requests with it might as well
   never be sent, however many and among whatever others, and each is answered
   with the first id.
   */
  lemma {:induction false} AcknowledgedKeyIsInert(erp: Erp, requests: seq<Request>, key: string, q: Request)
    requires key != "" && key in erp.byKey && q.key == key
    ensures ReceiveAll(erp, requests) == ReceiveAll(erp, Others(requests, key))
    ensures Receive(ReceiveAll(erp, requests), q)
            == (ReceiveAll(erp, requests), Ack(erp.byKey[key].erpOrderId, true))
    decreases |requests|
  {
    if requests != [] {
      var first := requests[0];
      AcknowledgedKeyIsInert(Receive(erp, first).0, requests[1..], key, q);
      if first.key != key {
        assert Others(requests, key)[0] == first && Others(requests, key)[1..] == Others(requests[1..], key);
      } else {
        assert Others(requests, key) == Others(requests[1..], key);
      }
    }
  }

  // ---- the service, in place ----

  class Service {
    var acknowledgedByKey: map<string, Record>
    var erpIdByOrder: map<string, string>
    ghost var registered: seq<string>

    ghost function Contents(): Erp
      reads this
    {
      Erp(acknowledgedByKey, erpIdByOrder, registered)
    }

    constructor ()
      ensures Contents() == EMPTY_ERP
    {
      acknowledgedByKey, erpIdByOrder, registered := map[], map[], [];
    }

    method Register(q: Request) returns (record: Record)
      modifies this
      ensures record == RecordOf(q)
      ensures acknowledgedByKey == old(acknowledgedByKey)
      ensures erpIdByOrder == old(erpIdByOrder)[record.orderUid := record.erpOrderId]
      ensures registered == old(registered) + [record.orderUid]
    {
      record := RecordOf(q);
      erpIdByOrder := erpIdByOrder[record.orderUid := record.erpOrderId];
      registered := registered + [record.orderUid];
    }

    method ReceiveOrder(q: Request) returns (answer: Answer)
      modifies this
      ensures (Contents(), answer) == Receive(old(Contents()), q)
    {
      if q.key != "" && q.key in acknowledgedByKey {
        return Ack(acknowledgedByKey[q.key].erpOrderId, true);
      }
      if q.failure.Some? {
        return Unavailable(q.failure.value);
      }
      var record := Register(q);
      if q.key != "" {
        acknowledgedByKey := acknowledgedByKey[q.key := record];
      }
      answer := Ack(record.erpOrderId, false);
    }
  }
}
