/** What each handler of the transaction API does to the in-memory store
    `fake_db`, as functions from the old store to the new store and the
    response, and what follows for any sequence of requests. */
module Store {
  import opened Transactions

  /** fake_db: transaction id to record. */
  type Db = map<TxId, Transaction>

  /** The only failure of the API: the HTTP 404 "transaction not found". */
  datatype Error = NotFound

  datatype Result<T> = Ok(value: T) | Err(error: Error)

  /** What the intended create_transaction hands back: tx_id and pin. */
  datatype Receipt = Receipt(txId: TxId, pin: string)

  /** A handler's effect: the store afterwards and the response. */
  datatype Outcome<T> = Outcome(db: Db, response: T)

  /** The new store differs from the old one at most in the entry for id,
      which it holds. */
  predicate OnlyEntryChanged(db: Db, db': Db, id: TxId) {
    && db'.Keys == db.Keys + {id}
    && forall k :: k in db && k != id ==> k in db' && db'[k] == db[k]
  }

  /** get_transaction. */
  function Get(db: Db, id: TxId): (r: Result<Transaction>)
    ensures r.Ok? <==> id in db
    ensures r.Ok? ==> r.value == db[id]
    ensures r.Err? ==> r.error == NotFound
  {
    if id !in db then Err(NotFound) else Ok(db[id])
  }

  /** simulate_payment. */
  function Pay(db: Db, id: TxId, now: Timestamp): (o: Outcome<Result<Status>>)
    ensures id !in db ==> o == Outcome(db, Err(NotFound))
    ensures id in db ==>
      && o.response == Ok(Paid)
      && OnlyEntryChanged(db, o.db, id)
      && o.db.Keys == db.Keys
      && o.db[id] == MarkPaid(db[id], now)
  {
    if id !in db then Outcome(db, Err(NotFound))
    else Outcome(db[id := MarkPaid(db[id], now)], Ok(Paid))
  }

  /** update_shipping. */
  function Ship(db: Db, id: TxId, info: ShippingUpdate): (o: Outcome<Result<Status>>)
    ensures id !in db ==> o == Outcome(db, Err(NotFound))
    ensures id in db ==>
      && o.response == Ok(Shipped)
      && OnlyEntryChanged(db, o.db, id)
      && o.db.Keys == db.Keys
      && o.db[id] == AttachShipment(db[id], info)
  {
    if id !in db then Outcome(db, Err(NotFound))
    else Outcome(db[id := AttachShipment(db[id], info)], Ok(Shipped))
  }

  /** create_transaction as the code stands: the record is built and dropped,
      the store is left as it was and the handler returns None. */
  function CreateAsWritten(db: Db, data: CreateRequest, idDraw: IdDraw, pinDraw: PinDraw, now: Timestamp)
    : (o: Outcome<Option<Receipt>>)
    ensures o.db == db && o.response == None
  {
    var record := NewTransaction(data, idDraw, pinDraw, now);
    Outcome(db, None)
  }

  /** create_transaction as intended (NOT what the code does): the new record
      is stored under its id, replacing any record that already has that id,
      and the id and PIN are returned. */
  function CreateIntended(db: Db, data: CreateRequest, idDraw: IdDraw, pinDraw: PinDraw, now: Timestamp)
    : (o: Outcome<Receipt>)
    ensures var t := NewTransaction(data, idDraw, pinDraw, now);
      && o.response == Receipt(t.id, t.pin)
      && OnlyEntryChanged(db, o.db, t.id)
      && o.db[t.id] == t
  {
    var record := NewTransaction(data, idDraw, pinDraw, now);
    Outcome(db[record.id := record], Receipt(record.id, record.pin))
  }

  /** The four endpoints that touch the store, with their inputs; the clock
      and the random draws are part of the request. */
  datatype Request =
    | GetTx(id: TxId)
    | PayTx(id: TxId, now: Timestamp)
    | ShipTx(id: TxId, info: ShippingUpdate)
    | CreateTx(data: CreateRequest, idDraw: IdDraw, pinDraw: PinDraw, now: Timestamp)

  datatype Response =
    | Record(record: Transaction)
    | StatusReport(status: string)
    | Failure(error: Error)
    | NullBody
    | Issued(receipt: Receipt)

  /** Which create_transaction runs: the code as written, or the intended one. */
  datatype Build = AsWritten | Intended

  /** The "status" string of a payment or shipment response, or its failure. */
  function Report(r: Result<Status>): Response {
    match r
    case Ok(s) => StatusReport(s.Name())
    case Err(e) => Failure(e)
  }

  /** The id a request writes under, if it can add an entry or replace a
      record wholesale: only the intended create does. */
  predicate Replaces(build: Build, req: Request, id: TxId) {
    build == Intended && req.CreateTx? && TxIdFor(req.idDraw) == id
  }

  /** One request against the store. No handler removes an entry; only the
      intended create adds one; payment and shipment never touch the fields
      written at creation. */
  function Handle(build: Build, db: Db, req: Request): (o: Outcome<Response>)
    ensures db.Keys <= o.db.Keys
    ensures build == AsWritten ==> o.db.Keys == db.Keys
    ensures forall k :: k in db && !Replaces(build, req, k) ==> SameOrigin(db[k], o.db[k])
  {
    match req
    case GetTx(id) =>
      Outcome(db, match Get(db, id) case Ok(t) => Record(t) case Err(e) => Failure(e))
    case PayTx(id, now) =>
      var o := Pay(db, id, now);
      Outcome(o.db, Report(o.response))
    case ShipTx(id, info) =>
      var o := Ship(db, id, info);
      Outcome(o.db, Report(o.response))
    case CreateTx(data, idDraw, pinDraw, now) =>
      if build == AsWritten then
        var o := CreateAsWritten(db, data, idDraw, pinDraw, now);
        Outcome(o.db, NullBody)
      else
        var o := CreateIntended(db, data, idDraw, pinDraw, now);
        Outcome(o.db, Issued(o.response))
  }

  /** The requests served one after another against the shared store. */
  function Run(build: Build, db: Db, reqs: seq<Request>): (o: Outcome<seq<Response>>)
    ensures |o.response| == |reqs|
    decreases reqs
  {
    if reqs == [] then Outcome(db, [])
    else
      var first := Handle(build, db, reqs[0]);
      var rest := Run(build, first.db, reqs[1..]);
      Outcome(rest.db, [first.response] + rest.response)
  }

  /** The i-th response is what the i-th request gets from the store that
      the requests before it left behind. */
  lemma {:induction false} RunAt(build: Build, db: Db, reqs: seq<Request>, i: nat)
    requires i < |reqs|
    ensures Run(build, db, reqs).response[i] == Handle(build, Run(build, db, reqs[..i]).db, reqs[i]).response
    decreases reqs
  {
    if i == 0 {
      assert reqs[..0] == [];
    } else {
      var next := Handle(build, db, reqs[0]).db;
      RunAt(build, next, reqs[1..], i - 1);
      assert reqs[..i][0] == reqs[0];
      assert reqs[..i][1..] == reqs[1..][..i - 1];
    }
  }

  /** No request removes an entry; as written, none adds one either. */
  lemma {:induction false} RunKeys(build: Build, db: Db, reqs: seq<Request>)
    ensures db.Keys <= Run(build, db, reqs).db.Keys
    ensures build == AsWritten ==> Run(build, db, reqs).db.Keys == db.Keys
    decreases reqs
  {
    if reqs != [] {
      RunKeys(build, Handle(build, db, reqs[0]).db, reqs[1..]);
    }
  }

  /** As written, id, pin, product, amount, seller_phone and created_at of
      every stored record survive any sequence of requests. */
  lemma {:induction false} RunKeepsOrigin(db: Db, reqs: seq<Request>)
    ensures forall k :: k in db ==> k in Run(AsWritten, db, reqs).db
    ensures forall k :: k in db ==> SameOrigin(db[k], Run(AsWritten, db, reqs).db[k])
  {
    RunKeys(AsWritten, db, reqs);
    if reqs != [] {
      var next := Handle(AsWritten, db, reqs[0]).db;
      RunKeepsOrigin(next, reqs[1..]);
    }
  }

  /** The status a record has after one request, when the request does not
      replace it: a payment addressed to it makes it PAID, a shipment
      SHIPPED, whatever it was before; anything else leaves it. */
  function StepStatus(id: TxId, req: Request, before: Status): Status {
    match req
    case PayTx(i, _) => if i == id then Paid else before
    case ShipTx(i, _) => if i == id then Shipped else before
    case _ => before
  }

  /** The status a record ends with when nothing replaces it: that of the
      last payment or shipment addressed to it, in request order; a record
      no such request names keeps its status. */
  function FinalStatus(id: TxId, reqs: seq<Request>, initial: Status): Status {
    if reqs == [] then initial
    else FinalStatus(id, reqs[1..], StepStatus(id, reqs[0], initial))
  }

  lemma HandleStatus(build: Build, db: Db, req: Request, id: TxId)
    requires id in db && !Replaces(build, req, id)
    ensures id in Handle(build, db, req).db
    ensures Handle(build, db, req).db[id].status == StepStatus(id, req, db[id].status)
  {
  }

  /** No order is enforced between payment and shipment: for a stored record
      that no request replaces, the status after any sequence of requests is
      the one FinalStatus reads off the requests, so it can move from SHIPPED
      back to PAID, and shipping an unpaid record succeeds. */
  lemma {:induction false} RunStatus(build: Build, db: Db, reqs: seq<Request>, id: TxId)
    requires id in db
    requires forall i :: 0 <= i < |reqs| ==> !Replaces(build, reqs[i], id)
    ensures id in Run(build, db, reqs).db
    ensures Run(build, db, reqs).db[id].status == FinalStatus(id, reqs, db[id].status)
    decreases reqs
  {
    if reqs != [] {
      assert !Replaces(build, reqs[0], id);
      HandleStatus(build, db, reqs[0], id);
      var next := Handle(build, db, reqs[0]).db;
      assert forall i :: 0 <= i < |reqs[1..]| ==> reqs[1..][i] == reqs[i + 1];
      RunStatus(build, next, reqs[1..], id);
    }
  }

  /** As written, the store starts empty and stays empty, so every lookup,
      payment and shipment answers NotFound and every create answers None. */
  lemma {:induction false} AsWrittenNeverFinds(reqs: seq<Request>)
    ensures Run(AsWritten, map[], reqs).db == map[]
    ensures forall i :: 0 <= i < |reqs| ==>
      Run(AsWritten, map[], reqs).response[i] == (if reqs[i].CreateTx? then NullBody else Failure(NotFound))
  {
    if reqs != [] {
      AsWrittenNeverFinds(reqs[1..]);
      var rest := Run(AsWritten, map[], reqs[1..]);
      forall i | 0 <= i < |reqs|
        ensures Run(AsWritten, map[], reqs).response[i] == (if reqs[i].CreateTx? then NullBody else Failure(NotFound))
      {
        if i > 0 {
          assert Run(AsWritten, map[], reqs).response[i] == rest.response[i - 1];
        }
      }
    }
  }

  /** Paying twice succeeds both times; the status stays PAID and paid_at
      holds the later stamp, exactly as a single later payment leaves it. */
  lemma PayTwice(db: Db, id: TxId, first: Timestamp, second: Timestamp)
    requires id in db
    ensures Pay(db, id, first).response == Ok(Paid)
    ensures Pay(Pay(db, id, first).db, id, second).response == Ok(Paid)
    ensures Pay(Pay(db, id, first).db, id, second).db == Pay(db, id, second).db
    ensures Pay(Pay(db, id, first).db, id, second).db[id].paidAt == Some(second)
  {
    var once := Pay(db, id, first).db;
    assert once[id := MarkPaid(once[id], second)] == db[id := MarkPaid(db[id], second)];
  }

  /** The intended create is never checked for collisions: an id already in
      use has its record, whatever its status, replaced by a fresh CREATED one. */
  lemma CreateCollision(db: Db, data: CreateRequest, idDraw: IdDraw, pinDraw: PinDraw, now: Timestamp)
    requires TxIdFor(idDraw) in db
    ensures CreateIntended(db, data, idDraw, pinDraw, now).db.Keys == db.Keys
    ensures CreateIntended(db, data, idDraw, pinDraw, now).db[TxIdFor(idDraw)].status == Created
    ensures CreateIntended(db, data, idDraw, pinDraw, now).db[TxIdFor(idDraw)] == NewTransaction(data, idDraw, pinDraw, now)
  {
  }

  /** The intended life of one transaction: create, read, pay, read, ship,
      read, each request served on the store the previous one left; each
      read sees the status the previous step set, and the last one sees the
      courier. */
  lemma IntendedLifecycle(db: Db, data: CreateRequest, idDraw: IdDraw, pinDraw: PinDraw,
                          created: Timestamp, paid: Timestamp, info: ShippingUpdate)
    ensures
      var id := TxIdFor(idDraw);
      var o0 := Handle(Intended, db, CreateTx(data, idDraw, pinDraw, created));
      var o1 := Handle(Intended, o0.db, GetTx(id));
      var o2 := Handle(Intended, o1.db, PayTx(id, paid));
      var o3 := Handle(Intended, o2.db, GetTx(id));
      var o4 := Handle(Intended, o3.db, ShipTx(id, info));
      var o5 := Handle(Intended, o4.db, GetTx(id));
      && o0.response == Issued(Receipt(id, PinFor(pinDraw)))
      && o1.response.Record? && o1.response.record.status == Created
      && o2.response == StatusReport("PAID")
      && o3.response.Record? && o3.response.record.status == Paid
      && o3.response.record.paidAt == Some(paid)
      && o4.response == StatusReport("SHIPPED")
      && o5.response.Record? && o5.response.record.status == Shipped
      && o5.response.record.courier == Some(info.courier)
  {
  }
}
