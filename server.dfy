/** The request handlers as the server runs them: one shared object whose
    dictionary `db` the handlers read and update in place. */
module Server {
  import opened Transactions
  import Store

  class FakeDb {
    /** fake_db */
    var db: Store.Db

    /** fake_db = {} at start-up. */
    constructor ()
      ensures db == map[]
    {
      db := map[];
    }

    /** get_transaction: the stored record, or NotFound; the store is only read. */
    method Get(id: TxId) returns (r: Store.Result<Transaction>)
      ensures id !in db ==> r == Store.Err(Store.NotFound)
      ensures id in db ==> r == Store.Ok(db[id])
      ensures r == Store.Get(db, id)
    {
      if id !in db {
        return Store.Err(Store.NotFound);
      }
      return Store.Ok(db[id]);
    }

    /** simulate_payment: NotFound on an unknown id; otherwise "status" and
        then "paid_at" are assigned in the stored record and PAID is reported. */
    method Pay(id: TxId, now: Timestamp) returns (r: Store.Result<Status>)
      modifies this
      ensures id !in old(db) ==> r == Store.Err(Store.NotFound) && db == old(db)
      ensures id in old(db) ==> r == Store.Ok(Paid) && db == old(db)[id := MarkPaid(old(db)[id], now)]
      ensures Store.Outcome(db, r) == Store.Pay(old(db), id, now)
    {
      if id !in db {
        return Store.Err(Store.NotFound);
      }
      db := db[id := db[id].(status := Paid)];
      db := db[id := db[id].(paidAt := Some(now))];
      return Store.Ok(Paid);
    }

    /** update_shipping: NotFound on an unknown id; otherwise the stored record
        is merged with the shipment keys and SHIPPED is reported. */
    method Ship(id: TxId, info: ShippingUpdate) returns (r: Store.Result<Status>)
      modifies this
      ensures id !in old(db) ==> r == Store.Err(Store.NotFound) && db == old(db)
      ensures id in old(db) ==> r == Store.Ok(Shipped) && db == old(db)[id := AttachShipment(old(db)[id], info)]
      ensures Store.Outcome(db, r) == Store.Ship(old(db), id, info)
    {
      if id !in db {
        return Store.Err(Store.NotFound);
      }
      var record := db[id];
      var bank := Bank(info.bankName, info.accountName, info.accountNumber);
      record := record.(
        status := Shipped,
        courier := Some(info.courier),
        trackingNumber := Some(info.trackingNumber),
        sellerBank := Some(bank),
        autoReleaseAt := Some(AUTO_RELEASE_PLACEHOLDER));
      db := db[id := record];
      return Store.Ok(Shipped);
    }

    /** create_transaction as written: draws an id and a PIN, builds the
        record, and then ends without storing it, answering None. It has no
        modifies clause, so the store cannot change. */
    method Create(data: CreateRequest, idDraw: IdDraw, pinDraw: PinDraw, now: Timestamp)
      returns (r: Option<Store.Receipt>)
      ensures r == None
      ensures Store.Outcome(db, r) == Store.CreateAsWritten(db, data, idDraw, pinDraw, now)
    {
      var record := NewTransaction(data, idDraw, pinDraw, now);
      r := None;
    }

    /** create_transaction as intended, NOT what the code does: the record is
        stored under its id (overwriting a record with the same id) and the id
        and PIN are returned. */
    method CreateAndStore(data: CreateRequest, idDraw: IdDraw, pinDraw: PinDraw, now: Timestamp)
      returns (r: Store.Receipt)
      modifies this
      ensures r.txId == TxIdFor(idDraw) && r.pin == PinFor(pinDraw)
      ensures db == old(db)[r.txId := NewTransaction(data, idDraw, pinDraw, now)]
      ensures Store.Outcome(db, r) == Store.CreateIntended(old(db), data, idDraw, pinDraw, now)
    {
      var record := NewTransaction(data, idDraw, pinDraw, now);
      db := db[record.id := record];
      r := Store.Receipt(record.id, record.pin);
    }
  }

  /** A fresh server as written: after a create, the id it drew is unknown to
      lookup, payment and shipment alike. */
  method AsWrittenSession(data: CreateRequest, idDraw: IdDraw, pinDraw: PinDraw,
                          created: Timestamp, paid: Timestamp, info: ShippingUpdate)
    returns (found: Store.Result<Transaction>, payment: Store.Result<Status>, shipment: Store.Result<Status>)
    ensures found == Store.Err(Store.NotFound)
    ensures payment == Store.Err(Store.NotFound)
    ensures shipment == Store.Err(Store.NotFound)
  {
    var server := new FakeDb();
    var receipt := server.Create(data, idDraw, pinDraw, created);
    var id := TxIdFor(idDraw);
    found := server.Get(id);
    payment := server.Pay(id, paid);
    shipment := server.Ship(id, info);
  }

  /** A fresh server with the intended create: the transaction reads back as
      CREATED, then PAID, then SHIPPED with the courier that was sent. */
  method IntendedSession(data: CreateRequest, idDraw: IdDraw, pinDraw: PinDraw,
                         created: Timestamp, paid: Timestamp, info: ShippingUpdate)
    returns (afterCreate: Status, afterPay: Status, afterShip: Status, courier: Option<string>)
    ensures afterCreate == Created && afterPay == Paid && afterShip == Shipped
    ensures courier == Some(info.courier)
  {
    var server := new FakeDb();
    var receipt := server.CreateAndStore(data, idDraw, pinDraw, created);
    var r := server.Get(receipt.txId);
    afterCreate := r.value.status;
    var p := server.Pay(receipt.txId, paid);
    r := server.Get(receipt.txId);
    afterPay := r.value.status;
    var s := server.Ship(receipt.txId, info);
    r := server.Get(receipt.txId);
    afterShip := r.value.status;
    courier := r.value.courier;
  }
}
