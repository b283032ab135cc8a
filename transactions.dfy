/** The transaction record of the escrow demo and the three ways a handler builds
    or rewrites one: creation, payment and shipment. */
module Transactions {
  import opened Decimal

  datatype Option<T> = None | Some(value: T)

  /** Transaction identifiers are arbitrary path strings; the ones the server
      generates have the form "TX-" followed by four digits. */
  type TxId = string

  /** The text of datetime.now().isoformat(), supplied by the caller. */
  type Timestamp = string

  /** random.randint(1000, 9999): both ends included. */
  type IdDraw = n: int | 1000 <= n <= 9999 witness 1000

  /** random.randint(100000, 999999): both ends included. */
  type PinDraw = n: int | 100000 <= n <= 999999 witness 100000

  /** product_name carries Field(min_length=3). */
  type ProductName = s: string | |s| >= 3 witness "abc"

  /** price is a float with Field(gt=0); it is only ever copied. */
  type Price = x: real | x > 0.0 witness 1.0

  datatype Status = Created | Paid | Shipped {
    /** The string stored under "status" and sent back to the client. */
    function Name(): string {
      match this
      case Created => "CREATED"
      case Paid => "PAID"
      case Shipped => "SHIPPED"
    }
  }

  /** The body of POST /api/transactions. */
  datatype CreateRequest = CreateRequest(
    productName: ProductName,
    price: Price,
    phoneNumber: string,
    description: Option<string>)

  /** The body of POST /api/transactions/{tx_id}/shipment. */
  datatype ShippingUpdate = ShippingUpdate(
    courier: string,
    trackingNumber: string,
    bankName: string,
    accountName: string,
    accountNumber: string)

  /** The nested "seller_bank" object. */
  datatype Bank = Bank(name: string, accName: string, accNum: string)

  /** One entry of the store. The keys that creation writes are plain fields;
      the keys that later handlers add to the dictionary are options, None
      while the key is absent. */
  datatype Transaction = Transaction(
    id: TxId,
    pin: string,
    product: string,
    amount: real,
    sellerPhone: string,
    status: Status,
    createdAt: Timestamp,
    paidAt: Option<Timestamp>,
    courier: Option<string>,
    trackingNumber: Option<string>,
    sellerBank: Option<Bank>,
    autoReleaseAt: Option<string>)

  /** The fixed text written under "auto_release_at"; nothing is ever scheduled. */
  const AUTO_RELEASE_PLACEHOLDER := "48 hours from now"

  /** The fields written at creation and never touched by payment or shipment. */
  predicate SameOrigin(t: Transaction, u: Transaction) {
    && u.id == t.id
    && u.pin == t.pin
    && u.product == t.product
    && u.amount == t.amount
    && u.sellerPhone == t.sellerPhone
    && u.createdAt == t.createdAt
  }

  /** The fields that only shipment writes. */
  predicate SameShipping(t: Transaction, u: Transaction) {
    && u.courier == t.courier
    && u.trackingNumber == t.trackingNumber
    && u.sellerBank == t.sellerBank
    && u.autoReleaseAt == t.autoReleaseAt
  }

  /** f"TX-{n}" for the drawn n: "TX-" and four digits that read back as n. */
  function TxIdFor(n: IdDraw): (id: TxId)
    ensures |id| == 7 && id[..3] == "TX-"
    ensures AllDigits(id[3..]) && Value(id[3..]) == n
  {
    assert Pow10(3) == 1000 && Pow10(4) == 10000;
    ShowLength(n, 4);
    ValueOfShow(n);
    var id := "TX-" + Show(n);
    assert id[3..] == Show(n);
    id
  }

  /** f"{n}" for the drawn PIN: always six digits, reading back as n. */
  function PinFor(n: PinDraw): (pin: string)
    ensures |pin| == 6 && AllDigits(pin) && Value(pin) == n
  {
    assert Pow10(5) == 100000 && Pow10(6) == 1000000;
    ShowLength(n, 6);
    ValueOfShow(n);
    Show(n)
  }

  /** Two draws give the same identifier exactly when they are equal, so the
      generator can collide only by drawing the same number twice. */
  lemma TxIdCollision(a: IdDraw, b: IdDraw)
    ensures TxIdFor(a) == TxIdFor(b) <==> a == b
  {
    if TxIdFor(a) == TxIdFor(b) {
      assert TxIdFor(a)[3..] == TxIdFor(b)[3..];
    }
  }

  /** The record create_transaction builds: generated id and PIN, the request's
      fields copied, status CREATED, the creation time, and none of the keys
      that payment and shipment add. The description is not kept. */
  function NewTransaction(data: CreateRequest, idDraw: IdDraw, pinDraw: PinDraw, now: Timestamp): (t: Transaction)
    ensures t.id == TxIdFor(idDraw) && t.pin == PinFor(pinDraw)
    ensures |t.pin| == 6 && AllDigits(t.pin)
    ensures t.product == data.productName && |t.product| >= 3
    ensures t.amount == data.price && t.amount > 0.0
    ensures t.sellerPhone == data.phoneNumber
    ensures t.status == Created && t.createdAt == now
    ensures t.paidAt == None
    ensures t.courier == None && t.trackingNumber == None
    ensures t.sellerBank == None && t.autoReleaseAt == None
  {
    Transaction(TxIdFor(idDraw), PinFor(pinDraw), data.productName, data.price as real,
      data.phoneNumber, Created, now, None, None, None, None, None)
  }

  /** The record after simulate_payment: status PAID, paid_at stamped (a
      stamp from an earlier payment is overwritten), every other key kept. */
  function MarkPaid(t: Transaction, now: Timestamp): (u: Transaction)
    ensures u.status == Paid && u.paidAt == Some(now)
    ensures SameOrigin(t, u) && SameShipping(t, u)
  {
    t.(status := Paid, paidAt := Some(now))
  }

  /** The record after update_shipping's dict update: status SHIPPED, the
      courier, tracking number and bank details verbatim, the placeholder
      release text, and every key the update does not name kept. */
  function AttachShipment(t: Transaction, info: ShippingUpdate): (u: Transaction)
    ensures u.status == Shipped
    ensures u.courier == Some(info.courier)
    ensures u.trackingNumber == Some(info.trackingNumber)
    ensures u.sellerBank == Some(Bank(info.bankName, info.accountName, info.accountNumber))
    ensures u.autoReleaseAt == Some(AUTO_RELEASE_PLACEHOLDER)
    ensures SameOrigin(t, u) && u.paidAt == t.paidAt
  {
    t.(status := Shipped,
       courier := Some(info.courier),
       trackingNumber := Some(info.trackingNumber),
       sellerBank := Some(Bank(info.bankName, info.accountName, info.accountNumber)),
       autoReleaseAt := Some(AUTO_RELEASE_PLACEHOLDER))
  }
}
