/** The retailer's dashboard (`src/pages/retailer/Dashboard.tsx`): the crops
    on the market with the search box, the quantities used to price an
    order, the completed and pending-payment tables, and the Pay Now path
    from a button to the payment server's endpoints.

    Money is integer; the dollar formatting of totals is not modelled. */
module RetailerDashboard {
  import opened Basics
  import opened Store
  import opened ChatView

  // ---------------------------------------------------------------------
  // Crops on the market

  predicate IsAvailable(c: Crop) {
    c.status == Available
  }

  /** Only crops still available are listed. */
  function AvailableCrops(crops: seq<Crop>): (r: seq<Crop>)
    ensures forall c :: c in r <==> c in crops && c.status == Available
  {
    FilterMembers(crops, IsAvailable);
    Filter(crops, IsAvailable)
  }

  /** The search box matches a crop when the lower-cased term occurs in its
      lower-cased name, description or location. */
  predicate MatchesSearch(c: Crop, term: string) {
    Contains(Lower(c.name), Lower(term))
    || Contains(Lower(c.description), Lower(term))
    || Contains(Lower(c.location), Lower(term))
  }

  function Matching(term: string): Crop -> bool {
    (c: Crop) => MatchesSearch(c, term)
  }

  /** `filteredCrops`: the available crops when the search box is empty,
      otherwise those among them that match the term. */
  function FilteredCrops(crops: seq<Crop>, term: string): (r: seq<Crop>)
    ensures term == "" ==> r == AvailableCrops(crops)
    ensures forall c :: c in r <==> c in crops && c.status == Available && (term == "" || MatchesSearch(c, term))
  {
    if term == "" then AvailableCrops(crops)
    else
      FilterMembers(AvailableCrops(crops), Matching(term));
      Filter(AvailableCrops(crops), Matching(term))
  }

  /** The search keeps the order of the crop list: searching a concatenation
      is concatenating the searches of its parts. */
  lemma {:induction false} FilteredCropsKeepOrder(a: seq<Crop>, b: seq<Crop>, term: string)
    ensures FilteredCrops(a + b, term) == FilteredCrops(a, term) + FilteredCrops(b, term)
  {
    FilterAppend(a, b, IsAvailable);
    if term != "" {
      FilterAppend(AvailableCrops(a), AvailableCrops(b), Matching(term));
    }
  }

  /** Spelling a crop's name in any case finds it: the search ignores the
      case of ASCII letters on both sides. */
  lemma {:induction false} SearchByNameFinds(crops: seq<Crop>, c: Crop, term: string)
    requires c in crops && c.status == Available
    requires Lower(term) == Lower(c.name)
    ensures c in FilteredCrops(crops, term)
  {
    assert OccursAt(Lower(term), Lower(c.name), 0);
  }

  // ---------------------------------------------------------------------
  // Quantities used to price an order

  /** The ids of the crops the retailer's transactions are about; the empty
      id is skipped. */
  function CropIdsOf(txs: seq<Transaction>): set<Id> {
    set t | t in txs && t.cropId != NoId :: t.cropId
  }

  /** What the crop lookup stores for one crop id: the crop's quantity, or 1
      when the crop is missing or its quantity is 0 (`data.quantity || 1`). A
      failed lookup is treated like a missing crop, as the source's `catch`
      does. */
  function LookedUpQuantity(crops: map<Id, Crop>, id: Id): (q: int)
    ensures q != 0
    ensures id !in crops ==> q == 1
  {
    if id in crops && crops[id].quantity != 0 then crops[id].quantity else 1
  }

  /** `cropQuantities`: one entry per crop of the retailer's transactions. */
  function Quantities(txs: seq<Transaction>, crops: map<Id, Crop>): (m: map<Id, int>)
    ensures m.Keys == CropIdsOf(txs)
    ensures forall id :: id in m ==> m[id] != 0
  {
    map id | id in CropIdsOf(txs) :: LookedUpQuantity(crops, id)
  }

  /** `cropQuantities[cropId] || 1`. */
  function OrderQuantity(q: map<Id, int>, cropId: Id): (n: int)
    ensures n != 0
    ensures cropId !in q ==> n == 1
  {
    if cropId in q && q[cropId] != 0 then q[cropId] else 1
  }

  /** The amount an order is created for: the unit price times the
      quantity. */
  function OrderTotal(price: int, q: map<Id, int>, cropId: Id): (total: int)
    ensures cropId !in q ==> total == price
  {
    price * OrderQuantity(q, cropId)
  }

  /** The order amount is the unit price times the crop's quantity when the
      crop is among the retailer's transactions and its quantity is known and
      non-zero, and the unit price alone otherwise. */
  lemma {:induction false} OrderTotalFallback(txs: seq<Transaction>, crops: map<Id, Crop>, price: int, cropId: Id)
    ensures var total := OrderTotal(price, Quantities(txs, crops), cropId);
            if cropId in CropIdsOf(txs) && cropId in crops && crops[cropId].quantity != 0
            then total == price * crops[cropId].quantity
            else total == price
  {
    var q := Quantities(txs, crops);
    if cropId in CropIdsOf(txs) {
      assert q[cropId] == LookedUpQuantity(crops, cropId);
    }
  }

  // ---------------------------------------------------------------------
  // The transaction tables

  /** The retailer's transactions; without a user nothing is fetched. */
  function RetailerTransactions(user: Option<User>, all: seq<Transaction>): (r: seq<Transaction>)
    ensures user.None? ==> r == []
    ensures user.Some? ==> forall t :: t in r <==> t in all && t.retailerId == user.value.id
  {
    if user.None? then []
    else
      FilterMembers(all, (t: Transaction) => t.retailerId == user.value.id);
      Filter(all, (t: Transaction) => t.retailerId == user.value.id)
  }

  function HasTxStatus(s: TxStatus): Transaction -> bool {
    (t: Transaction) => t.status == s
  }

  /** The rows of the "Completed Transactions" table. */
  function CompletedRows(txs: seq<Transaction>): (r: seq<Transaction>)
    ensures forall t :: t in r <==> t in txs && t.status == TxStatus.Completed
  {
    FilterMembers(txs, HasTxStatus(TxStatus.Completed));
    Filter(txs, HasTxStatus(TxStatus.Completed))
  }

  /** The rows of the "Pending Payments" table. */
  function PendingRows(txs: seq<Transaction>): (r: seq<Transaction>)
    ensures forall t :: t in r <==> t in txs && t.status == PendingPayment
  {
    FilterMembers(txs, HasTxStatus(PendingPayment));
    Filter(txs, HasTxStatus(PendingPayment))
  }

  /** No transaction sits in both tables, and the two tables together hold
      every transaction except the failed ones. */
  lemma {:induction false} TablesPartition(txs: seq<Transaction>)
    ensures forall t :: t in CompletedRows(txs) ==> t !in PendingRows(txs)
    ensures |CompletedRows(txs)| + |PendingRows(txs)| + Count(txs, HasTxStatus(Failed)) == |txs|
  {
    if txs != [] {
      TablesPartition(txs[1..]);
    }
  }

  /** The total shown on a pending row: the amount times the quantity. */
  function PendingTotal(t: Transaction, q: map<Id, int>): (total: int)
    ensures t.cropId !in q ==> total == t.amount
  {
    t.amount * OrderQuantity(q, t.cropId)
  }

  /** A displayed number: `NaN` is what JavaScript yields for arithmetic on a
      field the record does not have. */
  datatype Shown = NaN | Money(value: int)

  /** `a * b` where `a` may be a missing field. */
  function Times(a: Option<int>, b: int): (r: Shown)
    ensures r == NaN <==> a.None?
  {
    if a.None? then NaN else Money(a.value * b)
  }

  /** The `price` field of a stored transaction: the store writes `amount`
      and never `price`, so the field is always missing. */
  function PriceField(t: Transaction): Option<int> {
    None
  }

  /** The total of a completed row as the table computes it, from the
      transaction's `price`. */
  function CompletedTotalAsWritten(t: Transaction, q: map<Id, int>): (r: Shown)
    ensures r == NaN
  {
    Times(PriceField(t), OrderQuantity(q, t.cropId))
  }

  /** Every completed row shows `NaN` where the corrected total shows the
      amount paid. */
  lemma {:induction false} CompletedTotalIsNaN(txs: seq<Transaction>, q: map<Id, int>)
    ensures forall t :: t in CompletedRows(txs) ==> CompletedTotalAsWritten(t, q) != CompletedTotal(t, q)
  {
  }

  /** The completed row's total computed from the field the store does
      write, as the pending table does. */
  function CompletedTotal(t: Transaction, q: map<Id, int>): (r: Shown)
    ensures r.Money?
    ensures t.cropId !in q ==> r == Money(t.amount)
  {
    Times(Some(t.amount), OrderQuantity(q, t.cropId))
  }

  /** With the corrected formula a transaction shows the same total once it
      is completed as it did while pending, and that is the amount the
      order was created for. */
  lemma {:induction false} CompletedTotalAsPending(t: Transaction, q: map<Id, int>)
    ensures CompletedTotal(t, q) == Money(PendingTotal(t, q))
    ensures PendingTotal(t, q) == OrderTotal(t.amount, q, t.cropId)
  {
  }

  // ---------------------------------------------------------------------
  // Pay Now

  /** The offer behind a crop card's Pay Now button: the first accepted
      offer of this retailer for the crop; without one the card shows
      "View Details". */
  function PayNowCard(userOffers: seq<Offer>, crop: Crop, user: User): (r: Option<Offer>)
    ensures r.Some? <==> exists o :: o in userOffers && IsOfferFor(o, crop.id, user.id, Accepted)
    ensures r.Some? ==> r.value in userOffers && IsOfferFor(r.value, crop.id, user.id, Accepted)
  {
    FindOffer(userOffers, crop.id, user.id, Accepted)
  }

  /** What `handlePayNow` is called with: an offer id, a unit price and a
      crop id. */
  datatype PayRequest = PayRequest(offerId: Id, price: int, cropId: Id)

  /** The request of a crop card's button. */
  function CardRequest(o: Offer): PayRequest {
    PayRequest(o.id, o.price, o.cropId)
  }

  /** The request of a pending row's button: the transaction's offer,
      priced at the transaction's amount. */
  function RowRequest(t: Transaction): PayRequest {
    PayRequest(t.offerId, t.amount, t.cropId)
  }

  /** The body of the `create-order` call. */
  datatype CreateOrder = CreateOrder(amount: int, receipt: Id)

  function OrderFor(r: PayRequest, q: map<Id, int>): (o: CreateOrder)
    ensures o.receipt == r.offerId
    ensures r.cropId !in q ==> o.amount == r.price
  {
    CreateOrder(OrderTotal(r.price, q, r.cropId), r.offerId)
  }

  /** Paying from a pending row charges the total the row shows, and for a
      transaction written when its offer was accepted this is the order a
      card's button creates for that offer. */
  lemma {:induction false} RowChargesShownTotal(t: Transaction, q: map<Id, int>)
    ensures OrderFor(RowRequest(t), q).amount == PendingTotal(t, q)
  {
  }

  lemma {:induction false} RowAndCardAgree(id: Id, now: Timestamp, o: Offer, farmerId: Id, q: map<Id, int>)
    ensures OrderFor(RowRequest(NewTransaction(id, now, o, farmerId)), q) == OrderFor(CardRequest(o), q)
  {
  }

  /** The calls the payment callback makes: for the first pending-payment
      transaction of the offer, `mark-transaction-completed` with the
      transaction's id and then `mark-crop-sold` with its crop; none when
      there is no such transaction. A request that throws stops the
      sequence (the callback's `catch`); the responses' status codes are not
      looked at. */
  function PaymentCalls(offerId: Id, txs: seq<Transaction>, firstThrows: bool): (calls: seq<Endpoint>)
    ensures calls == [] <==> forall t :: t in txs ==> !(t.offerId == offerId && t.status == PendingPayment)
    ensures calls != [] ==> exists t :: t in txs && t.offerId == offerId && t.status == PendingPayment
                                         && calls[0] == MarkTransactionCompleted(t.id)
                                         && (firstThrows || calls == [MarkTransactionCompleted(t.id), MarkCropSold(t.cropId)])
    ensures |calls| <= 2 && (firstThrows ==> |calls| <= 1)
  {
    match Find(txs, (t: Transaction) => t.offerId == offerId && t.status == PendingPayment)
    case None => []
    case Some(t) =>
      if firstThrows then [MarkTransactionCompleted(t.id)]
      else [MarkTransactionCompleted(t.id), MarkCropSold(t.cropId)]
  }

  /** The dashboard marks the transaction by its own id, while the chat
      screen's callback passes the offer id in that place: for a transaction
      written when its offer was accepted, the two name different documents
      whenever the ids differ. */
  lemma {:induction false} DashboardAndChatMarkDifferently(id: Id, now: Timestamp, o: Offer, farmerId: Id)
    requires id != o.id
    ensures var t := NewTransaction(id, now, o, farmerId);
            PaymentCalls(o.id, [t], false)[0] == MarkTransactionCompleted(id)
            && MarkTransactionCompleted(id) != MarkTransactionCompleted(o.id)
  {
    var t := NewTransaction(id, now, o, farmerId);
    assert Find([t], (x: Transaction) => x.offerId == o.id && x.status == PendingPayment) == Some(t);
  }
}
