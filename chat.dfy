/** The chat screen of one conversation (`src/components/Chat.tsx`): the
    delivery and read receipts it stamps on the messages it shows, the
    last-read mark it records, the tick it draws beside the viewer's own
    messages, the price-negotiation form, the Pay Now button and the steps
    taken once a payment has gone through.

    The messages of the chat are the documents the live query returns, in
    ascending `created_at` order; the receipt routines update those documents
    in place, so they are an array here. */
module ChatView {
  import opened Basics
  import opened Store
  import opened Delivery

  // ---------------------------------------------------------------------
  // Receipts

  datatype Receipt = DeliveryReceipt | ReadReceipt

  function Receipts(m: Message, k: Receipt): seq<Id> {
    if k == DeliveryReceipt then m.deliveredTo else m.readBy
  }

  predicate Distinct(s: seq<Id>) {
    forall i, j :: 0 <= i < j < |s| ==> s[i] != s[j]
  }

  /** The document-store `arrayUnion(u)` on one receipt list: `u` is appended
      unless it is there already. */
  function AddOnce(s: seq<Id>, u: Id): (r: seq<Id>)
    ensures u in r
    ensures forall x :: x in r <==> x in s || x == u
    ensures |s| <= |r| <= |s| + 1 && r[..|s|] == s
    ensures Distinct(s) ==> Distinct(r)
  {
    if u in s then s else s + [u]
  }

  /** The receipt viewer `u` leaves on message `m`: on someone else's message
      `u` joins the receipt list of kind `k`; the viewer's own messages, the
      other list and every other field stay as they were. */
  function Stamp(m: Message, k: Receipt, u: Id): (r: Message)
    ensures m.senderId == u ==> r == m
    ensures m.senderId != u ==> u in Receipts(r, k)
    ensures r.(deliveredTo := m.deliveredTo, readBy := m.readBy) == m
    ensures k == DeliveryReceipt ==> r.readBy == m.readBy
    ensures k == ReadReceipt ==> r.deliveredTo == m.deliveredTo
  {
    if m.senderId == u then m
    else if k == DeliveryReceipt then m.(deliveredTo := AddOnce(m.deliveredTo, u))
    else m.(readBy := AddOnce(m.readBy, u))
  }

  /** Stamping adds the viewer to the list and nobody else, and keeps a
      list without repeats free of them. */
  lemma StampReceipts(m: Message, k: Receipt, u: Id)
    ensures forall x :: x in Receipts(Stamp(m, k, u), k) <==> x in Receipts(m, k) || (x == u && m.senderId != u)
    ensures Distinct(Receipts(m, k)) ==> Distinct(Receipts(Stamp(m, k, u), k))
  {
  }

  /** A viewer already on the list, or the sender, leaves no new receipt. */
  lemma StampNoop(m: Message, k: Receipt, u: Id)
    requires m.senderId == u || u in Receipts(m, k)
    ensures Stamp(m, k, u) == m
  {
  }

  /** Stamping twice is stamping once: processing the same snapshot again
      adds nothing. */
  lemma {:induction false} StampIdempotent(m: Message, k: Receipt, u: Id)
    ensures Stamp(Stamp(m, k, u), k, u) == Stamp(m, k, u)
  {
    if m.senderId != u {
      var once := Stamp(m, k, u);
      assert u in Receipts(once, k);
      assert once.senderId == m.senderId;
    }
  }

  /** The two kinds of receipt do not interfere: stamping them in either
      order gives the same message. */
  lemma {:induction false} StampsCommute(m: Message, u: Id)
    ensures Stamp(Stamp(m, DeliveryReceipt, u), ReadReceipt, u) == Stamp(Stamp(m, ReadReceipt, u), DeliveryReceipt, u)
  {
    if m.senderId != u {
      var dr := Stamp(Stamp(m, DeliveryReceipt, u), ReadReceipt, u);
      var rd := Stamp(Stamp(m, ReadReceipt, u), DeliveryReceipt, u);
      assert dr.deliveredTo == AddOnce(m.deliveredTo, u) == rd.deliveredTo;
      assert dr.readBy == AddOnce(m.readBy, u) == rd.readBy;
    }
  }

  /** The receipt loop: each message from someone else that does not yet
      carry the viewer's receipt of kind `k` gets it. */
  method StampAll(msgs: array<Message>, k: Receipt, u: Id)
    modifies msgs
    ensures forall i :: 0 <= i < msgs.Length ==> msgs[i] == Stamp(old(msgs[i]), k, u)
  {
    ghost var before := msgs[..];
    for i := 0 to msgs.Length
      invariant forall j :: 0 <= j < i ==> msgs[j] == Stamp(before[j], k, u)
      invariant forall j :: i <= j < msgs.Length ==> msgs[j] == before[j]
    {
      var m := msgs[i];
      if m.senderId != u && u !in Receipts(m, k) {
        msgs[i] := Stamp(m, k, u);
      } else {
        StampNoop(m, k, u);
      }
    }
  }

  method OnSnapshot(msgs: array<Message>, user: Option<User>)
    modifies msgs
    ensures user.None? ==> msgs[..] == old(msgs[..])
    ensures user.Some? ==> forall i :: 0 <= i < msgs.Length ==> msgs[i] == Stamp(old(msgs[i]), DeliveryReceipt, user.value.id)
  {
    if user.Some? {
      StampAll(msgs, DeliveryReceipt, user.value.id);
    }
  }

  /** The `chat_reads` document of one viewer of one chat. */
  datatype ChatRead = ChatRead(chatId: Id, userId: Id, lastReadAt: Timestamp)

  /** The messages are on screen: with a signed-in viewer and at least one
      message, the last-read mark is recorded (when there is a message from
      the other party) and every message from someone else is marked read. */
  method OnMessagesShown(chatId: Id, msgs: array<Message>, user: Option<User>) returns (read: Option<ChatRead>)
    modifies msgs
    ensures msgs.Length == 0 || user.None? ==> read.None? && msgs[..] == old(msgs[..])
    ensures msgs.Length > 0 && user.Some? ==>
              (read.Some? <==> LastReadAt(old(msgs[..]), user.value.id).Some?)
              && (read.Some? ==> read.value == ChatRead(chatId, user.value.id, LastReadAt(old(msgs[..]), user.value.id).value))
              && forall i :: 0 <= i < msgs.Length ==> msgs[i] == Stamp(old(msgs[i]), ReadReceipt, user.value.id)
  {
    read := None;
    if msgs.Length > 0 && user.Some? {
      var me := user.value.id;
      var at := LastReadAt(msgs[..], me);
      if at.Some? {
        read := Some(ChatRead(chatId, me, at.value));
      }
      StampAll(msgs, ReadReceipt, me);
    }
  }

  // ---------------------------------------------------------------------
  // The last-read mark

  /** The position of the first message not sent by `me`. */
  function FirstFromOther(msgs: seq<Message>, me: Id): (r: Option<nat>)
    ensures r.None? <==> forall j :: 0 <= j < |msgs| ==> msgs[j].senderId == me
    ensures r.Some? ==> r.value < |msgs| && msgs[r.value].senderId != me
    ensures r.Some? ==> forall j :: 0 <= j < r.value ==> msgs[j].senderId == me
  {
    if msgs == [] then None
    else if msgs[0].senderId != me then Some(0)
    else match FirstFromOther(msgs[1..], me)
      case None => None
      case Some(i) => Some(i + 1)
  }

  /** The position of the last message sent by `sender`. */
  function LastFrom(msgs: seq<Message>, sender: Id): (r: Option<nat>)
    ensures r.None? <==> forall j :: 0 <= j < |msgs| ==> msgs[j].senderId != sender
    ensures r.Some? ==> r.value < |msgs| && msgs[r.value].senderId == sender
    ensures r.Some? ==> forall j :: r.value < j < |msgs| ==> msgs[j].senderId != sender
  {
    if msgs == [] then None
    else if msgs[|msgs| - 1].senderId == sender then Some(|msgs| - 1)
    else LastFrom(msgs[..|msgs| - 1], sender)
  }

  /** The time the last-read mark records: that of the latest message from
      the other party, taken to be the sender of the first message `me` did
      not write. */
  function LastReadAt(msgs: seq<Message>, me: Id): (r: Option<Timestamp>)
  {
    match FirstFromOther(msgs, me)
    case None => None
    case Some(i) =>
      match LastFrom(msgs, msgs[i].senderId)
      case None => None
      case Some(k) => Some(msgs[k].createdAt)
  }

  predicate Ascending(msgs: seq<Message>) {
    forall i, j :: 0 <= i < j < |msgs| ==> msgs[i].createdAt <= msgs[j].createdAt
  }

  /** `i` is the first message not written by `me`, and `k` the last
      message of that message's sender. */
  ghost predicate MarkSource(msgs: seq<Message>, me: Id, i: int, k: int) {
    && 0 <= i <= k < |msgs| && msgs[i].senderId != me
    && (forall j :: 0 <= j < i ==> msgs[j].senderId == me)
    && msgs[k].senderId == msgs[i].senderId
    && (forall j :: k < j < |msgs| ==> msgs[j].senderId != msgs[i].senderId)
  }

  /** A mark is recorded exactly when someone else wrote in the chat, and it
      is the time of the last message of the first other sender. */
  lemma {:induction false} LastReadAtSpec(msgs: seq<Message>, me: Id)
    ensures LastReadAt(msgs, me).Some? <==> exists j :: 0 <= j < |msgs| && msgs[j].senderId != me
    ensures LastReadAt(msgs, me).Some? ==>
              exists i, k :: MarkSource(msgs, me, i, k) && LastReadAt(msgs, me).value == msgs[k].createdAt
  {
    match FirstFromOther(msgs, me)
    case None =>
    case Some(i) =>
      match LastFrom(msgs, msgs[i].senderId)
      case None =>
        assert false;
      case Some(k) =>
        assert MarkSource(msgs, me, i, k);
  }

  /** The messages arriving in time order, no message of the marked sender
      is newer than the mark. */
  lemma {:induction false} LastReadAtIsLatest(msgs: seq<Message>, me: Id, i: int, k: int)
    requires Ascending(msgs) && MarkSource(msgs, me, i, k)
    ensures forall j :: 0 <= j < |msgs| && msgs[j].senderId == msgs[i].senderId ==> msgs[j].createdAt <= msgs[k].createdAt
  {
    forall j | 0 <= j < |msgs| && msgs[j].senderId == msgs[i].senderId
      ensures msgs[j].createdAt <= msgs[k].createdAt
    {
      assert j <= k;
    }
  }

  // ---------------------------------------------------------------------
  // Status ticks

  datatype Tick = NoTick | SentTick | DeliveredTick | ReadTick

  function IsOwn(m: Message, user: Option<User>): bool {
    user.Some? && m.senderId == user.value.id
  }

  /** `renderStatusIcon` as written: no tick beside others' messages; on the
      viewer's own, read when more than one id is on the read list, else
      delivered when more than one is on the delivery list, else sent. */
  function StatusIcon(m: Message, user: Option<User>): (r: Tick)
    ensures r == NoTick <==> !IsOwn(m, user)
    ensures r == ReadTick <==> IsOwn(m, user) && |m.readBy| > 1
    ensures r == DeliveredTick <==> IsOwn(m, user) && |m.readBy| <= 1 && |m.deliveredTo| > 1
    ensures r == SentTick <==> IsOwn(m, user) && |m.readBy| <= 1 && |m.deliveredTo| <= 1
  {
    if !IsOwn(m, user) then NoTick
    else if |m.readBy| > 1 then ReadTick
    else if |m.deliveredTo| > 1 then DeliveredTick
    else SentTick
  }

  lemma FirstTwoDiffer(s: seq<Id>)
    ensures |s| > 1 && Distinct(s) ==> s[0] != s[1]
  {
  }

  /** A list without repeats that names only `x` names it at most once. */
  lemma {:induction false} DistinctSingleton(s: seq<Id>, x: Id)
    requires Distinct(s) && forall i :: 0 <= i < |s| ==> s[i] == x
    ensures |s| <= 1
  {
    FirstTwoDiffer(s);
    if |s| > 1 {
      assert false;
    }
  }

  /** The receipts a message from the other party of a two-party chat
      collects: ids of that party only, each at most once. */
  ghost predicate ReceiptsOf(m: Message, other: Id) {
    && Distinct(m.deliveredTo) && Distinct(m.readBy)
    && (forall i :: 0 <= i < |m.deliveredTo| ==> m.deliveredTo[i] == other)
    && (forall i :: 0 <= i < |m.readBy| ==> m.readBy[i] == other)
  }

  /** A message as sent (no receipts) keeps the receipts of its one
      recipient under stamping by that recipient. */
  lemma {:induction false} StampKeepsReceiptsOf(m: Message, k: Receipt, other: Id)
    requires ReceiptsOf(m, other)
    ensures ReceiptsOf(Stamp(m, k, other), other)
  {
    var r := Stamp(m, k, other);
    if k == DeliveryReceipt {
      assert r.readBy == m.readBy;
    } else {
      assert r.deliveredTo == m.deliveredTo;
    }
  }

  /** With the receipts of a single other party, the tick as written never
      gets past "sent", however often that party has seen and read the
      message. */
  lemma {:induction false} StatusIconStuckAtSent(m: Message, user: User, other: Id)
    requires m.senderId == user.id && ReceiptsOf(m, other)
    ensures StatusIcon(m, Some(user)) == SentTick
  {
    DistinctSingleton(m.deliveredTo, other);
    DistinctSingleton(m.readBy, other);
  }

  /** The concrete case: a message just sent, then delivered to and read by
      the recipient, still shows the "sent" tick. */
  lemma StatusIconCounterexample(m: Message, user: User, other: Id)
    requires m.senderId == user.id && other != user.id && m.deliveredTo == [] && m.readBy == []
    ensures var seen := Stamp(Stamp(m, DeliveryReceipt, other), ReadReceipt, other);
            other in seen.readBy && StatusIcon(seen, Some(user)) == SentTick
  {
    var seen := Stamp(Stamp(m, DeliveryReceipt, other), ReadReceipt, other);
    assert seen.readBy == [other] && seen.deliveredTo == [other];
  }

  /** The tick as intended: read once anyone else has read the message,
      delivered once anyone else has received it. */
  function IntendedStatusIcon(m: Message, user: Option<User>): (r: Tick)
    ensures r == NoTick <==> !IsOwn(m, user)
    ensures r == ReadTick <==> IsOwn(m, user) && |m.readBy| > 0
    ensures r == DeliveredTick <==> IsOwn(m, user) && m.readBy == [] && |m.deliveredTo| > 0
  {
    if !IsOwn(m, user) then NoTick
    else if |m.readBy| > 0 then ReadTick
    else if |m.deliveredTo| > 0 then DeliveredTick
    else SentTick
  }

  /** The intended tick follows the recipient's receipts: a message they
      received shows at least "delivered", one they read shows "read", and
      stamping never moves the tick back. */
  lemma {:induction false} IntendedStatusFollowsReceipts(m: Message, user: User, other: Id, k: Receipt)
    requires m.senderId == user.id && other != user.id
    ensures var r := Stamp(m, k, other);
            (k == ReadReceipt ==> IntendedStatusIcon(r, Some(user)) == ReadTick)
            && (k == DeliveryReceipt ==> IntendedStatusIcon(r, Some(user)) in {DeliveredTick, ReadTick})
  {
    var r := Stamp(m, k, other);
    assert other in Receipts(r, k);
  }

  // ---------------------------------------------------------------------
  // Offers seen from the chat

  /** An offer for `cropId` by `retailerId` with status `status`. */
  predicate IsOfferFor(o: Offer, cropId: Id, retailerId: Id, status: OfferStatus) {
    o.cropId == cropId && o.retailerId == retailerId && o.status == status
  }

  /** The first offer for `cropId` by `retailerId` with status `status`. */
  function FindOffer(offers: seq<Offer>, cropId: Id, retailerId: Id, status: OfferStatus): Option<Offer> {
    Find(offers, (o: Offer) => IsOfferFor(o, cropId, retailerId, status))
  }

  /** The price typed into the negotiation form: blank (after trimming), not
      a number, or a number (whole rupees here). */
  datatype PriceInput = BlankPrice | NotANumber | PriceValue(value: int)

  datatype PriceStep =
    | Ignored                           // blank input or no viewer: nothing happens
    | InvalidPrice                      // "Enter a valid price."
    | MissingInfo                       // "Missing crop or retailer info."
    | NoPendingOffer                    // "No pending offer found for this crop."
    | UpdatePrice(offerId: Id, price: int)

  /** `handleSendPrice`: which of its exits the form takes, checked in the
      order of the source; only the last one calls `updateOfferPrice`. */
  function SendPrice(input: PriceInput, user: Option<User>, chat: Option<Chat>, userOffers: seq<Offer>): (r: PriceStep)
    ensures r == Ignored <==> input == BlankPrice || user.None?
    ensures r == InvalidPrice <==> input != BlankPrice && user.Some? && (input.NotANumber? || (input.PriceValue? && input.value <= 0))
    ensures r.UpdatePrice? ==> input.PriceValue? && r.price == input.value && r.price > 0
    ensures r.UpdatePrice? ==> chat.Some? && chat.value.cropId != NoId && user.Some? && user.value.id != NoId
    ensures r.UpdatePrice? ==>
              exists o :: o in userOffers && o.id == r.offerId && IsOfferFor(o, chat.value.cropId, user.value.id, OfferStatus.Pending)
    ensures r == NoPendingOffer <==>
              && input.PriceValue? && input.value > 0 && user.Some? && user.value.id != NoId
              && chat.Some? && chat.value.cropId != NoId
              && forall o :: o in userOffers ==> !IsOfferFor(o, chat.value.cropId, user.value.id, OfferStatus.Pending)
  {
    if input == BlankPrice || user.None? then Ignored
    else if input.NotANumber? || input.value <= 0 then InvalidPrice
    else if chat.None? || chat.value.cropId == NoId || user.value.id == NoId then MissingInfo
    else match FindOffer(userOffers, chat.value.cropId, user.value.id, OfferStatus.Pending)
      case None => NoPendingOffer
      case Some(o) => UpdatePrice(o.id, input.value)
  }

  /** The offer behind the Pay Now button: shown only to a retailer, only
      while the delivery tracker is hidden, for their accepted offer on the
      chat's crop. */
  function PayNowOffer(user: Option<User>, showTracker: bool, chat: Option<Chat>, userOffers: seq<Offer>): (r: Option<Offer>)
    ensures r.Some? ==> HasRole(user, Retailer) && !showTracker && chat.Some? && r.value in userOffers
    ensures r.Some? ==> IsOfferFor(r.value, chat.value.cropId, user.value.id, Accepted)
    ensures r.Some? <==>
              && HasRole(user, Retailer) && !showTracker && chat.Some?
              && exists o :: o in userOffers && IsOfferFor(o, chat.value.cropId, user.value.id, Accepted)
  {
    if HasRole(user, Retailer) && !showTracker && chat.Some? then
      FindOffer(userOffers, chat.value.cropId, user.value.id, Accepted)
    else None
  }

  /** The price form and the Pay Now button never act on the same offer: one
      needs it pending, the other accepted. */
  lemma {:induction false} PayNowAndPriceDisjoint(input: PriceInput, user: Option<User>, chat: Option<Chat>,
                                                  userOffers: seq<Offer>)
    requires forall i, j :: 0 <= i < j < |userOffers| ==> userOffers[i].id != userOffers[j].id
    ensures var pay := PayNowOffer(user, false, chat, userOffers);
            var step := SendPrice(input, user, chat, userOffers);
            pay.Some? && step.UpdatePrice? ==> pay.value.id != step.offerId
  {
    var pay := PayNowOffer(user, false, chat, userOffers);
    var step := SendPrice(input, user, chat, userOffers);
    if pay.Some? && step.UpdatePrice? {
      var o :| o in userOffers && o.id == step.offerId && IsOfferFor(o, chat.value.cropId, user.value.id, OfferStatus.Pending);
      assert o != pay.value;
      var i :| 0 <= i < |userOffers| && userOffers[i] == o;
      var j :| 0 <= j < |userOffers| && userOffers[j] == pay.value;
      assert i != j;
    }
  }

  // ---------------------------------------------------------------------
  // After a payment

  datatype Endpoint = MarkTransactionCompleted(transactionId: Id) | MarkCropSold(cropId: Id)

  datatype PaymentEnd =
    | OfferGone                    // "Offer not found. Please refresh the page."
    | UpdateFailed                 // a call was not ok: the alert asking to contact support
    | TrackingStarted(doc: TrackingDoc)

  /** What the payment callback did: the backend calls it made, in order,
      and how it ended. */
  datatype PaymentRun = PaymentRun(calls: seq<Endpoint>, end: PaymentEnd)

  /** The payment callback. The offer must still be among the viewer's
      offers; then the transaction is marked completed and the crop sold (the
      offer id stands for the transaction id), each call aborting the run
      when its response is not ok; only then is the tracking record written,
      in transit, keyed by the offer id. That write fails, ending in the same
      alert, when it is refused (`trackOk` false), when the offer id is empty,
      or when there is no open chat or no signed-in user, since the farmer or
      retailer field would then be undefined. */
  function AfterPayment(offerId: Id, userOffers: seq<Offer>, txnOk: bool, cropOk: bool, trackOk: bool,
                        chat: Option<Chat>, user: Option<User>, now: Timestamp): (r: PaymentRun)
    ensures r.end.TrackingStarted? <==>
              (exists o :: o in userOffers && o.id == offerId) && txnOk && cropOk && trackOk
              && offerId != NoId && chat.Some? && user.Some?
    ensures r.end.TrackingStarted? ==>
              r.end.doc.status == InTransit && r.end.doc.transactionId == offerId
              && r.end.doc.offerId == offerId && r.end.doc.sample.None?
              && r.end.doc.farmerId == Some(chat.value.farmerId) && r.end.doc.retailerId == Some(user.value.id)
              && r.end.doc.createdAt == now && r.end.doc.lastUpdated == now
    ensures r.end == OfferGone <==> forall o :: o in userOffers ==> o.id != offerId
    ensures r.end != OfferGone ==> |r.calls| >= 1 && r.calls[0] == MarkTransactionCompleted(offerId)
    ensures (exists c :: c in r.calls && c.MarkCropSold?) <==> r.end != OfferGone && txnOk
    ensures |r.calls| <= 2
  {
    var found := Find(userOffers, (o: Offer) => o.id == offerId);
    if found.None? then PaymentRun([], OfferGone)
    else
      var offer := found.value;
      if !txnOk then PaymentRun([MarkTransactionCompleted(offer.id)], UpdateFailed)
      else
        var calls := [MarkTransactionCompleted(offer.id), MarkCropSold(offer.cropId)];
        assert calls[1] in calls;
        if !cropOk || !trackOk || offer.id == NoId || chat.None? || user.None? then PaymentRun(calls, UpdateFailed)
        else
          PaymentRun(calls, TrackingStarted(TrackingDoc(offer.id, offer.id, Some(chat.value.farmerId), Some(user.value.id),
                                                        InTransit, now, now, None, None, None)))
  }
}
