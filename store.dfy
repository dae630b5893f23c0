/** The client-side application store (`src/lib/store.ts`): the document
    collections of the database (users, crops, offers, chats, messages,
    transactions) held as maps from document id to record, and the fields the
    store keeps for the screens (`user`, `crops`, `userOffers`, `chats`,
    `currentChat`, `messages`, `farmerTransactions`).

    A query over a collection lists the matching documents in the order of
    their ids, as the document store returns them when no ordering is asked
    for. New documents take their ids from the counter `nextId`. */
module Store {
  import opened Basics

  // ---------------------------------------------------------------------
  // Records

  datatype Role = Farmer | Retailer

  datatype User = User(
    id: Id, createdAt: Timestamp, email: string, name: string, role: Role,
    phone: Option<string>, address: Option<string>)

  datatype CropStatus = Available | Pending | Sold

  datatype Crop = Crop(
    id: Id, createdAt: Timestamp, farmerId: Id, name: string, description: string,
    quantity: int, unit: string, priceExpectation: Option<int>, location: string,
    harvestDate: string, status: CropStatus, imageUrl: Option<string>)

  /** What the add-crop form hands to `addCrop`; `None` is a field left undefined. */
  datatype CropInput = CropInput(
    name: Option<string>, description: Option<string>, quantity: Option<int>,
    unit: Option<string>, priceExpectation: Option<int>, location: Option<string>,
    harvestDate: Option<string>, imageUrl: Option<string>)

  datatype OfferStatus = Pending | Accepted | Rejected | Completed

  datatype Offer = Offer(
    id: Id, createdAt: Timestamp, cropId: Id, retailerId: Id, price: int,
    message: Option<string>, status: OfferStatus)

  datatype ChatStatus = Active | Archived

  datatype Chat = Chat(
    id: Id, createdAt: Timestamp, cropId: Id, farmerId: Id, retailerId: Id,
    lastMessageAt: Option<Timestamp>, status: ChatStatus)

  datatype MessageType = TextMessage | OfferMessage | PriceNegotiation

  /** `deliveredTo` and `readBy` are the receipt lists the chat screen adds to. */
  datatype Message = Message(
    id: Id, createdAt: Timestamp, chatId: Id, senderId: Id, content: string,
    messageType: MessageType, offerId: Option<Id>, price: Option<int>,
    deliveredTo: seq<Id>, readBy: seq<Id>)

  datatype TxStatus = PendingPayment | Completed | Failed

  datatype Transaction = Transaction(
    id: Id, createdAt: Timestamp, cropId: Id, farmerId: Id, retailerId: Id,
    offerId: Id, amount: int, status: TxStatus)

  /** The errors the store's actions return (or that the database throws and
      the actions catch). */
  datatype StoreError =
    | Unauthorized          // no user, or a user of the wrong role
    | DuplicateOffer        // "You have already made an offer for this crop."
    | OfferNotFound
    | NotOfferOwner         // "Unauthorized to update this offer"
    | OfferNotPending       // "Cannot update offer that is not pending"
    | InvalidDocumentPath   // a document reference built from an empty or undefined id
    | UndefinedField        // a write whose record holds an undefined field

  /** The answer a farmer gives to an offer. */
  datatype Decision = Accept | Reject {
    function Status(): OfferStatus {
      if Accept? then Accepted else Rejected
    }
  }

  predicate HasRole(u: Option<User>, role: Role) {
    u.Some? && u.value.role == role
  }

  // ---------------------------------------------------------------------
  // Queries

  /** The ids below `n` of the documents of `t` that satisfy `keep`, in
      increasing order (`IdsWhereSpec`). */
  function IdsWhere<T>(t: map<Id, T>, keep: T -> bool, n: nat): seq<Id> {
    if n == 0 then []
    else IdsWhere(t, keep, n - 1) + (if n - 1 in t && keep(t[n - 1]) then [n - 1] else [])
  }

  lemma {:induction false} IdsWhereSpec<T>(t: map<Id, T>, keep: T -> bool, n: nat)
    ensures var ids := IdsWhere(t, keep, n);
      && (forall i, j :: 0 <= i < j < |ids| ==> ids[i] < ids[j])
      && (forall k :: k in ids <==> k < n && k in t && keep(t[k]))
  {
    if n > 0 {
      IdsWhereSpec(t, keep, n - 1);
      var front := IdsWhere(t, keep, n - 1);
      forall i | 0 <= i < |front| ensures front[i] < n - 1 {
        assert front[i] in front;
      }
    }
  }

  /** `getDocs(query(collection, where(...)))`: the documents below `n` that
      satisfy `keep`, in id order (`WhereMembers`). */
  function Where<T>(t: map<Id, T>, keep: T -> bool, n: nat): seq<T> {
    if n == 0 then []
    else Where(t, keep, n - 1) + (if n - 1 in t && keep(t[n - 1]) then [t[n - 1]] else [])
  }

  function OwnedBy(farmerId: Id): Crop -> bool {
    (c: Crop) => c.farmerId == farmerId
  }

  function IsListed(): Crop -> bool {
    (c: Crop) => c.status == Available
  }

  function OnCrops(cropIds: seq<Id>): Offer -> bool {
    (o: Offer) => o.cropId in cropIds
  }

  function MadeBy(retailerId: Id): Offer -> bool {
    (o: Offer) => o.retailerId == retailerId
  }

  function OfferFor(cropId: Id, retailerId: Id): Offer -> bool {
    (o: Offer) => o.cropId == cropId && o.retailerId == retailerId
  }

  function PendingOn(cropId: Id): Offer -> bool {
    (o: Offer) => o.cropId == cropId && o.status == OfferStatus.Pending
  }

  predicate Between(c: Chat, farmerId: Id, retailerId: Id, cropId: Id) {
    c.farmerId == farmerId && c.retailerId == retailerId && c.cropId == cropId
  }

  function ChatOf(u: User): Chat -> bool {
    (c: Chat) => if u.role == Farmer then c.farmerId == u.id else c.retailerId == u.id
  }

  function TxOnCrops(cropIds: seq<Id>): Transaction -> bool {
    (t: Transaction) => t.cropId in cropIds
  }

  /** A query returns documents of the collection that match, and every
      matching document below the bound. */
  lemma {:induction false} WhereMembers<T>(t: map<Id, T>, keep: T -> bool, n: nat)
    ensures forall i :: 0 <= i < |Where(t, keep, n)| ==> Where(t, keep, n)[i] in t.Values && keep(Where(t, keep, n)[i])
    ensures forall k :: k in t && k < n && keep(t[k]) ==> t[k] in Where(t, keep, n)
  {
    if n > 0 {
      WhereMembers(t, keep, n - 1);
      var front := Where(t, keep, n - 1);
      var r := Where(t, keep, n);
      assert r[..|front|] == front;
      forall i | 0 <= i < |r| ensures r[i] in t.Values && keep(r[i]) {
        if i < |front| {
          assert r[i] == front[i];
        }
      }
      forall k | k in t && k < n && keep(t[k]) ensures t[k] in r {
        if k < n - 1 {
          var i :| 0 <= i < |front| && front[i] == t[k];
          assert r[i] == front[i];
        } else {
          assert r[|r| - 1] == t[k];
        }
      }
    }
  }

  /** `fetchCrops`: a farmer sees their own crops, anyone else the crops
      still available (`CropsVisibleToSpec`). */
  function CropsVisibleTo(u: Option<User>, crops: map<Id, Crop>, n: nat): seq<Crop> {
    Where(crops, if HasRole(u, Farmer) then OwnedBy(u.value.id) else IsListed(), n)
  }

  lemma CropsVisibleToSpec(u: Option<User>, crops: map<Id, Crop>, n: nat)
    ensures var r := CropsVisibleTo(u, crops, n);
      && (forall i :: 0 <= i < |r| ==> r[i] in crops.Values)
      && (HasRole(u, Farmer) ==>
            forall k :: k in crops && k < n ==> (crops[k] in r <==> crops[k].farmerId == u.value.id))
      && (!HasRole(u, Farmer) ==>
            forall k :: k in crops && k < n ==> (crops[k] in r <==> crops[k].status == Available))
  {
    WhereMembers(crops, if HasRole(u, Farmer) then OwnedBy(u.value.id) else IsListed(), n);
  }

  /** The crop `cropId` is one of the farmer's, below `n`. */
  predicate Grows(crops: map<Id, Crop>, n: nat, cropId: Id, farmerId: Id) {
    cropId < n && cropId in crops && crops[cropId].farmerId == farmerId
  }

  /** The ids of a farmer's crops. */
  function CropIdsOf(farmerId: Id, crops: map<Id, Crop>, n: nat): seq<Id> {
    IdsWhere(crops, OwnedBy(farmerId), n)
  }

  /** `fetchUserOffers`: a farmer sees the offers on their crops, a retailer
      the offers they made, and nobody signed in sees none
      (`OffersVisibleToSpec`). */
  function OffersVisibleTo(u: Option<User>, crops: map<Id, Crop>, offers: map<Id, Offer>, n: nat)
    : seq<Offer>
  {
    if u.None? then []
    else if u.value.role == Farmer then
      var cropIds := CropIdsOf(u.value.id, crops, n);
      if cropIds == [] then [] else Where(offers, OnCrops(cropIds), n)
    else Where(offers, MadeBy(u.value.id), n)
  }

  lemma OffersVisibleToSpec(u: Option<User>, crops: map<Id, Crop>, offers: map<Id, Offer>, n: nat)
    ensures var r := OffersVisibleTo(u, crops, offers, n);
      && (u.None? ==> r == [])
      && (forall i :: 0 <= i < |r| ==> r[i] in offers.Values)
      && (HasRole(u, Farmer) ==> forall k :: k in offers && k < n ==>
            (offers[k] in r <==> Grows(crops, n, offers[k].cropId, u.value.id)))
      && (HasRole(u, Retailer) ==> forall k :: k in offers && k < n ==>
            (offers[k] in r <==> offers[k].retailerId == u.value.id))
  {
    if u.Some? {
      var cropIds := CropIdsOf(u.value.id, crops, n);
      IdsWhereSpec(crops, OwnedBy(u.value.id), n);
      WhereMembers(offers, OnCrops(cropIds), n);
      WhereMembers(offers, MadeBy(u.value.id), n);
    }
  }

  /** `fetchUserChats`: the chats the user takes part in, as farmer or as
      retailer; nobody signed in sees none (`ChatsVisibleToSpec`). */
  function ChatsVisibleTo(u: Option<User>, chats: map<Id, Chat>, n: nat): seq<Chat> {
    if u.None? then [] else Where(chats, ChatOf(u.value), n)
  }

  lemma ChatsVisibleToSpec(u: Option<User>, chats: map<Id, Chat>, n: nat)
    ensures var r := ChatsVisibleTo(u, chats, n);
      && (u.None? ==> r == [])
      && (forall i :: 0 <= i < |r| ==> r[i] in chats.Values)
      && (HasRole(u, Farmer) ==> forall k :: k in chats && k < n ==> (chats[k] in r <==> chats[k].farmerId == u.value.id))
      && (HasRole(u, Retailer) ==> forall k :: k in chats && k < n ==> (chats[k] in r <==> chats[k].retailerId == u.value.id))
  {
    if u.Some? {
      WhereMembers(chats, ChatOf(u.value), n);
    }
  }

  /** `fetchFarmerTransactions`: a farmer sees the transactions on their
      crops; anyone else sees none (`TransactionsVisibleToSpec`). */
  function TransactionsVisibleTo(u: Option<User>, crops: map<Id, Crop>, txs: map<Id, Transaction>, n: nat)
    : seq<Transaction>
  {
    if !HasRole(u, Farmer) then []
    else
      var cropIds := CropIdsOf(u.value.id, crops, n);
      if cropIds == [] then [] else Where(txs, TxOnCrops(cropIds), n)
  }

  lemma TransactionsVisibleToSpec(u: Option<User>, crops: map<Id, Crop>, txs: map<Id, Transaction>, n: nat)
    ensures var r := TransactionsVisibleTo(u, crops, txs, n);
      && (!HasRole(u, Farmer) ==> r == [])
      && (forall i :: 0 <= i < |r| ==> r[i] in txs.Values)
      && (HasRole(u, Farmer) ==> forall k :: k in txs && k < n ==>
            (txs[k] in r <==> Grows(crops, n, txs[k].cropId, u.value.id)))
  {
    if HasRole(u, Farmer) {
      IdsWhereSpec(crops, OwnedBy(u.value.id), n);
      WhereMembers(txs, TxOnCrops(CropIdsOf(u.value.id, crops, n)), n);
    }
  }

  /** The duplicate check of `makeOffer`: does the retailer already have an
      offer, of any status, on the crop, among the ids below `n`
      (`HasOfferSpec`)? */
  predicate HasOffer(offers: map<Id, Offer>, n: nat, cropId: Id, retailerId: Id)
    decreases n
  {
    n > 0 &&
    (HasOffer(offers, n - 1, cropId, retailerId)
     || (n - 1 in offers && offers[n - 1].cropId == cropId && offers[n - 1].retailerId == retailerId))
  }

  lemma {:induction false} HasOfferSpec(offers: map<Id, Offer>, n: nat, cropId: Id, retailerId: Id)
    ensures HasOffer(offers, n, cropId, retailerId) <==>
      exists k :: k in offers && k < n && offers[k].cropId == cropId && offers[k].retailerId == retailerId
  {
    if n > 0 {
      HasOfferSpec(offers, n - 1, cropId, retailerId);
    }
  }

  /** An offer of the retailer on the crop below `n` is found. */
  lemma {:induction false} HasOfferWitness(offers: map<Id, Offer>, n: nat, k: Id)
    requires k in offers && k < n
    ensures HasOffer(offers, n, offers[k].cropId, offers[k].retailerId)
    decreases n
  {
    if k < n - 1 {
      HasOfferWitness(offers, n - 1, k);
    }
  }

  /** The chat `createOrGetChat` finds for a (farmer, retailer, crop) triple
      among the chats with ids below `n`: the first matching document, if any
      (`FirstChatIsFirst` says so). */
  function FirstChat(chats: map<Id, Chat>, n: nat, farmerId: Id, retailerId: Id, cropId: Id)
    : (r: Option<Id>)
    ensures r.Some? ==> r.value in chats && r.value < n
    decreases n
  {
    if n == 0 then None
    else
      var earlier := FirstChat(chats, n - 1, farmerId, retailerId, cropId);
      if earlier.Some? then earlier
      else if n - 1 in chats && Between(chats[n - 1], farmerId, retailerId, cropId) then Some(n - 1)
      else None
  }

  /** The lookup finds a matching chat, the one with the smallest id, and
      finds none only when no chat matches. */
  lemma {:induction false} FirstChatIsFirst(chats: map<Id, Chat>, n: nat, farmerId: Id, retailerId: Id, cropId: Id)
    ensures var r := FirstChat(chats, n, farmerId, retailerId, cropId);
      && (r.Some? ==> Between(chats[r.value], farmerId, retailerId, cropId))
      && (r.Some? ==> forall k :: k in chats && k < r.value ==> !Between(chats[k], farmerId, retailerId, cropId))
      && (r.None? <==> forall k :: k in chats && k < n ==> !Between(chats[k], farmerId, retailerId, cropId))
  {
    if n > 0 {
      FirstChatIsFirst(chats, n - 1, farmerId, retailerId, cropId);
    }
  }

  /** A collection with ids below `n` is fully searched with the bound `n`. */
  lemma {:induction false} FirstChatBeyond(chats: map<Id, Chat>, n: nat, m: nat, farmerId: Id, retailerId: Id, cropId: Id)
    requires n <= m
    requires forall k :: k in chats ==> k < n
    ensures FirstChat(chats, m, farmerId, retailerId, cropId) == FirstChat(chats, n, farmerId, retailerId, cropId)
    decreases m
  {
    if m > n {
      FirstChatBeyond(chats, n, m - 1, farmerId, retailerId, cropId);
    }
  }

  /** Chat collections that agree below `n` give the same lookup. */
  lemma {:induction false} FirstChatAgree(chats: map<Id, Chat>, other: map<Id, Chat>, n: nat,
                                          farmerId: Id, retailerId: Id, cropId: Id)
    requires forall k :: 0 <= k < n ==> (k in chats <==> k in other)
    requires forall k :: 0 <= k < n && k in chats ==> chats[k] == other[k]
    ensures FirstChat(chats, n, farmerId, retailerId, cropId) == FirstChat(other, n, farmerId, retailerId, cropId)
  {
    if n > 0 {
      FirstChatAgree(chats, other, n - 1, farmerId, retailerId, cropId);
    }
  }

  /** A chat added under the next id is what the lookup of its triple finds
      when no earlier chat matched. */
  lemma FirstChatAfterAdd(chats: map<Id, Chat>, n: nat, chat: Chat)
    requires FirstChat(chats, n, chat.farmerId, chat.retailerId, chat.cropId).None?
    ensures FirstChat(chats[n := chat], n + 1, chat.farmerId, chat.retailerId, chat.cropId) == Some(n)
  {
    FirstChatAgree(chats[n := chat], chats, n, chat.farmerId, chat.retailerId, chat.cropId);
  }

  // ---------------------------------------------------------------------
  // The records the store's actions write

  /** `x || ''` */
  function OrEmpty(s: Option<string>): string {
    s.GetOr("")
  }

  /** `x || null`: both a missing and an empty string become null. */
  function OrNull(s: Option<string>): (r: Option<string>)
    ensures r.Some? <==> s.Some? && s.value != ""
    ensures r.Some? ==> r == s
  {
    if s == Some("") then None else s
  }

  /** The crop `addCrop` writes for a farmer. */
  function NewCrop(id: Id, farmerId: Id, input: CropInput, now: Timestamp): (c: Crop)
    ensures c.id == id && c.farmerId == farmerId && c.createdAt == now
    ensures c.status == Available
    ensures c.quantity == 0 <==> input.quantity.None? || input.quantity == Some(0)
    ensures input.quantity.Some? ==> c.quantity == input.quantity.value
    ensures c.priceExpectation == input.priceExpectation && c.imageUrl == input.imageUrl
    // every text field left undefined is stored as the empty string
    ensures input.name.Some? ==> c.name == input.name.value
    ensures input.name.None? ==> c.name == ""
    ensures input.description.Some? ==> c.description == input.description.value
    ensures input.description.None? ==> c.description == ""
    ensures input.unit.Some? ==> c.unit == input.unit.value
    ensures input.unit.None? ==> c.unit == ""
    ensures input.location.Some? ==> c.location == input.location.value
    ensures input.location.None? ==> c.location == ""
    ensures input.harvestDate.Some? ==> c.harvestDate == input.harvestDate.value
    ensures input.harvestDate.None? ==> c.harvestDate == ""
  {
    Crop(id, now, farmerId, OrEmpty(input.name), OrEmpty(input.description), input.quantity.GetOr(0),
         OrEmpty(input.unit), input.priceExpectation, OrEmpty(input.location), OrEmpty(input.harvestDate),
         Available, input.imageUrl)
  }

  /** The offer `makeOffer` writes: pending, by the retailer, with an empty
      message stored as null. */
  function NewOffer(id: Id, now: Timestamp, cropId: Id, retailerId: Id, price: int, message: string)
    : (o: Offer)
    ensures o.id == id && o.cropId == cropId && o.retailerId == retailerId && o.price == price
    ensures o.status == OfferStatus.Pending
    ensures o.message.None? <==> message == ""
  {
    Offer(id, now, cropId, retailerId, price, OrNull(Some(message)), OfferStatus.Pending)
  }

  /** The chat `createOrGetChat` creates when none matches. */
  function NewChat(id: Id, now: Timestamp, cropId: Id, farmerId: Id, retailerId: Id): (c: Chat)
    ensures c.farmerId == farmerId && c.retailerId == retailerId && c.cropId == cropId
    ensures c.id == id && c.status == Active && c.lastMessageAt.None?
  {
    Chat(id, now, cropId, farmerId, retailerId, None, Active)
  }

  /** The message `sendMessage` writes: the type defaults to text, and an
      empty offer id or a zero price is stored as null. */
  function NewMessage(id: Id, now: Timestamp, chatId: Id, senderId: Id, content: string,
                      messageType: Option<MessageType>, offerId: Option<Id>, price: Option<int>)
    : (m: Message)
    ensures m.id == id && m.chatId == chatId && m.senderId == senderId && m.content == content
    ensures messageType.None? ==> m.messageType == TextMessage
    ensures messageType.Some? ==> m.messageType == messageType.value
    ensures m.offerId.Some? <==> offerId.Some? && offerId.value != NoId
    ensures m.price.Some? <==> price.Some? && price.value != 0
    ensures m.offerId.Some? ==> m.offerId == offerId
    ensures m.price.Some? ==> m.price == price
    ensures m.deliveredTo == [] && m.readBy == []
  {
    Message(id, now, chatId, senderId, content, messageType.GetOr(TextMessage),
            if offerId == Some(NoId) then None else offerId,
            if price == Some(0) then None else price, [], [])
  }

  /** The transaction `respondToOffer` records for an accepted offer. */
  function NewTransaction(id: Id, now: Timestamp, offer: Offer, farmerId: Id): (t: Transaction)
    ensures t.id == id && t.offerId == offer.id && t.cropId == offer.cropId
    ensures t.retailerId == offer.retailerId && t.farmerId == farmerId
    ensures t.amount == offer.price && t.status == PendingPayment
  {
    Transaction(id, now, offer.cropId, farmerId, offer.retailerId, offer.id, offer.price, PendingPayment)
  }

  /** The profile `loginWithGoogle` creates for an account with none: a
      retailer, with missing strings as '' and a missing phone as null. */
  function NewProfile(uid: Id, now: Timestamp, email: Option<string>, displayName: Option<string>,
                      phone: Option<string>): (u: User)
    ensures u.id == uid && u.role == Retailer && u.address.None?
    ensures email.Some? ==> u.email == email.value
    ensures email.None? ==> u.email == ""
    ensures displayName.Some? ==> u.name == displayName.value
    ensures displayName.None? ==> u.name == ""
    ensures u.phone == OrNull(phone)
  {
    User(uid, now, OrEmpty(email), OrEmpty(displayName), Retailer, OrNull(phone), None)
  }

  /** The rejection of the other pending offers on a crop when one of its
      offers is accepted (`RejectPendingSiblingsSpec`). */
  function RejectPendingSiblings(offers: map<Id, Offer>, cropId: Id, accepted: Id): map<Id, Offer> {
    map k | k in offers ::
      if k != accepted && PendingOn(cropId)(offers[k]) then offers[k].(status := Rejected) else offers[k]
  }

  /** `offers` after rejecting, one after the other, the offers listed in
      `ids`, skipping the accepted one and ids without a document
      (`RejectAmongSpec`). */
  ghost function RejectAmong(offers: map<Id, Offer>, ids: seq<Id>, accepted: Id): map<Id, Offer>
    decreases |ids|
  {
    if ids == [] then offers
    else
      var rest := RejectAmong(offers, ids[..|ids| - 1], accepted);
      var x := ids[|ids| - 1];
      if x != accepted && x in rest then rest[x := rest[x].(status := Rejected)] else rest
  }

  /** The order of the rejections does not matter: exactly the listed offers
      other than the accepted one end up rejected. */
  lemma {:induction false} RejectAmongSpec(offers: map<Id, Offer>, ids: seq<Id>, accepted: Id)
    ensures RejectAmong(offers, ids, accepted)
         == map k | k in offers :: if k in ids && k != accepted then offers[k].(status := Rejected) else offers[k]
    decreases |ids|
  {
    if ids != [] {
      var front := ids[..|ids| - 1];
      var x := ids[|ids| - 1];
      RejectAmongSpec(offers, front, accepted);
      assert forall k :: k in ids <==> k in front || k == x by {
        assert ids == front + [x];
      }
    }
  }

  /** Rejecting exactly the matching ids of a query is the sibling rejection. */
  lemma RejectAmongQuery(offers: map<Id, Offer>, n: nat, cropId: Id, accepted: Id)
    requires forall k :: k in offers ==> k < n
    ensures RejectAmong(offers, IdsWhere(offers, PendingOn(cropId), n), accepted)
         == RejectPendingSiblings(offers, cropId, accepted)
  {
    IdsWhereSpec(offers, PendingOn(cropId), n);
    RejectAmongSpec(offers, IdsWhere(offers, PendingOn(cropId), n), accepted);
  }

  /** Only statuses change, only pending offers on the crop other than the
      accepted one change, they become rejected, and afterwards no offer on
      the crop but the accepted one is pending. */
  lemma RejectPendingSiblingsSpec(offers: map<Id, Offer>, cropId: Id, accepted: Id)
    ensures var r := RejectPendingSiblings(offers, cropId, accepted);
      && r.Keys == offers.Keys
      && (forall k :: k in r ==> r[k] == offers[k].(status := r[k].status))
      && (forall k :: k in r && r[k] != offers[k] ==>
            k != accepted && offers[k].cropId == cropId && offers[k].status == OfferStatus.Pending
            && r[k].status == Rejected)
      && (forall k :: k in r && k != accepted && r[k].cropId == cropId ==> r[k].status != OfferStatus.Pending)
  {
  }

  // ---------------------------------------------------------------------
  // Chat texts

  /** What the store knows of a crop when it writes a chat text: its name,
      quantity and unit, and its farmer. A crop without a document reads as
      'crop' with an empty quantity and unit and the empty farmer id; a
      document holding only a status (written by a merge into a missing
      crop) has an undefined name and farmer (`farmerId` is `None`). */
  datatype CropLabel = CropLabel(name: string, quantity: string, unit: string, farmerId: Option<Id>)

  function LabelOf(crops: map<Id, Crop>, stubs: map<Id, CropStatus>, cropId: Id): (l: CropLabel)
    ensures cropId in crops ==> l.farmerId == Some(crops[cropId].farmerId)
    ensures cropId in crops ==> l.name == crops[cropId].name && l.quantity == Decimal(crops[cropId].quantity)
    ensures cropId !in crops && cropId in stubs ==> l.farmerId.None?
    ensures cropId !in crops && cropId !in stubs ==> l == CropLabel("crop", "", "", Some(NoId))
  {
    if cropId in crops then
      var c := crops[cropId];
      CropLabel(c.name, Decimal(c.quantity), c.unit, Some(c.farmerId))
    else if cropId in stubs then CropLabel("undefined", "", "", None)
    else CropLabel("crop", "", "", Some(NoId))
  }

  const Rupee := "\U{20B9}"

  function OfferText(l: CropLabel, price: int): string {
    "Offer for " + l.name + " of " + l.quantity + " " + l.unit + " is " + Rupee + Decimal(price)
  }

  function NegotiationText(l: CropLabel, price: int): string {
    "I have updated my offer price to " + Rupee + Decimal(price) + " for " + l.name + " of "
      + l.quantity + " " + l.unit + "."
  }

  function AcceptanceText(l: CropLabel, price: int): string {
    "Thank you for the offer price of " + Rupee + Decimal(price) + " for " + l.name + " of "
      + l.quantity + " " + l.unit + ". It is accepted."
  }

  /** The chat notifications the offer actions send. */
  datatype Note =
    | OfferNote(offerId: Id, price: int)
    | NegotiationNote(offerId: Id, price: int)
    | AcceptanceNote(price: int)
  {
    function Text(l: CropLabel): string {
      match this
      case OfferNote(_, p) => OfferText(l, p)
      case NegotiationNote(_, p) => NegotiationText(l, p)
      case AcceptanceNote(p) => AcceptanceText(l, p)
    }

    function Kind(): MessageType {
      match this
      case OfferNote(_, _) => OfferMessage
      case NegotiationNote(_, _) => PriceNegotiation
      case AcceptanceNote(_) => TextMessage
    }

    /** The offer id and price the message carries: an acceptance carries neither. */
    function OfferRef(): Option<Id> {
      if AcceptanceNote? then None else Some(offerId)
    }

    function PriceRef(): Option<int> {
      if AcceptanceNote? then None else Some(price)
    }
  }

  /** What the chat screen shows, with the collections behind it. */
  datatype ChatScreen = ChatScreen(chatDocs: map<Id, Chat>, messageDocs: map<Id, Message>,
                                   currentChat: Option<Chat>, messages: seq<Message>)

  /** From the chat screen `before` to `after`: the chat of the (farmer,
      retailer, crop) triple, found or created, is the current chat and is
      the first chat of the triple, no other chat changed, and exactly one
      message from `sender`, with the given content, was written to it and
      appended to the messages shown. */
  ghost predicate Posted(before: ChatScreen, after: ChatScreen, sender: Id, farmerId: Id, retailerId: Id,
                         cropId: Id, content: string, kind: MessageType, offerId: Option<Id>, price: Option<int>,
                         now: Timestamp)
  {
    && after.currentChat.Some?
    && |after.messages| == |before.messages| + 1 && after.messages[..|before.messages|] == before.messages
    && var chat := after.currentChat.value;
    && var m := after.messages[|before.messages|];
    && Between(chat, farmerId, retailerId, cropId)
    && chat.id in after.chatDocs && after.chatDocs[chat.id] == chat
    && (forall k :: k in after.chatDocs && k < chat.id ==> !Between(after.chatDocs[k], farmerId, retailerId, cropId))
    && (forall k :: k in before.chatDocs ==> k in after.chatDocs && after.chatDocs[k] == before.chatDocs[k])
    && (forall k :: k in after.chatDocs && k !in before.chatDocs ==>
          after.chatDocs[k] == NewChat(k, now, cropId, farmerId, retailerId))
    && m.id !in before.messageDocs && after.messageDocs == before.messageDocs[m.id := m]
    && m == NewMessage(m.id, now, chat.id, sender, content, Some(kind), offerId, price)
  }

  /** Whether a note reaches a chat: somebody is signed in and the crop's
      farmer is known. */
  predicate Reaches(u: Option<User>, l: CropLabel) {
    u.Some? && l.farmerId.Some?
  }

  /** From the chat screen `before` to `after`: the note about the crop,
      whose label is `l`, went to the chat of the crop's farmer and the
      retailer, or, when it cannot reach one, nothing changed. */
  ghost predicate Notified(before: ChatScreen, after: ChatScreen, u: Option<User>, l: CropLabel, cropId: Id,
                           retailerId: Id, note: Note, now: Timestamp)
  {
    if Reaches(u, l) then
      Posted(before, after, u.value.id, l.farmerId.value, retailerId, cropId, note.Text(l), note.Kind(),
             note.OfferRef(), note.PriceRef(), now)
    else
      after == before
  }

  /** The first steps of an accepted sale: the crop of the accepted offer
      is pending (a merge write, so a crop without a document gets a
      status-only one), and the other pending offers on it are rejected. */
  ghost predicate CropReserved(offer: Offer, offersBefore: map<Id, Offer>, offersAfter: map<Id, Offer>,
                               cropsBefore: map<Id, Crop>, cropsAfter: map<Id, Crop>,
                               stubsBefore: map<Id, CropStatus>, stubsAfter: map<Id, CropStatus>)
  {
    && offersAfter == RejectPendingSiblings(offersBefore, offer.cropId, offer.id)
    && (offer.cropId in cropsBefore ==>
          cropsAfter == cropsBefore[offer.cropId := cropsBefore[offer.cropId].(status := CropStatus.Pending)]
          && stubsAfter == stubsBefore)
    && (offer.cropId !in cropsBefore ==>
          cropsAfter == cropsBefore && stubsAfter == stubsBefore[offer.cropId := CropStatus.Pending])
  }

  /** The last steps of an accepted sale, for a crop labelled `l`: either
      the crop's farmer is unknown (a crop document holding only a status),
      so nothing is sent, no transaction is written and the write fails on
      the undefined farmer; or the thank-you note went to the chat of the
      farmer and the offer's retailer, and one transaction awaiting payment
      of the offer's price was recorded under a fresh id. */
  ghost predicate SaleRecorded(u: Option<User>, l: CropLabel, offer: Offer,
                               transactionsBefore: map<Id, Transaction>, transactionsAfter: map<Id, Transaction>,
                               before: ChatScreen, after: ChatScreen, now: Timestamp, r: Result<(), StoreError>)
  {
    && Notified(before, after, u, l, offer.cropId, offer.retailerId, AcceptanceNote(offer.price), now)
    && (l.farmerId.None? ==> r == Failure(UndefinedField) && transactionsAfter == transactionsBefore)
    && (l.farmerId.Some? ==>
          && r == Success(())
          && exists t :: t !in transactionsBefore
               && transactionsAfter == transactionsBefore[t := NewTransaction(t, now, offer, l.farmerId.value)])
  }

  /** Every document is filed under its own id, no document has the empty
      id, ids handed out so far are below `n`, and a status-only document
      never shares its id with a full one. */
  ghost predicate Consistent(users: map<Id, User>, crops: map<Id, Crop>, cropStubs: map<Id, CropStatus>,
                             offers: map<Id, Offer>, offerStubs: map<Id, OfferStatus>, chats: map<Id, Chat>,
                             messages: map<Id, Message>, transactions: map<Id, Transaction>, n: nat)
  {
    && NoId < n
    && (forall k :: k in users ==> users[k].id == k)
    && (forall k :: k in crops ==> NoId < k < n && crops[k].id == k)
    && (forall k :: k in cropStubs ==> NoId < k < n && k !in crops)
    && (forall k :: k in offers ==> NoId < k < n && offers[k].id == k)
    && (forall k :: k in offerStubs ==> NoId < k < n && k !in offers)
    && (forall k :: k in chats ==> NoId < k < n && chats[k].id == k)
    && (forall k :: k in messages ==> NoId < k < n && messages[k].id == k)
    && (forall k :: k in transactions ==> NoId < k < n && transactions[k].id == k)
  }

  // ---------------------------------------------------------------------
  // The store

  class AppStore {
    // The database collections.
    var userDocs: map<Id, User>
    var cropDocs: map<Id, Crop>
    /** Crop documents that hold nothing but a status: a merge write of a
        status into a crop id that had no document creates one. */
    var cropStubs: map<Id, CropStatus>
    var offerDocs: map<Id, Offer>
    /** Offer documents that hold nothing but a status, likewise. */
    var offerStubs: map<Id, OfferStatus>
    var chatDocs: map<Id, Chat>
    var messageDocs: map<Id, Message>
    var transactionDocs: map<Id, Transaction>
    /** The id the next created document receives. */
    var nextId: nat

    // The store's fields.
    var user: Option<User>
    var crops: seq<Crop>
    var userOffers: seq<Offer>
    var chats: seq<Chat>
    var currentChat: Option<Chat>
    var messages: seq<Message>
    var farmerTransactions: seq<Transaction>

    /** The database is `Consistent`. */
    ghost predicate Valid()
      reads this`userDocs, this`cropDocs, this`cropStubs, this`offerDocs, this`offerStubs, this`chatDocs
      reads this`messageDocs, this`transactionDocs, this`nextId
    {
      Consistent(userDocs, cropDocs, cropStubs, offerDocs, offerStubs, chatDocs, messageDocs, transactionDocs, nextId)
    }

    /** A store over a database holding the given user profiles, nobody signed in. */
    constructor (users: map<Id, User>)
      requires forall k :: k in users ==> users[k].id == k
      ensures Valid()
      ensures userDocs == users && cropDocs == map[] && cropStubs == map[] && offerDocs == map[]
      ensures offerStubs == map[] && chatDocs == map[] && messageDocs == map[] && transactionDocs == map[]
      ensures user.None? && crops == [] && userOffers == [] && chats == [] && currentChat.None?
      ensures messages == [] && farmerTransactions == []
    {
      userDocs := users;
      cropDocs, cropStubs, offerDocs, offerStubs := map[], map[], map[], map[];
      chatDocs, messageDocs, transactionDocs := map[], map[], map[];
      nextId := 1;
      user, crops, userOffers, chats, currentChat, messages, farmerTransactions := None, [], [], [], None, [], [];
    }

    ghost function Screen(): ChatScreen
      reads this`chatDocs, this`messageDocs, this`currentChat, this`messages
    {
      ChatScreen(chatDocs, messageDocs, currentChat, messages)
    }

    // ----- Creating documents (`addDoc`): each takes the next id

    method AddCropDoc(crop: Crop)
      requires Valid() && crop.id == nextId
      modifies this`cropDocs, this`nextId
      ensures Valid() && cropDocs == old(cropDocs)[crop.id := crop] && nextId == old(nextId) + 1
      ensures crop.id !in old(cropDocs)
    {
      cropDocs := cropDocs[crop.id := crop];
      nextId := nextId + 1;
    }

    method AddOfferDoc(offer: Offer)
      requires Valid() && offer.id == nextId
      modifies this`offerDocs, this`nextId
      ensures Valid() && offerDocs == old(offerDocs)[offer.id := offer] && nextId == old(nextId) + 1
      ensures offer.id !in old(offerDocs)
    {
      offerDocs := offerDocs[offer.id := offer];
      nextId := nextId + 1;
    }

    method AddChatDoc(chat: Chat)
      requires Valid() && chat.id == nextId
      modifies this`chatDocs, this`nextId
      ensures Valid() && chatDocs == old(chatDocs)[chat.id := chat] && nextId == old(nextId) + 1
      ensures chat.id !in old(chatDocs)
    {
      chatDocs := chatDocs[chat.id := chat];
      nextId := nextId + 1;
    }

    method AddMessageDoc(m: Message)
      requires Valid() && m.id == nextId
      modifies this`messageDocs, this`nextId
      ensures Valid() && messageDocs == old(messageDocs)[m.id := m] && nextId == old(nextId) + 1
      ensures m.id !in old(messageDocs)
    {
      messageDocs := messageDocs[m.id := m];
      nextId := nextId + 1;
    }

    method AddTransactionDoc(t: Transaction)
      requires Valid() && t.id == nextId
      modifies this`transactionDocs, this`nextId
      ensures Valid() && transactionDocs == old(transactionDocs)[t.id := t] && nextId == old(nextId) + 1
      ensures t.id !in old(transactionDocs)
    {
      transactionDocs := transactionDocs[t.id := t];
      nextId := nextId + 1;
    }

    /** The store's lists show what the queries return now. */
    ghost predicate CropsFetched()
      reads this`crops, this`user, this`cropDocs, this`nextId
    {
      crops == CropsVisibleTo(user, cropDocs, nextId)
    }

    ghost predicate OffersFetched()
      reads this`userOffers, this`user, this`cropDocs, this`offerDocs, this`nextId
    {
      userOffers == OffersVisibleTo(user, cropDocs, offerDocs, nextId)
    }

    // ----- Authentication

    /** `logout`: the signed-in user and the lists shown for them are cleared
        (the farmer's transaction list is kept). */
    method Logout()
      modifies this`user, this`crops, this`userOffers, this`chats, this`currentChat, this`messages
      ensures user.None? && crops == [] && userOffers == [] && chats == [] && currentChat.None? && messages == []
    {
      user, crops, userOffers, chats, currentChat, messages := None, [], [], [], None, [];
    }

    /** `loginWithGoogle` after the provider signed the account `uid` in: an
        existing profile is loaded, otherwise a retailer profile is created
        from the account's details and stored. */
    method LoginWithGoogle(uid: Id, email: Option<string>, displayName: Option<string>, phone: Option<string>,
                           now: Timestamp)
      requires Valid()
      modifies this`userDocs, this`user
      ensures Valid()
      ensures uid in old(userDocs) ==> user == Some(old(userDocs)[uid]) && userDocs == old(userDocs)
      ensures uid !in old(userDocs) ==>
        var profile := NewProfile(uid, now, email, displayName, phone);
        user == Some(profile) && userDocs == old(userDocs)[uid := profile]
    {
      if uid in userDocs {
        user := Some(userDocs[uid]);
      } else {
        var profile := NewProfile(uid, now, email, displayName, phone);
        userDocs := userDocs[uid := profile];
        user := Some(profile);
      }
    }

    // ----- Fetching

    method FetchCrops()
      modifies this`crops
      ensures crops == CropsVisibleTo(user, cropDocs, nextId)
    {
      crops := CropsVisibleTo(user, cropDocs, nextId);
    }

    method FetchUserOffers()
      modifies this`userOffers
      ensures userOffers == OffersVisibleTo(user, cropDocs, offerDocs, nextId)
    {
      userOffers := OffersVisibleTo(user, cropDocs, offerDocs, nextId);
    }

    method FetchUserChats()
      modifies this`chats
      ensures chats == ChatsVisibleTo(user, chatDocs, nextId)
    {
      chats := ChatsVisibleTo(user, chatDocs, nextId);
    }

    method FetchFarmerTransactions()
      modifies this`farmerTransactions
      ensures farmerTransactions == TransactionsVisibleTo(user, cropDocs, transactionDocs, nextId)
    {
      farmerTransactions := TransactionsVisibleTo(user, cropDocs, transactionDocs, nextId);
    }

    // ----- Crops

    /** `addCrop`: only a farmer may list a crop; it is stored as available,
        owned by the farmer, with the form's missing fields defaulted. */
    method AddCrop(input: CropInput, now: Timestamp) returns (r: Result<Crop, StoreError>)
      requires Valid()
      modifies this`cropDocs, this`nextId
      ensures Valid()
      ensures !HasRole(user, Farmer) ==>
        r == Failure(Unauthorized) && cropDocs == old(cropDocs) && nextId == old(nextId)
      ensures HasRole(user, Farmer) ==>
        && r == Success(NewCrop(old(nextId), user.value.id, input, now))
        && cropDocs == old(cropDocs)[old(nextId) := r.value] && old(nextId) !in old(cropDocs)
        && nextId == old(nextId) + 1
    {
      if !HasRole(user, Farmer) {
        return Failure(Unauthorized);
      }
      var crop := NewCrop(nextId, user.value.id, input, now);
      AddCropDoc(crop);
      r := Success(crop);
    }

    /** A merge write of a crop status (`setDoc(..., {merge: true})`): it
        updates the crop, or leaves a status-only document when the id has
        none. */
    method MergeCropStatus(cropId: Id, status: CropStatus)
      requires Valid() && cropId != NoId
      modifies this`cropDocs, this`cropStubs, this`nextId
      ensures Valid()
      ensures cropId in old(cropDocs) ==>
        && cropDocs == old(cropDocs)[cropId := old(cropDocs)[cropId].(status := status)]
        && cropStubs == old(cropStubs) && nextId == old(nextId)
      ensures cropId !in old(cropDocs) ==>
        && cropDocs == old(cropDocs) && cropStubs == old(cropStubs)[cropId := status]
        && nextId == if cropId < old(nextId) then old(nextId) else cropId + 1
    {
      if cropId in cropDocs {
        cropDocs := cropDocs[cropId := cropDocs[cropId].(status := status)];
      } else {
        cropStubs := cropStubs[cropId := status];
        if nextId <= cropId {
          nextId := cropId + 1;
        }
      }
    }

    /** `/mark-crop-sold` of the payment backend, on the same database: a
        missing id is a bad request (400); a crop without a document cannot
        be updated (500); otherwise its status becomes sold (200). */
    method MarkCropSold(cropId: Id) returns (httpStatus: int)
      requires Valid()
      modifies this`cropDocs, this`cropStubs
      ensures Valid()
      ensures cropId == NoId ==> httpStatus == 400 && cropDocs == old(cropDocs) && cropStubs == old(cropStubs)
      ensures cropId != NoId && cropId !in old(cropDocs) && cropId !in old(cropStubs) ==>
        httpStatus == 500 && cropDocs == old(cropDocs) && cropStubs == old(cropStubs)
      ensures cropId in old(cropDocs) ==>
        httpStatus == 200 && cropDocs == old(cropDocs)[cropId := old(cropDocs)[cropId].(status := Sold)]
        && cropStubs == old(cropStubs)
      ensures cropId in old(cropStubs) ==>
        httpStatus == 200 && cropStubs == old(cropStubs)[cropId := Sold] && cropDocs == old(cropDocs)
    {
      if cropId == NoId {
        return 400;
      }
      if cropId in cropDocs {
        cropDocs := cropDocs[cropId := cropDocs[cropId].(status := Sold)];
        httpStatus := 200;
      } else if cropId in cropStubs {
        cropStubs := cropStubs[cropId := Sold];
        httpStatus := 200;
      } else {
        httpStatus := 500;
      }
    }

    // ----- Chats

    /** `createOrGetChat`: with somebody signed in, the first chat of the
        (farmer, retailer, crop) triple is returned, or a new active chat
        without messages is created; either way it becomes the current chat
        and is from then on what the lookup finds. */
    method CreateOrGetChat(cropId: Id, retailerId: Id, farmerId: Id, now: Timestamp)
      returns (r: Result<Chat, StoreError>)
      requires Valid()
      modifies this`chatDocs, this`nextId, this`currentChat
      ensures Valid()
      ensures old(nextId) <= nextId
      ensures user.None? ==>
        r == Failure(Unauthorized) && chatDocs == old(chatDocs) && nextId == old(nextId) && currentChat == old(currentChat)
      ensures user.Some? ==> r.Success? && currentChat == Some(r.value) && Between(r.value, farmerId, retailerId, cropId)
      ensures user.Some? && FirstChat(old(chatDocs), old(nextId), farmerId, retailerId, cropId).Some? ==>
        && Some(r.value.id) == FirstChat(old(chatDocs), old(nextId), farmerId, retailerId, cropId)
        && r.value == old(chatDocs)[r.value.id]
        && chatDocs == old(chatDocs) && nextId == old(nextId)
      ensures user.Some? && FirstChat(old(chatDocs), old(nextId), farmerId, retailerId, cropId).None? ==>
        && r.value == NewChat(old(nextId), now, cropId, farmerId, retailerId)
        && chatDocs == old(chatDocs)[old(nextId) := r.value] && old(nextId) !in old(chatDocs)
        && nextId == old(nextId) + 1
      ensures r.Success? ==>
        r.value.id in chatDocs && chatDocs[r.value.id] == r.value
        && FirstChat(chatDocs, nextId, farmerId, retailerId, cropId) == Some(r.value.id)
    {
      if user.None? {
        return Failure(Unauthorized);
      }
      var found := FirstChat(chatDocs, nextId, farmerId, retailerId, cropId);
      if found.Some? {
        FirstChatIsFirst(chatDocs, nextId, farmerId, retailerId, cropId);
        r := Success(chatDocs[found.value]);
      } else {
        var chat := NewChat(nextId, now, cropId, farmerId, retailerId);
        assert chat.farmerId == farmerId && chat.retailerId == retailerId && chat.cropId == cropId;
        FirstChatAfterAdd(chatDocs, nextId, chat);
        AddChatDoc(chat);
        r := Success(chat);
      }
      currentChat := Some(r.value);
    }

    /** `sendMessage`: with somebody signed in, one message from them is
        written and appended to `messages`. */
    method SendMessage(chatId: Id, content: string, messageType: Option<MessageType>, offerId: Option<Id>,
                       price: Option<int>, now: Timestamp) returns (r: Result<Message, StoreError>)
      requires Valid()
      modifies this`messageDocs, this`nextId, this`messages
      ensures Valid()
      ensures user.None? ==>
        r == Failure(Unauthorized) && messageDocs == old(messageDocs) && nextId == old(nextId) && messages == old(messages)
      ensures user.Some? ==>
        && r == Success(NewMessage(old(nextId), now, chatId, user.value.id, content, messageType, offerId, price))
        && messageDocs == old(messageDocs)[old(nextId) := r.value] && old(nextId) !in old(messageDocs)
        && messages == old(messages) + [r.value]
        && nextId == old(nextId) + 1
    {
      if user.None? {
        return Failure(Unauthorized);
      }
      var m := NewMessage(nextId, now, chatId, user.value.id, content, messageType, offerId, price);
      AddMessageDoc(m);
      messages := messages + [m];
      r := Success(m);
    }

    /** The notification step shared by the offer actions: find or create the
        chat of the triple and send one message into it. Without a signed-in
        user `createOrGetChat` fails and nothing is sent. */
    method PostToChat(cropId: Id, retailerId: Id, farmerId: Id, content: string, kind: MessageType,
                      offerId: Option<Id>, price: Option<int>, now: Timestamp)
      requires Valid()
      modifies this`chatDocs, this`messageDocs, this`nextId, this`currentChat, this`messages
      ensures Valid()
      ensures old(nextId) <= nextId
      ensures user.None? ==> Screen() == old(Screen()) && nextId == old(nextId)
      ensures user.Some? ==> Posted(old(Screen()), Screen(), user.value.id, farmerId, retailerId, cropId, content, kind, offerId, price, now)
    {
      var chat := CreateOrGetChat(cropId, retailerId, farmerId, now);
      if chat.Failure? {
        return;
      }
      FirstChatIsFirst(chatDocs, nextId, farmerId, retailerId, cropId);
      var sent := SendMessage(chat.value.id, content, Some(kind), offerId, price, now);
    }

    /** A note about a crop: the crop's label is read, and the note is posted
        to the chat of the crop's farmer and the retailer when the farmer is
        known (a document holding only a status has none, and the chat
        lookup by an undefined farmer fails). */
    method Notify(cropId: Id, retailerId: Id, note: Note, now: Timestamp)
      requires Valid()
      modifies this`chatDocs, this`messageDocs, this`nextId, this`currentChat, this`messages
      ensures Valid()
      ensures old(nextId) <= nextId
      ensures Notified(old(Screen()), Screen(), user, LabelOf(cropDocs, cropStubs, cropId), cropId, retailerId, note, now)
      ensures !Reaches(user, LabelOf(cropDocs, cropStubs, cropId)) ==> nextId == old(nextId)
    {
      var tag := LabelOf(cropDocs, cropStubs, cropId);
      if tag.farmerId.Some? {
        PostToChat(cropId, retailerId, tag.farmerId.value, note.Text(tag), note.Kind(), note.OfferRef(),
                   note.PriceRef(), now);
      }
    }

    // ----- Offers

    /** `makeOffer`: only a retailer may offer, and only once per crop (an
        earlier offer of any status blocks a new one); otherwise the offer is
        placed (`OfferPlaced`). Either way an offer is on record for the
        retailer and the crop afterwards. */
    method MakeOffer(cropId: Id, price: int, message: string, now: Timestamp) returns (r: Result<Offer, StoreError>)
      requires Valid()
      modifies this`offerDocs, this`chatDocs, this`messageDocs, this`nextId, this`currentChat, this`messages, this`chats
      ensures Valid()
      ensures !HasRole(user, Retailer) ==> r == Failure(Unauthorized) && unchanged(this)
      ensures HasRole(user, Retailer) && HasOffer(old(offerDocs), old(nextId), cropId, user.value.id) ==>
        r == Failure(DuplicateOffer) && unchanged(this)
      ensures HasRole(user, Retailer) && !HasOffer(old(offerDocs), old(nextId), cropId, user.value.id) ==>
        OfferPlaced(cropId, price, message, now, r)
      ensures HasRole(user, Retailer) ==> HasOffer(offerDocs, nextId, cropId, user.value.id)
    {
      if !HasRole(user, Retailer) {
        return Failure(Unauthorized);
      }
      if HasOffer(offerDocs, nextId, cropId, user.value.id) {
        return Failure(DuplicateOffer);
      }
      r := PlaceOffer(cropId, price, message, now);
    }

    /** The offer `makeOffer` places: a new pending offer of the signed-in
        retailer; an invalid crop reference then fails, otherwise the note
        about the offer goes to the crop's chat and the chat list is
        refreshed when it did. */
    twostate predicate OfferPlaced(cropId: Id, price: int, message: string, now: Timestamp, new r: Result<Offer, StoreError>)
      reads this
    {
      && user.Some?
      && var offer := NewOffer(old(nextId), now, cropId, user.value.id, price, message);
      && old(nextId) !in old(offerDocs)
      && offerDocs == old(offerDocs)[offer.id := offer]
      && (cropId == NoId ==> r == Failure(InvalidDocumentPath) && Screen() == old(Screen()) && chats == old(chats))
      && (cropId != NoId ==>
            && r == Success(offer)
            && Notified(old(Screen()), Screen(), user, LabelOf(cropDocs, cropStubs, cropId), cropId, user.value.id, OfferNote(offer.id, price), now)
            && chats == if Reaches(user, LabelOf(cropDocs, cropStubs, cropId)) then ChatsVisibleTo(user, chatDocs, nextId) else old(chats))
    }

    method PlaceOffer(cropId: Id, price: int, message: string, now: Timestamp) returns (r: Result<Offer, StoreError>)
      requires Valid() && user.Some?
      modifies this`offerDocs, this`chatDocs, this`messageDocs, this`nextId, this`currentChat, this`messages, this`chats
      ensures Valid()
      ensures OfferPlaced(cropId, price, message, now, r)
      ensures HasOffer(offerDocs, nextId, cropId, user.value.id)
    {
      var offer := NewOffer(nextId, now, cropId, user.value.id, price, message);
      AddOfferDoc(offer);
      if cropId != NoId {
        AnnounceOffer(offer, now);
        r := Success(offer);
      } else {
        r := Failure(InvalidDocumentPath);
      }
      HasOfferWitness(offerDocs, nextId, offer.id);
    }

    /** The offer message of `makeOffer`, after which the chat list is
        refreshed if the message went out. */
    method AnnounceOffer(offer: Offer, now: Timestamp)
      requires Valid()
      modifies this`chatDocs, this`messageDocs, this`nextId, this`currentChat, this`messages, this`chats
      ensures Valid()
      ensures old(nextId) <= nextId
      ensures Notified(old(Screen()), Screen(), user, LabelOf(cropDocs, cropStubs, offer.cropId), offer.cropId,
                       offer.retailerId, OfferNote(offer.id, offer.price), now)
      ensures chats == if Reaches(user, LabelOf(cropDocs, cropStubs, offer.cropId))
                       then ChatsVisibleTo(user, chatDocs, nextId) else old(chats)
    {
      Notify(offer.cropId, offer.retailerId, OfferNote(offer.id, offer.price), now);
      if user.Some? && LabelOf(cropDocs, cropStubs, offer.cropId).farmerId.Some? {
        FetchUserChats();
      }
    }

    /** `updateOfferPrice`: the checks fail in this order: the caller is not
        a retailer, the offer reference is invalid, the offer does not exist,
        it is not the caller's (a document holding only a status belongs to
        nobody), it is not pending. Otherwise the offer is repriced
        (`Repriced`). */
    method UpdateOfferPrice(offerId: Id, newPrice: int, now: Timestamp) returns (r: Result<Offer, StoreError>)
      requires Valid()
      modifies this`offerDocs, this`chatDocs, this`messageDocs, this`nextId, this`currentChat, this`messages
      ensures Valid()
      ensures !HasRole(user, Retailer) ==> r == Failure(Unauthorized) && unchanged(this)
      ensures HasRole(user, Retailer) && offerId == NoId ==> r == Failure(InvalidDocumentPath) && unchanged(this)
      ensures HasRole(user, Retailer) && offerId != NoId && offerId !in old(offerDocs) ==>
        r == (if offerId in offerStubs then Failure(NotOfferOwner) else Failure(OfferNotFound)) && unchanged(this)
      ensures HasRole(user, Retailer) && offerId in old(offerDocs) && old(offerDocs)[offerId].retailerId != user.value.id ==>
        r == Failure(NotOfferOwner) && unchanged(this)
      ensures HasRole(user, Retailer) && offerId in old(offerDocs) && old(offerDocs)[offerId].retailerId == user.value.id
              && old(offerDocs)[offerId].status != OfferStatus.Pending ==>
        r == Failure(OfferNotPending) && unchanged(this)
      ensures r.Success? <==>
        HasRole(user, Retailer) && offerId in old(offerDocs) && old(offerDocs)[offerId].retailerId == user.value.id
        && old(offerDocs)[offerId].status == OfferStatus.Pending
      ensures r.Success? ==> Repriced(offerId, newPrice, now, r.value)
    {
      if !HasRole(user, Retailer) {
        return Failure(Unauthorized);
      }
      if offerId == NoId {
        return Failure(InvalidDocumentPath);
      }
      if offerId !in offerDocs {
        return if offerId in offerStubs then Failure(NotOfferOwner) else Failure(OfferNotFound);
      }
      var offer := offerDocs[offerId];
      if offer.retailerId != user.value.id {
        return Failure(NotOfferOwner);
      }
      if offer.status != OfferStatus.Pending {
        return Failure(OfferNotPending);
      }
      var updated := Reprice(offerId, newPrice, now);
      r := Success(updated);
    }

    /** A repriced offer: only its price changed, and the note about the new
        price went to the crop's chat unless the crop reference is invalid
        (the note is best effort and changes nothing in the result). */
    twostate predicate Repriced(offerId: Id, newPrice: int, now: Timestamp, new updated: Offer)
      reads this
    {
      && user.Some? && offerId in old(offerDocs)
      && updated == old(offerDocs)[offerId].(price := newPrice)
      && offerDocs == old(offerDocs)[offerId := updated]
      && (updated.cropId == NoId ==> Screen() == old(Screen()))
      && (updated.cropId != NoId ==>
            Notified(old(Screen()), Screen(), user, LabelOf(cropDocs, cropStubs, updated.cropId), updated.cropId,
                     user.value.id, NegotiationNote(offerId, newPrice), now))
    }

    method Reprice(offerId: Id, newPrice: int, now: Timestamp) returns (updated: Offer)
      requires Valid() && user.Some? && offerId in offerDocs
      modifies this`offerDocs, this`chatDocs, this`messageDocs, this`nextId, this`currentChat, this`messages
      ensures Valid()
      ensures Repriced(offerId, newPrice, now, updated)
    {
      updated := offerDocs[offerId].(price := newPrice);
      offerDocs := offerDocs[offerId := updated];
      if updated.cropId != NoId {
        Notify(updated.cropId, user.value.id, NegotiationNote(offerId, newPrice), now);
      }
    }

    /** A merge write of an offer status: it updates the offer, or leaves a
        status-only document when the id has none. */
    method MergeOfferStatus(offerId: Id, status: OfferStatus)
      requires Valid() && offerId != NoId
      modifies this`offerDocs, this`offerStubs, this`nextId
      ensures Valid()
      ensures offerId in old(offerDocs) ==>
        && offerDocs == old(offerDocs)[offerId := old(offerDocs)[offerId].(status := status)]
        && offerStubs == old(offerStubs) && nextId == old(nextId)
      ensures offerId !in old(offerDocs) ==>
        && offerDocs == old(offerDocs) && offerStubs == old(offerStubs)[offerId := status]
        && nextId == if offerId < old(nextId) then old(nextId) else offerId + 1
    {
      if offerId in offerDocs {
        offerDocs := offerDocs[offerId := offerDocs[offerId].(status := status)];
      } else {
        offerStubs := offerStubs[offerId := status];
        if nextId <= offerId {
          nextId := offerId + 1;
        }
      }
    }

    /** The batch of `respondToOffer` that rejects the pending offers on a
        crop other than the accepted one, one query result at a time. */
    method RejectSiblings(cropId: Id, accepted: Id)
      requires Valid()
      modifies this`offerDocs
      ensures Valid()
      ensures offerDocs == RejectPendingSiblings(old(offerDocs), cropId, accepted)
    {
      var ids := IdsWhere(offerDocs, PendingOn(cropId), nextId);
      IdsWhereSpec(offerDocs, PendingOn(cropId), nextId);
      ghost var before := offerDocs;
      var docs := offerDocs;
      var i := 0;
      while i < |ids|
        invariant 0 <= i <= |ids|
        invariant docs == RejectAmong(before, ids[..i], accepted)
      {
        assert ids[..i + 1][..i] == ids[..i];
        if ids[i] != accepted && ids[i] in docs {
          docs := docs[ids[i] := docs[ids[i]].(status := Rejected)];
        }
        i := i + 1;
      }
      assert ids[..i] == ids;
      RejectAmongQuery(before, nextId, cropId, accepted);
      RejectPendingSiblingsSpec(before, cropId, accepted);
      offerDocs := docs;
    }

    /** `respondToOffer`: there is no check of role or ownership. The offer's
        status is written first (a merge write, so a missing offer gets a
        status-only document), and a rejection ends there. An acceptance then
        reads the offer back and, when it names a crop, completes the sale
        (`CropReserved`, `SaleRecorded`). Success refetches the offers and the crops. */
    method RespondToOffer(offerId: Id, decision: Decision, now: Timestamp) returns (r: Result<(), StoreError>)
      requires Valid()
      modifies this`offerDocs, this`offerStubs, this`cropDocs, this`cropStubs, this`transactionDocs, this`chatDocs
      modifies this`messageDocs, this`nextId, this`crops, this`userOffers, this`currentChat, this`messages
      ensures Valid()
      ensures offerId == NoId ==> r == Failure(InvalidDocumentPath) && unchanged(this)
      ensures r.Success? ==> OffersFetched() && CropsFetched()
      // After an acceptance that reached the crop, the crops shown are the
      // ones refetched after the crop's status changed, whatever the outcome.
      ensures offerId in old(offerDocs) && decision == Accept && old(offerDocs)[offerId].cropId != NoId ==> CropsFetched()
      // The status write, when the offer has no document.
      ensures offerId != NoId && offerId !in old(offerDocs) ==>
        && offerDocs == old(offerDocs) && offerStubs == old(offerStubs)[offerId := decision.Status()]
        && cropDocs == old(cropDocs) && cropStubs == old(cropStubs) && transactionDocs == old(transactionDocs)
        && Screen() == old(Screen())
        && (decision == Reject ==> r == Success(()))
        && (decision == Accept ==> r == Failure(InvalidDocumentPath) && crops == old(crops) && userOffers == old(userOffers))
      // A rejection of an offer with a document.
      ensures offerId in old(offerDocs) && decision == Reject ==>
        && r == Success(())
        && offerDocs == old(offerDocs)[offerId := old(offerDocs)[offerId].(status := Rejected)]
        && offerStubs == old(offerStubs) && cropDocs == old(cropDocs) && cropStubs == old(cropStubs)
        && transactionDocs == old(transactionDocs) && Screen() == old(Screen()) && nextId == old(nextId)
      // An acceptance of an offer whose crop reference is empty.
      ensures offerId in old(offerDocs) && decision == Accept && old(offerDocs)[offerId].cropId == NoId ==>
        && r == Failure(InvalidDocumentPath)
        && offerDocs == old(offerDocs)[offerId := old(offerDocs)[offerId].(status := Accepted)]
        && offerStubs == old(offerStubs) && cropDocs == old(cropDocs) && cropStubs == old(cropStubs)
        && transactionDocs == old(transactionDocs) && Screen() == old(Screen()) && nextId == old(nextId)
        && crops == old(crops) && userOffers == old(userOffers)
      // An acceptance of an offer on a crop.
      ensures offerId in old(offerDocs) && decision == Accept && old(offerDocs)[offerId].cropId != NoId ==>
        && offerStubs == old(offerStubs)
        && CropReserved(old(offerDocs)[offerId].(status := Accepted),
                        old(offerDocs)[offerId := old(offerDocs)[offerId].(status := Accepted)], offerDocs,
                        old(cropDocs), cropDocs, old(cropStubs), cropStubs)
        && SaleRecorded(user, LabelOf(cropDocs, cropStubs, old(offerDocs)[offerId].cropId),
                        old(offerDocs)[offerId].(status := Accepted),
                        old(transactionDocs), transactionDocs, old(Screen()), Screen(), now, r)
    {
      if offerId == NoId {
        return Failure(InvalidDocumentPath);
      }
      if decision == Reject {
        DeclineOffer(offerId);
        r := Success(());
      } else {
        r := AcceptOffer(offerId, now);
      }
    }

    /** The rejection branch of `respondToOffer`. */
    method DeclineOffer(offerId: Id)
      requires Valid() && offerId != NoId
      modifies this`offerDocs, this`offerStubs, this`nextId, this`crops, this`userOffers
      ensures Valid()
      ensures OffersFetched() && CropsFetched()
      ensures offerId !in old(offerDocs) ==>
        offerDocs == old(offerDocs) && offerStubs == old(offerStubs)[offerId := Rejected]
      ensures offerId in old(offerDocs) ==>
        && offerDocs == old(offerDocs)[offerId := old(offerDocs)[offerId].(status := Rejected)]
        && offerStubs == old(offerStubs) && nextId == old(nextId)
    {
      MergeOfferStatus(offerId, Rejected);
      Refetch();
    }

    /** The acceptance branch of `respondToOffer`. */
    method AcceptOffer(offerId: Id, now: Timestamp) returns (r: Result<(), StoreError>)
      requires Valid() && offerId != NoId
      modifies this`offerDocs, this`offerStubs, this`cropDocs, this`cropStubs, this`transactionDocs, this`chatDocs
      modifies this`messageDocs, this`nextId, this`crops, this`userOffers, this`currentChat, this`messages
      ensures Valid()
      ensures r.Success? ==> OffersFetched() && CropsFetched()
      ensures offerId in old(offerDocs) && old(offerDocs)[offerId].cropId != NoId ==> CropsFetched()
      ensures offerId !in old(offerDocs) ==>
        && offerDocs == old(offerDocs) && offerStubs == old(offerStubs)[offerId := Accepted]
        && cropDocs == old(cropDocs) && cropStubs == old(cropStubs) && transactionDocs == old(transactionDocs)
        && Screen() == old(Screen()) && r == Failure(InvalidDocumentPath) && crops == old(crops)
        && userOffers == old(userOffers)
      ensures offerId in old(offerDocs) && old(offerDocs)[offerId].cropId == NoId ==>
        && r == Failure(InvalidDocumentPath)
        && offerDocs == old(offerDocs)[offerId := old(offerDocs)[offerId].(status := Accepted)]
        && offerStubs == old(offerStubs) && cropDocs == old(cropDocs) && cropStubs == old(cropStubs)
        && transactionDocs == old(transactionDocs) && Screen() == old(Screen()) && nextId == old(nextId)
        && crops == old(crops) && userOffers == old(userOffers)
      ensures offerId in old(offerDocs) && old(offerDocs)[offerId].cropId != NoId ==>
        && offerStubs == old(offerStubs)
        && CropReserved(old(offerDocs)[offerId].(status := Accepted),
                        old(offerDocs)[offerId := old(offerDocs)[offerId].(status := Accepted)], offerDocs,
                        old(cropDocs), cropDocs, old(cropStubs), cropStubs)
        && SaleRecorded(user, LabelOf(cropDocs, cropStubs, old(offerDocs)[offerId].cropId),
                        old(offerDocs)[offerId].(status := Accepted),
                        old(transactionDocs), transactionDocs, old(Screen()), Screen(), now, r)
    {
      MergeOfferStatus(offerId, Accepted);
      if offerId !in offerDocs {
        // The status-only document has no crop id to follow.
        return Failure(InvalidDocumentPath);
      }
      var offer := offerDocs[offerId];
      if offer.cropId == NoId {
        return Failure(InvalidDocumentPath);
      }
      r := CompleteAcceptance(offer, now);
    }

    /** The refetch of the offers and the crops after a response. */
    method Refetch()
      requires Valid()
      modifies this`crops, this`userOffers
      ensures Valid()
      ensures OffersFetched() && CropsFetched()
    {
      FetchUserOffers();
      FetchCrops();
    }

    method CompleteAcceptance(offer: Offer, now: Timestamp) returns (r: Result<(), StoreError>)
      requires Valid() && offer.id in offerDocs && offerDocs[offer.id] == offer && offer.cropId != NoId
      modifies this`offerDocs, this`cropDocs, this`cropStubs, this`transactionDocs, this`chatDocs
      modifies this`messageDocs, this`nextId, this`crops, this`userOffers, this`currentChat, this`messages
      ensures Valid()
      ensures CropReserved(offer, old(offerDocs), offerDocs, old(cropDocs), cropDocs, old(cropStubs), cropStubs)
      ensures SaleRecorded(user, LabelOf(cropDocs, cropStubs, offer.cropId), offer, old(transactionDocs), transactionDocs,
                           old(Screen()), Screen(), now, r)
      ensures CropsFetched()
      ensures r.Success? ==> OffersFetched()
    {
      ghost var screen := Screen();
      ghost var transactions := transactionDocs;
      ReserveCrop(offer);
      r := FinishSale(offer, now, screen, transactions);
    }

    /** The sale is recorded and, when that succeeds, the offers and the
        crops are refetched. */
    method FinishSale(offer: Offer, now: Timestamp, ghost screen: ChatScreen, ghost transactions: map<Id, Transaction>)
      returns (r: Result<(), StoreError>)
      requires Valid() && Screen() == screen && transactionDocs == transactions
      modifies this`transactionDocs, this`chatDocs, this`messageDocs, this`nextId, this`currentChat, this`messages
      modifies this`crops, this`userOffers
      ensures Valid()
      ensures SaleRecorded(user, LabelOf(cropDocs, cropStubs, offer.cropId), offer, transactions, transactionDocs,
                           screen, Screen(), now, r)
      ensures offerDocs == old(offerDocs) && cropDocs == old(cropDocs) && cropStubs == old(cropStubs)
      ensures r.Failure? ==> nextId == old(nextId) && crops == old(crops)
      ensures r.Success? ==> OffersFetched() && CropsFetched()
    {
      r := RecordSale(offer, now);
      if r.Success? {
        Refetch();
      }
    }

    method ReserveCrop(offer: Offer)
      requires Valid() && offer.cropId != NoId
      modifies this`offerDocs, this`cropDocs, this`cropStubs, this`nextId, this`crops
      ensures Valid()
      ensures CropReserved(offer, old(offerDocs), offerDocs, old(cropDocs), cropDocs, old(cropStubs), cropStubs)
      ensures CropsFetched()
    {
      MergeCropStatus(offer.cropId, CropStatus.Pending);
      FetchCrops();
      RejectSiblings(offer.cropId, offer.id);
    }

    method RecordSale(offer: Offer, now: Timestamp) returns (r: Result<(), StoreError>)
      requires Valid()
      modifies this`transactionDocs, this`chatDocs, this`messageDocs, this`nextId, this`currentChat, this`messages
      ensures Valid()
      ensures SaleRecorded(user, LabelOf(cropDocs, cropStubs, offer.cropId), offer, old(transactionDocs), transactionDocs,
                           old(Screen()), Screen(), now, r)
      ensures offerDocs == old(offerDocs) && cropDocs == old(cropDocs) && cropStubs == old(cropStubs)
      ensures r.Failure? ==> nextId == old(nextId)
    {
      var tag := LabelOf(cropDocs, cropStubs, offer.cropId);
      Notify(offer.cropId, offer.retailerId, AcceptanceNote(offer.price), now);
      if tag.farmerId.None? {
        // The transaction cannot be written with an undefined farmer.
        return Failure(UndefinedField);
      }
      var t := NewTransaction(nextId, now, offer, tag.farmerId.value);
      AddTransactionDoc(t);
      r := Success(());
    }
  }
}
