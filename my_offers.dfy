/** The retailer's offer list (`src/pages/retailer/MyOffers.tsx`): the
    retailer's offers newest first, each with the details of its crop and
    farmer, the status tabs with their counts, and the action each row
    offers. */
module MyOffers {
  import opened Basics
  import opened Store

  function OfferCreatedAt(o: Offer): int {
    o.createdAt
  }

  /** The offers query: the signed-in retailer's offers, newest first;
      without a user nothing is fetched. */
  function RetailerOffers(user: Option<User>, all: seq<Offer>): (r: seq<Offer>)
    ensures user.None? ==> r == []
    ensures user.Some? ==> forall o :: o in r <==> o in all && o.retailerId == user.value.id
    ensures user.Some? ==> multiset(r) == multiset(Filter(all, MadeBy(user.value.id)))
    ensures SortedDesc(r, OfferCreatedAt)
  {
    if user.None? then []
    else
      var mine := Filter(all, MadeBy(user.value.id));
      FilterMembers(all, MadeBy(user.value.id));
      var r := SortDesc(mine, OfferCreatedAt);
      assert forall o :: o in r <==> o in multiset(mine);
      r
  }

  // ---------------------------------------------------------------------
  // Crop and farmer details of a row

  /** The crop part of a row, with its farmer when one was found. */
  datatype CropInfo = CropInfo(
    id: Id, name: string, quantity: int, unit: string, location: string,
    description: string, farmer: Option<User>)

  const UnknownCrop := "Unknown Crop"

  /** What a row shows when its crop cannot be read. */
  function Placeholder(cropId: Id): (info: CropInfo)
    ensures info.id == cropId && info.name == UnknownCrop && info.quantity == 0 && info.farmer.None?
  {
    CropInfo(cropId, UnknownCrop, 0, "", "", "", None)
  }

  /** The details of one offer. The crop's name falls back to "Unknown Crop"
      when empty; the farmer is looked up only for a non-empty farmer id. A
      missing crop, or a lookup that fails (`lookupOk` false, the `catch`
      branch), gives the placeholder. */
  function Details(o: Offer, crops: map<Id, Crop>, users: map<Id, User>, lookupOk: bool): (info: CropInfo)
    ensures info.id == o.cropId
    ensures !lookupOk || o.cropId !in crops ==> info == Placeholder(o.cropId)
    ensures lookupOk && o.cropId in crops ==>
              info.quantity == crops[o.cropId].quantity
              && info.name == (if crops[o.cropId].name == "" then UnknownCrop else crops[o.cropId].name)
              && (info.farmer.Some? <==> crops[o.cropId].farmerId != NoId && crops[o.cropId].farmerId in users)
  {
    if !lookupOk || o.cropId !in crops then Placeholder(o.cropId)
    else
      var c := crops[o.cropId];
      var farmer := if c.farmerId != NoId && c.farmerId in users then Some(users[c.farmerId]) else None;
      CropInfo(o.cropId, if c.name == "" then UnknownCrop else c.name, c.quantity,
               c.unit, c.location, c.description, farmer)
  }

  /** The farmer column: the farmer's name, or "Unknown". */
  function FarmerLabel(info: CropInfo): (s: string)
    ensures s != ""
    ensures info.farmer.None? ==> s == "Unknown"
  {
    if info.farmer.Some? && info.farmer.value.name != "" then info.farmer.value.name else "Unknown"
  }

  /** The total of a row: the offered unit price times the crop quantity. */
  function OfferTotal(o: Offer, info: CropInfo): int {
    o.price * info.quantity
  }

  /** A row whose crop is missing or unreadable still shows, as an unknown
      crop of an unknown farmer with a total of 0, and keeps the crop id its
      links use. */
  lemma {:induction false} MissingCropRow(o: Offer, crops: map<Id, Crop>, users: map<Id, User>, lookupOk: bool)
    requires !lookupOk || o.cropId !in crops
    ensures var info := Details(o, crops, users, lookupOk);
            OfferTotal(o, info) == 0 && info.name == UnknownCrop && FarmerLabel(info) == "Unknown"
            && info.id == o.cropId
  {
  }

  /** A row whose crop was read shows the real total, price times the
      crop's quantity. */
  lemma {:induction false} FoundCropTotal(o: Offer, crops: map<Id, Crop>, users: map<Id, User>)
    requires o.cropId in crops
    ensures OfferTotal(o, Details(o, crops, users, true)) == o.price * crops[o.cropId].quantity
  {
  }

  // ---------------------------------------------------------------------
  // Tabs

  datatype Tab = AllTab | StatusTab(status: OfferStatus)

  function HasStatus(s: OfferStatus): Offer -> bool {
    (o: Offer) => o.status == s
  }

  /** `filteredOffers`: every offer on the "all" tab, otherwise exactly the
      offers with the tab's status. */
  function TabOffers(offers: seq<Offer>, tab: Tab): (r: seq<Offer>)
    ensures tab == AllTab ==> r == offers
    ensures forall o :: o in r <==> o in offers && (tab.AllTab? || o.status == tab.status)
    ensures |r| <= |offers|
  {
    if tab == AllTab then offers
    else
      FilterMembers(offers, HasStatus(tab.status));
      Filter(offers, HasStatus(tab.status))
  }

  /** The tab keeps the order of the list. */
  lemma {:induction false} TabKeepsOrder(a: seq<Offer>, b: seq<Offer>, tab: Tab)
    ensures TabOffers(a + b, tab) == TabOffers(a, tab) + TabOffers(b, tab)
  {
    if tab.StatusTab? {
      FilterAppend(a, b, HasStatus(tab.status));
    }
  }

  /** The count in a tab's button. */
  function TabCount(offers: seq<Offer>, tab: Tab): (n: nat)
    ensures n == |TabOffers(offers, tab)|
  {
    match tab
    case AllTab => |offers|
    case StatusTab(s) => Count(offers, HasStatus(s))
  }

  /** The four status counts add up to the "All Offers" count: every offer
      has exactly one of the four statuses. */
  lemma {:induction false} CountsAddUp(offers: seq<Offer>)
    ensures TabCount(offers, StatusTab(OfferStatus.Pending)) + TabCount(offers, StatusTab(Accepted))
            + TabCount(offers, StatusTab(Rejected)) + TabCount(offers, StatusTab(OfferStatus.Completed))
            == TabCount(offers, AllTab)
  {
    if offers != [] {
      CountsAddUp(offers[1..]);
    }
  }

  function StatusName(s: OfferStatus): string {
    match s
    case Pending => "pending"
    case Accepted => "accepted"
    case Rejected => "rejected"
    case Completed => "completed"
  }

  /** The text of an empty tab, and whether it links to the crops. */
  datatype EmptyView = EmptyView(text: string, browseLink: bool)

  function EmptyTab(tab: Tab): (v: EmptyView)
    ensures v.browseLink <==> tab.AllTab?
    ensures tab.StatusTab? ==> v.text == "You don't have any " + StatusName(tab.status) + " offers."
  {
    match tab
    case AllTab => EmptyView("You haven't made any offers yet.", true)
    case StatusTab(s) => EmptyView("You don't have any " + StatusName(s) + " offers.", false)
  }

  // ---------------------------------------------------------------------
  // Row actions

  datatype Action =
    | CompletePurchase(checkoutOffer: Id)   // a link to /retailer/checkout/<offer id>
    | WaitingForResponse
    | MakeNewOffer(cropPage: Id)            // a link to /retailer/crop/<crop id>
    | PurchaseComplete

  /** The action cell of a row, by the offer's status. */
  function ActionFor(o: Offer, info: CropInfo): (a: Action)
    ensures a.CompletePurchase? <==> o.status == Accepted
    ensures a.CompletePurchase? ==> a.checkoutOffer == o.id
    ensures a.MakeNewOffer? <==> o.status == Rejected
    ensures a.MakeNewOffer? ==> a.cropPage == info.id
    ensures a == WaitingForResponse <==> o.status == OfferStatus.Pending
    ensures a == PurchaseComplete <==> o.status == OfferStatus.Completed
  {
    match o.status
    case Accepted => CompletePurchase(o.id)
    case Pending => WaitingForResponse
    case Rejected => MakeNewOffer(info.id)
    case Completed => PurchaseComplete
  }

  /** The status an action belongs to. */
  function ActionStatus(a: Action): OfferStatus {
    match a
    case CompletePurchase(_) => Accepted
    case WaitingForResponse => OfferStatus.Pending
    case MakeNewOffer(_) => Rejected
    case PurchaseComplete => OfferStatus.Completed
  }

  /** The action tells the status apart: reading the status back from the
      action gives the offer's status, so rows of different statuses never
      share an action. */
  lemma {:induction false} ActionShowsStatus(o: Offer, info: CropInfo, p: Offer, pinfo: CropInfo)
    ensures ActionStatus(ActionFor(o, info)) == o.status
    ensures o.status != p.status ==> ActionFor(o, info) != ActionFor(p, pinfo)
  {
    assert ActionStatus(ActionFor(p, pinfo)) == p.status;
  }

  /** A rejected offer's link leads to the crop the row shows, which for a
      readable crop is the crop the offer was made on. */
  lemma {:induction false} NewOfferLinksToCrop(o: Offer, crops: map<Id, Crop>, users: map<Id, User>, lookupOk: bool)
    requires o.status == Rejected
    ensures ActionFor(o, Details(o, crops, users, lookupOk)) == MakeNewOffer(o.cropId)
  {
  }
}
