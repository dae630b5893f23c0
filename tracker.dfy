/** The delivery tracker of a paid sale (`src/components/LocationTracker.tsx`):
    the screen state `deliveryStatus`, `isSharingLocation` and `watchId`, the
    `delivery_tracking` document of the sale, and the buttons the screen offers.

    The delivery moves `InTransit -> Delivered -> Acknowledged`: the farmer
    marks it delivered, the retailer confirms receipt. Geolocation is outside
    the model: a watch is a number handed out by the platform, and a position
    fix is a call of `OnPosition` with the coordinates and the clock reading. */
module Delivery {
  import opened Basics
  import opened Store

  datatype DeliveryStatus = InTransit | Delivered | Acknowledged

  /** A coordinate pair (the source's floating-point degrees, as integers). */
  datatype Point = Point(latitude: int, longitude: int)

  /** What a position fix writes into the tracking document. The names are the
      camel-case fields of that write, distinct from the snake-case fields the
      payment step wrote when it created the document. */
  datatype Sample = Sample(location: Point, timestamp: Timestamp, farmerId: Id, retailerId: Id, offerId: Id)

  /** A `delivery_tracking` document. */
  datatype TrackingDoc = TrackingDoc(
    transactionId: Id, offerId: Id, farmerId: Option<Id>, retailerId: Option<Id>,
    status: DeliveryStatus, createdAt: Timestamp, lastUpdated: Timestamp,
    sample: Option<Sample>, deliveredAt: Option<Timestamp>, acknowledgedAt: Option<Timestamp>)

  /** How far along the delivery is. */
  function Rank(s: DeliveryStatus): (n: nat)
    ensures n <= 2
    ensures s == InTransit <==> n == 0
    ensures s == Acknowledged <==> n == 2
  {
    match s
    case InTransit => 0
    case Delivered => 1
    case Acknowledged => 2
  }

  /** The status the screen starts in. */
  function InitialStatus(isDeliveryComplete: bool): (s: DeliveryStatus)
    ensures s != Delivered
    ensures s == Acknowledged <==> isDeliveryComplete
  {
    if isDeliveryComplete then Acknowledged else InTransit
  }

  datatype Button = StartSharingButton | StopSharingButton | MarkCompleteButton | ConfirmReceivedButton

  /** The buttons the tracker shows: the farmer's controls only while the
      goods are in transit (start when not sharing, stop and complete while
      sharing), the retailer's confirmation only once they are delivered. */
  function Offered(role: Option<Role>, status: DeliveryStatus, sharing: bool): (r: set<Button>)
    ensures StartSharingButton in r <==> role == Some(Farmer) && status == InTransit && !sharing
    ensures MarkCompleteButton in r <==> role == Some(Farmer) && status == InTransit && sharing
    ensures StopSharingButton in r <==> MarkCompleteButton in r
    ensures ConfirmReceivedButton in r <==> role == Some(Retailer) && status == Delivered
  {
    if role == Some(Farmer) && status == InTransit then
      (if sharing then {StopSharingButton, MarkCompleteButton} else {StartSharingButton})
    else if role == Some(Retailer) && status == Delivered then {ConfirmReceivedButton}
    else {}
  }

  /** The status a successful press of a button leaves behind. */
  function StatusAfter(b: Button, s: DeliveryStatus): (t: DeliveryStatus)
    ensures b == MarkCompleteButton ==> t == Delivered
    ensures b == ConfirmReceivedButton ==> t == Acknowledged
    ensures b == StartSharingButton || b == StopSharingButton ==> t == s
  {
    match b
    case MarkCompleteButton => Delivered
    case ConfirmReceivedButton => Acknowledged
    case _ => s
  }

  /** Through the buttons it offers, the tracker only moves the delivery
      forward, one step at a time, and a confirmed delivery offers nothing. */
  lemma {:induction false} OfferedStepsAdvance(role: Option<Role>, s: DeliveryStatus, sharing: bool, b: Button)
    requires b in Offered(role, s, sharing)
    ensures Rank(s) <= Rank(StatusAfter(b, s)) <= Rank(s) + 1
    ensures (b == MarkCompleteButton || b == ConfirmReceivedButton) ==> Rank(StatusAfter(b, s)) == Rank(s) + 1
    ensures s != Acknowledged
  {
    match b
    case MarkCompleteButton =>
      assert s == InTransit;
    case ConfirmReceivedButton =>
      assert s == Delivered;
    case _ =>
  }

  /** The watches an id stands for: none, or the one it names. */
  function Watching(id: Option<nat>): set<nat> {
    if id.Some? then {id.value} else {}
  }

  class DeliveryTracker {
    const role: Option<Role>
    const transactionId: Id
    const offerId: Id
    const farmerId: Id
    const retailerId: Id

    var deliveryStatus: DeliveryStatus
    var isSharing: bool
    var watchId: Option<nat>
    /** The position last shown on screen, with its clock reading. */
    var location: Option<(Point, Timestamp)>
    /** The watches the platform is running for this screen. */
    var liveWatches: set<nat>
    /** The status and watch id as they were when sharing started: the
        position callbacks see these, not later ones. */
    var capturedStatus: DeliveryStatus
    var capturedWatchId: Option<nat>
    /** The tracking document of the sale in the database, if it exists. */
    var record: Option<TrackingDoc>

    /** The only watch running is the one `watchId` names: the effect keyed
        on `watchId` clears the previous watch whenever the id changes, so
        no watch outlives its id while the screen is mounted. */
    ghost predicate Valid()
      reads this
    {
      liveWatches == Watching(watchId)
    }

    /** A write to the tracking document succeeds when its reference is valid,
        the document exists and the database accepts it. */
    predicate Writable(writeOk: bool)
      reads this`record
    {
      transactionId != NoId && record.Some? && writeOk
    }

    constructor (role: Option<Role>, transactionId: Id, offerId: Id, farmerId: Id, retailerId: Id,
                 isDeliveryComplete: bool, record: Option<TrackingDoc>)
      ensures Valid()
      ensures this.role == role && this.transactionId == transactionId && this.offerId == offerId
      ensures this.farmerId == farmerId && this.retailerId == retailerId && this.record == record
      ensures deliveryStatus == InitialStatus(isDeliveryComplete)
      ensures !isSharing && watchId.None? && location.None? && liveWatches == {}
    {
      this.role := role;
      this.transactionId := transactionId;
      this.offerId := offerId;
      this.farmerId := farmerId;
      this.retailerId := retailerId;
      this.record := record;
      deliveryStatus := InitialStatus(isDeliveryComplete);
      isSharing := false;
      watchId := None;
      location := None;
      liveWatches := {};
      capturedStatus := InitialStatus(isDeliveryComplete);
      capturedWatchId := None;
    }

    function Controls(): (r: set<Button>)
      reads this`deliveryStatus, this`isSharing
      ensures r == Offered(role, deliveryStatus, isSharing)
    {
      Offered(role, deliveryStatus, isSharing)
    }

    /** `setWatchId(next)` followed by the effect keyed on `watchId`: when
        the id changes, the cleanup of the previous render clears the watch
        that render saw; setting the same id again re-runs nothing. */
    method SetWatchId(next: Option<nat>)
      modifies this`watchId, this`liveWatches
      ensures watchId == next
      ensures liveWatches == if old(watchId) != next then old(liveWatches) - Watching(old(watchId)) else old(liveWatches)
    {
      if watchId != next {
        liveWatches := liveWatches - Watching(watchId);
      }
      watchId := next;
    }

    /** `startSharingLocation`: without geolocation support nothing changes;
        otherwise sharing starts under the new watch `newWatch`, and a watch
        left over from an earlier start (kept when an error stopped sharing
        without clearing it) is cleared as the id moves on. */
    method StartSharing(supported: bool, newWatch: nat)
      requires Valid() && newWatch !in liveWatches
      modifies this`isSharing, this`watchId, this`liveWatches, this`capturedStatus, this`capturedWatchId
      ensures Valid()
      ensures !supported ==> unchanged(this)
      ensures supported ==> isSharing && watchId == Some(newWatch)
      ensures supported ==> liveWatches == old(liveWatches) - Watching(old(watchId)) + {newWatch}
      ensures supported ==> capturedStatus == deliveryStatus && capturedWatchId == old(watchId)
    {
      if !supported {
        return;
      }
      isSharing := true;
      capturedStatus := deliveryStatus;
      capturedWatchId := watchId;
      liveWatches := liveWatches + {newWatch};
      SetWatchId(Some(newWatch));
    }

    /** `stopSharingLocation`: the watch is cleared only when there is one;
        sharing is off afterwards in every case. */
    method StopSharing()
      requires Valid()
      modifies this`isSharing, this`watchId, this`liveWatches
      ensures Valid()
      ensures !isSharing && watchId.None?
      ensures liveWatches == if old(watchId).Some? then old(liveWatches) - {old(watchId).value} else old(liveWatches)
      ensures old(!isSharing && watchId.None?) ==> unchanged(this)
    {
      if watchId.Some? {
        liveWatches := liveWatches - {watchId.value};
        SetWatchId(None);
      }
      isSharing := false;
    }

    /** A position fix: the screen shows it, and the tracking document gets
        the new location and time together with the status captured when
        sharing started; a failed write leaves the document as it was. */
    method OnPosition(p: Point, now: Timestamp, writeOk: bool) returns (ok: bool)
      modifies this`location, this`record
      ensures location == Some((p, now))
      ensures ok <==> old(Writable(writeOk))
      ensures !ok ==> record == old(record)
      ensures ok ==> record == Some(old(record).value.(
                sample := Some(Sample(p, now, farmerId, retailerId, offerId)), status := capturedStatus))
    {
      location := Some((p, now));
      ok := Writable(writeOk);
      if ok {
        record := Some(record.value.(sample := Some(Sample(p, now, farmerId, retailerId, offerId)),
                                     status := capturedStatus));
      }
    }

    /** A geolocation error: the stop routine the callback holds is the one
        from when sharing started, so it tests the watch id it saw then.
        With none, only sharing is switched off and the current watch keeps
        running; with one, that watch is cleared and the id is set to null,
        whose cleanup clears the current watch too. */
    method OnPositionError()
      requires Valid()
      modifies this`isSharing, this`watchId, this`liveWatches
      ensures Valid()
      ensures !isSharing
      ensures capturedWatchId.None? ==> watchId == old(watchId) && liveWatches == old(liveWatches)
      ensures capturedWatchId.Some? ==>
        watchId.None? && liveWatches == old(liveWatches) - {capturedWatchId.value} - Watching(old(watchId))
    {
      if capturedWatchId.Some? {
        liveWatches := liveWatches - {capturedWatchId.value};
        SetWatchId(None);
      }
      isSharing := false;
    }

    /** `markDeliveryComplete`: once the document says delivered (with the
        time), the screen says so too and sharing stops; on a failed write
        nothing changes. */
    method MarkDeliveryComplete(now: Timestamp, writeOk: bool) returns (ok: bool)
      requires Valid()
      modifies this`record, this`deliveryStatus, this`isSharing, this`watchId, this`liveWatches
      ensures Valid()
      ensures ok <==> old(Writable(writeOk))
      ensures !ok ==> unchanged(this)
      ensures ok ==> deliveryStatus == StatusAfter(MarkCompleteButton, old(deliveryStatus))
      ensures ok ==> record == Some(old(record).value.(status := Delivered, deliveredAt := Some(now)))
      ensures ok ==> !isSharing && watchId.None?
      ensures ok ==> liveWatches == if old(watchId).Some? then old(liveWatches) - {old(watchId).value} else old(liveWatches)
    {
      ok := Writable(writeOk);
      if !ok {
        return;
      }
      record := Some(record.value.(status := Delivered, deliveredAt := Some(now)));
      deliveryStatus := Delivered;
      StopSharing();
    }

    /** `acknowledgeDelivery`: the document and the screen say acknowledged;
        on a failed write nothing changes. */
    method AcknowledgeDelivery(now: Timestamp, writeOk: bool) returns (ok: bool)
      modifies this`record, this`deliveryStatus
      ensures ok <==> old(Writable(writeOk))
      ensures !ok ==> unchanged(this)
      ensures ok ==> deliveryStatus == StatusAfter(ConfirmReceivedButton, old(deliveryStatus))
      ensures ok ==> record == Some(old(record).value.(status := Acknowledged, acknowledgedAt := Some(now)))
    {
      ok := Writable(writeOk);
      if !ok {
        return;
      }
      record := Some(record.value.(status := Acknowledged, acknowledgedAt := Some(now)));
      deliveryStatus := Acknowledged;
    }
  }
}
