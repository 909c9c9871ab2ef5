/**
 * The customer side of the booking controller over the mongoose collection:
 * `createBooking`, `getMyBookings`, `getBookingById` and `cancelBooking`. The
 * collection is an in-memory sequence of documents in insertion order, held by a
 * `BookingCollection`; the caller is `req.user._id`, absent when no
 * authentication ran, in which case reading it throws and the handler answers 500.
 */
module CustomerBookings {
  import opened Wrappers
  import opened JsValues
  import opened JsStrings
  import opened BookingSchema
  import VehiclePricing

  /** The fields `createBooking` destructures from its body. */
  datatype CreateBody = CreateBody(
    pickupAddress: Option<string>,
    dropoffAddress: Option<string>,
    pickupTime: Option<string>,
    vehicleType: Option<string>,
    passengers: Option<int>,
    luggage: Option<int>,
    notes: Option<string>,
    estimatedPrice: Option<int>)

  /** The guard of `createBooking`: the four required fields are truthy. */
  predicate HasRequiredFields(body: CreateBody)
  {
    Given(body.pickupAddress) && Given(body.dropoffAddress) && Given(body.pickupTime) && Given(body.vehicleType)
  }

  /** `estimatedPrice || estimatePrice({ vehicleType })`: the client's price when truthy, the table estimate otherwise. */
  function PriceFor(body: CreateBody): int
    requires Given(body.vehicleType)
  {
    if GivenNumber(body.estimatedPrice) then body.estimatedPrice.value
    else VehiclePricing.EstimatePrice(body.vehicleType.value)
  }

  /** The document `createBooking` hands to `Booking.create`. */
  function CreateDraft(body: CreateBody, customer: string): Draft
    requires Given(body.vehicleType)
  {
    Draft(Some(customer), body.pickupAddress, body.dropoffAddress, body.pickupTime, body.vehicleType,
          body.passengers, body.luggage, Some("pending"), Some(PriceFor(body)), None, None, body.notes)
  }

  datatype CreateResponse = Created(booking: Booking) | MissingBookingFields | CreateFailed
  {
    function HttpStatus(): int
    {
      match this
      case Created(_) => 201
      case MissingBookingFields => 400
      case CreateFailed => 500
    }
  }

  /**
   * What `createBooking` answers for a body, a caller, and the id and time the
   * database assigns. A missing field answers 400; a missing caller or a document
   * that fails validation (an address that is only white space, a vehicle type
   * outside the enum) answers 500; otherwise the booking is created pending, for
   * the caller, priced by the client or by the table.
   */
  function CreateOutcome(body: CreateBody, caller: Option<string>, id: string, now: int): (r: CreateResponse)
    ensures r.MissingBookingFields? <==> !HasRequiredFields(body)
    ensures HasRequiredFields(body) && caller.None? ==> r.CreateFailed?
    ensures r.Created? <==>
              HasRequiredFields(body) && caller.Some? &&
              Trim(body.pickupAddress.value) != "" && Trim(body.dropoffAddress.value) != "" &&
              ParseVehicleType(body.vehicleType.value).Some?
    ensures r.Created? ==> r.booking.status == Pending && r.booking.paymentStatus == Unpaid
    ensures r.Created? ==> r.booking.customer == caller.value && r.booking.id == id && r.booking.createdAt == now
    ensures r.Created? ==> r.booking.estimatedPrice == Some(PriceFor(body)) && r.booking.finalPrice == None
    ensures r.Created? ==> VehicleTypeName(r.booking.vehicleType) == body.vehicleType.value
    ensures r.Created? ==> r.booking.pickupAddress == Trim(body.pickupAddress.value)
    ensures r.Created? ==> r.booking.dropoffAddress == Trim(body.dropoffAddress.value)
    ensures r.Created? ==> r.booking.pickupTime == body.pickupTime.value
    ensures r.Created? ==> r.booking.notes == TrimField(body.notes)
    ensures r.Created? ==> r.booking.updatedAt == now
    ensures r.Created? ==> r.booking.passengers == OrDefault(body.passengers, 1) && r.booking.luggage == OrDefault(body.luggage, 0)
  {
    if !HasRequiredFields(body) then MissingBookingFields
    else if caller.None? then CreateFailed
    else match NewBooking(CreateDraft(body, caller.value), id, now)
      case Ok(b) => Created(b)
      case Err(_) => CreateFailed
  }

  /** A truthy client price is stored exactly; otherwise the stored price is the table estimate, between 50 and 75. */
  lemma CreatedPriceIsClientsOrEstimate(body: CreateBody, caller: Option<string>, id: string, now: int)
    requires CreateOutcome(body, caller, id, now).Created?
    ensures var p := CreateOutcome(body, caller, id, now).booking.estimatedPrice;
      && (GivenNumber(body.estimatedPrice) ==> p == body.estimatedPrice)
      && (!GivenNumber(body.estimatedPrice) ==> p.Some? && 50 <= p.value <= 75)
  {
  }

  /** The documents of one customer, in collection order, each as often as it is stored. */
  function OwnedBy(docs: seq<Booking>, customer: string): (r: seq<Booking>)
    ensures forall b :: multiset(r)[b] == if b.customer == customer then multiset(docs)[b] else 0
    ensures forall b :: b in r <==> b in docs && b.customer == customer
  {
    if docs == [] then []
    else
      assert docs == [docs[0]] + docs[1..];
      (if docs[0].customer == customer then [docs[0]] else []) + OwnedBy(docs[1..], customer)
  }

  /** `sort({ createdAt: -1 })`: no booking is followed by a newer one. */
  predicate NewestFirst(s: seq<Booking>)
  {
    forall i :: 0 <= i < |s| - 1 ==> s[i].createdAt >= s[i + 1].createdAt
  }

  /** In a list sorted newest first, every booking is at least as new as every later one. */
  lemma {:induction false} NewestFirstPairwise(s: seq<Booking>, i: int, j: int)
    requires NewestFirst(s) && 0 <= i <= j < |s|
    ensures s[i].createdAt >= s[j].createdAt
    decreases j - i
  {
    if i < j {
      NewestFirstPairwise(s, i, j - 1);
    }
  }

  /** `b` put into a list sorted newest first, before the first booking not newer than itself. */
  function InsertNewestFirst(b: Booking, s: seq<Booking>): (r: seq<Booking>)
    requires NewestFirst(s)
    ensures NewestFirst(r)
    ensures multiset(r) == multiset(s) + multiset{b}
    ensures |r| == |s| + 1 && (r[0] == b || (s != [] && r[0] == s[0]))
  {
    if s == [] || b.createdAt >= s[0].createdAt then [b] + s
    else
      assert NewestFirst(s[1..]) by {
        forall i | 0 <= i < |s[1..]| - 1 ensures s[1..][i].createdAt >= s[1..][i + 1].createdAt {
          assert s[1..][i] == s[i + 1] && s[1..][i + 1] == s[i + 2];
        }
      }
      var rest := InsertNewestFirst(b, s[1..]);
      assert s == [s[0]] + s[1..];
      [s[0]] + rest
  }

  /** The bookings sorted newest first: a reordering of the input, nothing added or lost. */
  function SortNewestFirst(s: seq<Booking>): (r: seq<Booking>)
    ensures NewestFirst(r)
    ensures multiset(r) == multiset(s)
  {
    if s == [] then []
    else
      assert s == [s[0]] + s[1..];
      InsertNewestFirst(s[0], SortNewestFirst(s[1..]))
  }

  /** The first document with this id that belongs to this customer: `findOne({ _id: id, customer })`. */
  function FindOwned(docs: seq<Booking>, id: string, customer: string): (r: Option<nat>)
    ensures r.Some? ==> r.value < |docs| && docs[r.value].id == id && docs[r.value].customer == customer
    ensures r.None? ==> forall j :: 0 <= j < |docs| ==> !(docs[j].id == id && docs[j].customer == customer)
    decreases |docs|
  {
    if docs == [] then None
    else if docs[0].id == id && docs[0].customer == customer then Some(0)
    else match FindOwned(docs[1..], id, customer)
      case None => None
      case Some(k) => Some(k + 1)
  }

  /** `findOne` looks only at ids and owners, so a change to other fields does not change what it finds. */
  lemma {:induction false} FindOwnedSeesOnlyIdAndOwner(a: seq<Booking>, b: seq<Booking>, id: string, customer: string)
    requires |a| == |b|
    requires forall k :: 0 <= k < |a| ==> a[k].id == b[k].id && a[k].customer == b[k].customer
    ensures FindOwned(a, id, customer) == FindOwned(b, id, customer)
    decreases |a|
  {
    if a != [] && !(a[0].id == id && a[0].customer == customer) {
      FindOwnedSeesOnlyIdAndOwner(a[1..], b[1..], id, customer);
    }
  }

  datatype ListResponse = Bookings(bookings: seq<Booking>) | ListFailed
  {
    function HttpStatus(): int
    {
      if Bookings? then 200 else 500
    }
  }

  datatype LookupResponse = FoundBooking(booking: Booking) | BookingNotFound | LookupFailed
  {
    function HttpStatus(): int
    {
      match this
      case FoundBooking(_) => 200
      case BookingNotFound => 404
      case LookupFailed => 500
    }
  }

  datatype CancelResponse = CancelledBooking(booking: Booking) | CancelNotFound | AlreadyCancelled | CancelFailed
  {
    function HttpStatus(): int
    {
      match this
      case CancelledBooking(_) => 200
      case CancelNotFound => 404
      case AlreadyCancelled => 400
      case CancelFailed => 500
    }
  }

  /** A response together with the collection it leaves behind. */
  datatype CancelOutcome = CancelOutcome(response: CancelResponse, docs: seq<Booking>)

  /**
   * `cancelBooking` on a collection. Without a caller it answers 500, for a booking
   * that is not the caller's (or does not exist) 404, for one already cancelled 400,
   * and in all three cases the collection is unchanged. Otherwise that one booking
   * becomes cancelled, whatever its status was, `save` stamps `updatedAt`, and no
   * other field and no other booking changes.
   */
  function CancelIn(docs: seq<Booking>, id: string, caller: Option<string>, now: int): (r: CancelOutcome)
    ensures !r.response.CancelledBooking? ==> r.docs == docs
    ensures caller.None? <==> r.response.CancelFailed?
    ensures r.response.CancelNotFound? <==>
              caller.Some? && forall j :: 0 <= j < |docs| ==> !(docs[j].id == id && docs[j].customer == caller.value)
    ensures r.response.AlreadyCancelled? <==>
              caller.Some? && FindOwned(docs, id, caller.value).Some? && docs[FindOwned(docs, id, caller.value).value].status == Cancelled
    ensures r.response.CancelledBooking? ==>
              var i := FindOwned(docs, id, caller.value).value;
              && docs[i].status != Cancelled
              && r.response.booking == docs[i].(status := Cancelled, updatedAt := now)
              && r.docs == docs[i := r.response.booking]
  {
    if caller.None? then CancelOutcome(CancelFailed, docs)
    else match FindOwned(docs, id, caller.value)
      case None => CancelOutcome(CancelNotFound, docs)
      case Some(i) =>
        if docs[i].status == Cancelled then CancelOutcome(AlreadyCancelled, docs)
        else
          var b := docs[i].(status := Cancelled, updatedAt := now);
          CancelOutcome(CancelledBooking(b), docs[i := b])
  }

  /** Cancelling is not idempotent: a second cancel of the same booking answers 400 and changes nothing. */
  lemma CancelTwiceIsRejected(docs: seq<Booking>, id: string, caller: Option<string>, now: int, later: int)
    requires CancelIn(docs, id, caller, now).response.CancelledBooking?
    ensures var after := CancelIn(docs, id, caller, now).docs;
      CancelIn(after, id, caller, later) == CancelOutcome(AlreadyCancelled, after)
  {
    var after := CancelIn(docs, id, caller, now).docs;
    FindOwnedSeesOnlyIdAndOwner(after, docs, id, caller.value);
  }

  /** No two documents share an id. */
  predicate UniqueIds(docs: seq<Booking>)
  {
    forall i, j :: 0 <= i < j < |docs| ==> docs[i].id != docs[j].id
  }

  /** A document whose id is new keeps the ids unique. */
  lemma AppendFreshKeepsIdsUnique(docs: seq<Booking>, b: Booking)
    requires UniqueIds(docs)
    requires forall j :: 0 <= j < |docs| ==> docs[j].id != b.id
    ensures UniqueIds(docs + [b])
  {
  }

  /** The bookings collection. */
  class BookingCollection {
    var docs: seq<Booking>

    ghost predicate Valid()
      reads this
    {
      UniqueIds(docs)
    }

    constructor ()
      ensures Valid() && docs == []
    {
      docs := [];
    }

    /** `createBooking`: the document is added when created, and the collection is untouched otherwise. */
    method Create(body: CreateBody, caller: Option<string>, id: string, now: int) returns (r: CreateResponse)
      requires Valid()
      requires forall j :: 0 <= j < |docs| ==> docs[j].id != id
      modifies this
      ensures Valid()
      ensures r == CreateOutcome(body, caller, id, now)
      ensures docs == if r.Created? then old(docs) + [r.booking] else old(docs)
    {
      r := CreateOutcome(body, caller, id, now);
      if r.Created? {
        var b := r.booking;
        assert b.id == id;
        AppendFreshKeepsIdsUnique(docs, b);
        docs := docs + [b];
      }
    }

    /** `getMyBookings`: exactly the caller's bookings, each as often as stored, newest first. */
    function MyBookings(caller: Option<string>): (r: ListResponse)
      reads this
      ensures r.ListFailed? <==> caller.None?
      ensures r.Bookings? ==> NewestFirst(r.bookings)
      ensures r.Bookings? ==> multiset(r.bookings) == multiset(OwnedBy(docs, caller.value))
      ensures r.Bookings? ==> forall b :: b in r.bookings <==> b in docs && b.customer == caller.value
    {
      if caller.None? then ListFailed
      else
        var mine := OwnedBy(docs, caller.value);
        var sorted := SortNewestFirst(mine);
        assert forall b :: b in sorted <==> b in multiset(mine);
        Bookings(sorted)
    }

    /** `getBookingById`: the caller's booking with this id, or 404 when there is none. */
    function GetById(id: string, caller: Option<string>): (r: LookupResponse)
      reads this
      ensures r.LookupFailed? <==> caller.None?
      ensures r.BookingNotFound? <==>
                caller.Some? && forall j :: 0 <= j < |docs| ==> !(docs[j].id == id && docs[j].customer == caller.value)
      ensures r.FoundBooking? ==> r.booking in docs && r.booking.id == id && r.booking.customer == caller.value
    {
      if caller.None? then LookupFailed
      else match FindOwned(docs, id, caller.value)
        case None => BookingNotFound
        case Some(i) => FoundBooking(docs[i])
    }

    /** `cancelBooking`, in place: what `CancelIn` answers and leaves. */
    method Cancel(id: string, caller: Option<string>, now: int) returns (r: CancelResponse)
      requires Valid()
      modifies this
      ensures Valid()
      ensures CancelOutcome(r, docs) == CancelIn(old(docs), id, caller, now)
      ensures |docs| == |old(docs)|
      ensures forall j :: 0 <= j < |docs| && docs[j] != old(docs)[j] ==>
                r.CancelledBooking? && docs[j] == r.booking && old(docs)[j].id == id
    {
      if caller.None? {
        return CancelFailed;
      }
      var found := FindOwned(docs, id, caller.value);
      if found.None? {
        return CancelNotFound;
      }
      var i := found.value;
      if docs[i].status == Cancelled {
        return AlreadyCancelled;
      }
      var b := docs[i].(status := Cancelled, updatedAt := now);
      docs := docs[i := b];
      r := CancelledBooking(b);
    }
  }
}
