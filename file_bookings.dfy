/**
 * The bookings kept in a JSON file: `POST /bookings` and `GET /bookings` of
 * src/app.js and server.js, and the admin controller's list, lookup and status
 * update. The file is read whole into an array, changed, and written back whole;
 * here the array is the `items` field of a `FileStore`.
 */
module FileBookings {
  import opened Wrappers
  import opened JsValues

  /** A stored booking; the text fields and `tier` are stored as the client sent them. */
  datatype FileBooking = FileBooking(
    id: string,
    pickup: JsValue,
    dropoff: JsValue,
    date: JsValue,
    time: JsValue,
    passengers: int,
    luggage: int,
    tier: JsValue,
    quote: int,
    status: JsValue,
    createdAt: string)

  /** The fields `POST /bookings` destructures from its body (absent ones are `Undefined`). */
  datatype BookingBody = BookingBody(
    pickup: JsValue,
    dropoff: JsValue,
    date: JsValue,
    time: JsValue,
    passengers: JsValue,
    luggage: JsValue,
    tier: JsValue,
    quote: JsValue)

  /** The status every new booking gets. */
  const Requested: JsValue := Str("requested")

  /** The creation guard: truthy pickup, dropoff, date and time, numeric passengers and quote. */
  predicate Accepts(body: BookingBody)
  {
    Truthy(body.pickup) && Truthy(body.dropoff) && Truthy(body.date) && Truthy(body.time) &&
    body.passengers.Num? && body.quote.Num?
  }

  /** The record the handler builds; `tier` is not checked and the client's quote is kept as it is. */
  function NewFileBooking(body: BookingBody, id: string, createdAt: string): FileBooking
    requires Accepts(body)
  {
    FileBooking(id, body.pickup, body.dropoff, body.date, body.time, body.passengers.number,
                NumberOr(body.luggage, 0), body.tier, body.quote.number, Requested, createdAt)
  }

  /** What `POST /bookings` answers. */
  datatype CreateResponse = Created(id: string, status: JsValue) | MissingOrInvalidFields
  {
    function HttpStatus(): int
    {
      if Created? then 201 else 400
    }
  }

  /** A response together with the array it leaves in the file. */
  datatype CreateOutcome = CreateOutcome(response: CreateResponse, items: seq<FileBooking>)

  /**
   * `POST /bookings` on the array read from the file. A rejected body answers 400 and
   * the array is left as it is; an accepted one answers 201 with the new id and
   * status "requested", and the array gains the new booking in front, everything
   * older behind it in its old order.
   */
  function CreateIn(items: seq<FileBooking>, body: BookingBody, id: string, createdAt: string): (r: CreateOutcome)
    ensures r.response.Created? <==> Accepts(body)
    ensures !r.response.Created? ==> r.items == items
    ensures r.response.Created? ==>
              && r.response == Created(id, Requested)
              && |r.items| == |items| + 1 && r.items[1..] == items
              && r.items[0].id == id && r.items[0].status == Requested && r.items[0].createdAt == createdAt
              && r.items[0].quote == body.quote.number && r.items[0].passengers == body.passengers.number
              && r.items[0].luggage == (if body.luggage.Num? then body.luggage.number else 0)
              && r.items[0].pickup == body.pickup && r.items[0].dropoff == body.dropoff
              && r.items[0].date == body.date && r.items[0].time == body.time && r.items[0].tier == body.tier
  {
    if !Accepts(body) then CreateOutcome(MissingOrInvalidFields, items)
    else
      var booking := NewFileBooking(body, id, createdAt);
      CreateOutcome(Created(booking.id, booking.status), [booking] + items)
  }

  /** What the admin lookup and status update answer. */
  datatype AdminResponse = Found(booking: FileBooking) | NotFound
  {
    function HttpStatus(): int
    {
      if Found? then 200 else 404
    }
  }

  /** `items.find(b => b.id === id)`, as an index: the first booking with that id, if any. */
  function FindById(items: seq<FileBooking>, id: string): (r: Option<nat>)
    ensures r.Some? ==> r.value < |items| && items[r.value].id == id
    ensures r.Some? ==> forall j :: 0 <= j < r.value ==> items[j].id != id
    ensures r.None? ==> forall j :: 0 <= j < |items| ==> items[j].id != id
    decreases |items|
  {
    if items == [] then None
    else if items[0].id == id then Some(0)
    else match FindById(items[1..], id)
      case None => None
      case Some(k) => Some(k + 1)
  }

  /** The status `booking.status = status || booking.status` leaves. */
  function NewStatus(previous: JsValue, status: JsValue): JsValue
  {
    if Truthy(status) then status else previous
  }

  /** The array `updateBookingStatus` writes back: the first booking with the id gets the new status. */
  function SetStatus(items: seq<FileBooking>, id: string, status: JsValue): (r: seq<FileBooking>)
    ensures |r| == |items|
    ensures FindById(items, id).None? ==> r == items
  {
    match FindById(items, id)
    case None => items
    case Some(i) => items[i := items[i].(status := NewStatus(items[i].status, status))]
  }

  /** `find` looks at ids alone, so two arrays with the same ids in the same places give the same answer. */
  lemma {:induction false} FindByIdSeesOnlyIds(a: seq<FileBooking>, b: seq<FileBooking>, id: string)
    requires |a| == |b|
    requires forall k :: 0 <= k < |a| ==> a[k].id == b[k].id
    ensures FindById(a, id) == FindById(b, id)
    decreases |a|
  {
    if a != [] && a[0].id != id {
      FindByIdSeesOnlyIds(a[1..], b[1..], id);
    }
  }

  /** A status update keeps every id where it was, so the same booking is found afterwards, now with its new status. */
  lemma SetStatusThenFind(items: seq<FileBooking>, id: string, status: JsValue)
    ensures FindById(SetStatus(items, id, status), id) == FindById(items, id)
    ensures FindById(items, id).Some? ==>
              SetStatus(items, id, status)[FindById(items, id).value].status ==
              NewStatus(items[FindById(items, id).value].status, status)
  {
    FindByIdSeesOnlyIds(SetStatus(items, id, status), items, id);
  }

  /** Repeating a status update changes nothing more. */
  lemma SetStatusIdempotent(items: seq<FileBooking>, id: string, status: JsValue)
    ensures SetStatus(SetStatus(items, id, status), id, status) == SetStatus(items, id, status)
  {
    SetStatusThenFind(items, id, status);
  }

  /** `bs` in reverse order. */
  function Reversed(bs: seq<FileBooking>): (r: seq<FileBooking>)
    ensures |r| == |bs|
  {
    if bs == [] then [] else Reversed(bs[1..]) + [bs[0]]
  }

  /** The array after `items.unshift(b)` for each `b` of `bs` in turn. */
  function UnshiftAll(items: seq<FileBooking>, bs: seq<FileBooking>): seq<FileBooking>
    decreases |bs|
  {
    if bs == [] then items else UnshiftAll([bs[0]] + items, bs[1..])
  }

  /** Since every booking is put in front, the list reads newest first, the older contents last. */
  lemma {:induction false} UnshiftAllIsNewestFirst(items: seq<FileBooking>, bs: seq<FileBooking>)
    ensures UnshiftAll(items, bs) == Reversed(bs) + items
    decreases |bs|
  {
    if bs != [] {
      UnshiftAllIsNewestFirst([bs[0]] + items, bs[1..]);
      assert Reversed(bs[1..]) + ([bs[0]] + items) == (Reversed(bs[1..]) + [bs[0]]) + items;
    }
  }

  /** An accepted create is one `unshift` onto the array, so successive creates read newest first. */
  lemma CreateInUnshifts(items: seq<FileBooking>, body: BookingBody, id: string, createdAt: string)
    requires Accepts(body)
    ensures CreateIn(items, body, id, createdAt).items == UnshiftAll(items, [NewFileBooking(body, id, createdAt)])
  {
  }

  /** One bookings file, read into memory. */
  class FileStore {
    var items: seq<FileBooking>

    /** The store over the file's current contents. */
    constructor (contents: seq<FileBooking>)
      ensures items == contents
    {
      items := contents;
    }

    /**
     * `POST /bookings` (src/app.js and server.js). A rejected body leaves the file as it
     * was; an accepted one is put in front with status "requested", luggage 0 when
     * not a number, and the client's quote and passenger count stored as given.
     */
    method Create(body: BookingBody, id: string, createdAt: string) returns (r: CreateResponse)
      requires FindById(items, id).None?
      modifies this
      ensures CreateOutcome(r, items) == CreateIn(old(items), body, id, createdAt)
      ensures r.Created? <==> Accepts(body)
      ensures !r.Created? ==> items == old(items)
      ensures r.Created? ==> items == [NewFileBooking(body, id, createdAt)] + old(items)
      ensures r.Created? ==> items[0].status == Requested && items[0].quote == body.quote.number
      ensures r.Created? ==> items[0].luggage == (if body.luggage.Num? then body.luggage.number else 0)
      ensures r.Created? ==> FindById(items, id) == Some(0)
    {
      if !Accepts(body) {
        return MissingOrInvalidFields;
      }
      var booking := NewFileBooking(body, id, createdAt);
      items := [booking] + items;
      r := Created(booking.id, booking.status);
    }

    /** `GET /bookings` and the admin `getAllBookings`: the stored array as it is. */
    function List(): (r: seq<FileBooking>)
      reads this
      ensures r == items
    {
      items
    }

    /** The admin `getBookingById`: the first booking with the id, or 404. */
    function GetById(id: string): (r: AdminResponse)
      reads this
      ensures r.NotFound? <==> forall j :: 0 <= j < |items| ==> items[j].id != id
      ensures r.Found? ==> r.booking.id == id && r.booking == items[FindById(items, id).value]
    {
      match FindById(items, id)
      case None => NotFound
      case Some(i) => Found(items[i])
    }

    /**
     * The admin `updateBookingStatus`. An unknown id answers 404 and the store is not
     * written. Otherwise the first booking with the id takes `status` when it is
     * truthy, whatever it is, and nothing else in the store changes.
     */
    method UpdateStatus(id: string, status: JsValue) returns (r: AdminResponse)
      modifies this
      ensures items == SetStatus(old(items), id, status)
      ensures FindById(old(items), id).None? ==> r == NotFound && items == old(items)
      ensures FindById(old(items), id).Some? ==>
                var i := FindById(old(items), id).value;
                && r == Found(items[i])
                && items[i].status == NewStatus(old(items)[i].status, status)
                && items[i] == old(items)[i].(status := items[i].status)
                && |items| == |old(items)|
                && (forall j :: 0 <= j < |items| && j != i ==> items[j] == old(items)[j])
    {
      var found := FindById(items, id);
      if found.None? {
        return NotFound;
      }
      var i := found.value;
      items := items[i := items[i].(status := NewStatus(items[i].status, status))];
      r := Found(items[i]);
    }
  }
}
