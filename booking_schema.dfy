/**
 * The mongoose `Booking` schema of src/models/booking.js: the closed value sets of
 * `status`, `vehicleType` and `paymentStatus`, the required fields, the defaults,
 * the trimmed strings, and `NewBooking`, which turns a draft document into a
 * stored booking or a validation error the way `Booking.create` does.
 */
module BookingSchema {
  import opened Wrappers
  import opened JsValues
  import opened JsStrings

  datatype BookingStatus = Pending | Confirmed | Completed | Cancelled

  function StatusName(s: BookingStatus): string
  {
    match s
    case Pending => "pending"
    case Confirmed => "confirmed"
    case Completed => "completed"
    case Cancelled => "cancelled"
  }

  /** The `status` enum check: exactly the four names are accepted, each for its own value. */
  function ParseStatus(name: string): (r: Option<BookingStatus>)
    ensures r.Some? ==> StatusName(r.value) == name
  {
    if name == "pending" then Some(Pending)
    else if name == "confirmed" then Some(Confirmed)
    else if name == "completed" then Some(Completed)
    else if name == "cancelled" then Some(Cancelled)
    else None
  }

  /** Every value's name is accepted, as that value. */
  lemma StatusNameRoundTrip(s: BookingStatus)
    ensures ParseStatus(StatusName(s)) == Some(s)
  {
  }

  datatype VehicleType = GLS | SClass | VClass | Other

  function VehicleTypeName(v: VehicleType): string
  {
    match v
    case GLS => "GLS"
    case SClass => "S-Class"
    case VClass => "V-Class"
    case Other => "Other"
  }

  /** The `vehicleType` enum check. */
  function ParseVehicleType(name: string): (r: Option<VehicleType>)
    ensures r.Some? ==> VehicleTypeName(r.value) == name
  {
    if name == "GLS" then Some(GLS)
    else if name == "S-Class" then Some(SClass)
    else if name == "V-Class" then Some(VClass)
    else if name == "Other" then Some(Other)
    else None
  }

  /** Every value's name is accepted, as that value. */
  lemma VehicleTypeNameRoundTrip(v: VehicleType)
    ensures ParseVehicleType(VehicleTypeName(v)) == Some(v)
  {
  }

  datatype PaymentStatus = Unpaid | Paid | Refunded

  function PaymentStatusName(p: PaymentStatus): string
  {
    match p
    case Unpaid => "unpaid"
    case Paid => "paid"
    case Refunded => "refunded"
  }

  /** The `paymentStatus` enum check. */
  function ParsePaymentStatus(name: string): (r: Option<PaymentStatus>)
    ensures r.Some? ==> PaymentStatusName(r.value) == name
  {
    if name == "unpaid" then Some(Unpaid)
    else if name == "paid" then Some(Paid)
    else if name == "refunded" then Some(Refunded)
    else None
  }

  /** Every value's name is accepted, as that value. */
  lemma PaymentStatusNameRoundTrip(p: PaymentStatus)
    ensures ParsePaymentStatus(PaymentStatusName(p)) == Some(p)
  {
  }

  /** A stored booking document; `createdAt` and `updatedAt` are the schema's timestamps. */
  datatype Booking = Booking(
    id: string,
    customer: string,
    pickupAddress: string,
    dropoffAddress: string,
    pickupTime: string,
    vehicleType: VehicleType,
    passengers: int,
    luggage: int,
    status: BookingStatus,
    estimatedPrice: Option<int>,
    finalPrice: Option<int>,
    paymentStatus: PaymentStatus,
    notes: Option<string>,
    createdAt: int,
    updatedAt: int)

  /** The document handed to `Booking.create`, before casting and validation; absent fields are `None`. */
  datatype Draft = Draft(
    customer: Option<string>,
    pickupAddress: Option<string>,
    dropoffAddress: Option<string>,
    pickupTime: Option<string>,
    vehicleType: Option<string>,
    passengers: Option<int>,
    luggage: Option<int>,
    status: Option<string>,
    estimatedPrice: Option<int>,
    finalPrice: Option<int>,
    paymentStatus: Option<string>,
    notes: Option<string>)

  /** The schema paths a validator can fail on. */
  datatype Path = CustomerPath | PickupAddressPath | DropoffAddressPath | PickupTimePath
                | VehicleTypePath | StatusPath | PaymentStatusPath

  /** The paths whose validators failed, in schema order. */
  datatype SchemaError = ValidationError(paths: seq<Path>)

  /** A required, trimmed string: present and not empty once trimmed. */
  predicate RequiredTrimmed(field: Option<string>)
  {
    field.Some? && Trim(field.value) != ""
  }

  /** An optional enum field: absent, or one of the names `parse` accepts. */
  predicate EnumOrAbsent<T>(field: Option<string>, parse: string -> Option<T>)
  {
    field.None? || parse(field.value).Some?
  }

  /** Whether the validator at `p` rejects the draft, once the trim setters have run. */
  predicate Fails(d: Draft, p: Path)
  {
    match p
    case CustomerPath => d.customer.None?
    case PickupAddressPath => !RequiredTrimmed(d.pickupAddress)
    case DropoffAddressPath => !RequiredTrimmed(d.dropoffAddress)
    case PickupTimePath => !Given(d.pickupTime)
    case VehicleTypePath => d.vehicleType.None? || ParseVehicleType(d.vehicleType.value).None?
    case StatusPath => !EnumOrAbsent(d.status, ParseStatus)
    case PaymentStatusPath => !EnumOrAbsent(d.paymentStatus, ParsePaymentStatus)
  }

  /** Every validated path, in schema order. */
  const SchemaPaths: seq<Path> :=
    [CustomerPath, PickupAddressPath, DropoffAddressPath, PickupTimePath, VehicleTypePath, StatusPath, PaymentStatusPath]

  /** Every path is validated. */
  lemma SchemaPathsComplete()
    ensures forall p :: p in SchemaPaths
  {
    forall p: Path ensures p in SchemaPaths {
      match p
      case CustomerPath => assert SchemaPaths[0] == p;
      case PickupAddressPath => assert SchemaPaths[1] == p;
      case DropoffAddressPath => assert SchemaPaths[2] == p;
      case PickupTimePath => assert SchemaPaths[3] == p;
      case VehicleTypePath => assert SchemaPaths[4] == p;
      case StatusPath => assert SchemaPaths[5] == p;
      case PaymentStatusPath => assert SchemaPaths[6] == p;
    }
  }

  /** The paths of `ps` whose validators reject the draft, in the order of `ps`. */
  function FailingAmong(d: Draft, ps: seq<Path>): (r: seq<Path>)
    ensures forall p :: p in r <==> p in ps && Fails(d, p)
  {
    if ps == [] then []
    else (if Fails(d, ps[0]) then [ps[0]] else []) + FailingAmong(d, ps[1..])
  }

  /** Where no validator of `ps` fails, none is reported. */
  lemma {:induction false} NothingFailsAmong(d: Draft, ps: seq<Path>)
    requires forall p :: p in ps ==> !Fails(d, p)
    ensures FailingAmong(d, ps) == []
  {
    if ps != [] {
      NothingFailsAmong(d, ps[1..]);
    }
  }

  /** The validation errors of a draft. */
  function FailingPaths(d: Draft): (r: seq<Path>)
    ensures forall p :: p in r <==> Fails(d, p)
  {
    SchemaPathsComplete();
    FailingAmong(d, SchemaPaths)
  }

  /** A draft every validator accepts: the required fields present, the enum fields within their value sets. */
  predicate ValidDraft(d: Draft)
  {
    d.customer.Some? && RequiredTrimmed(d.pickupAddress) && RequiredTrimmed(d.dropoffAddress) &&
    Given(d.pickupTime) && d.vehicleType.Some? && ParseVehicleType(d.vehicleType.value).Some? &&
    EnumOrAbsent(d.status, ParseStatus) && EnumOrAbsent(d.paymentStatus, ParsePaymentStatus)
  }

  /** A draft is valid exactly when no validator fails on it. */
  lemma ValidDraftHasNoFailures(d: Draft)
    ensures ValidDraft(d) <==> FailingPaths(d) == []
  {
    if ValidDraft(d) {
      ValidDraftReportsNothing(d);
    } else {
      InvalidDraftReportsAPath(d);
    }
  }

  /** An invalid draft is reported under at least one path. */
  lemma InvalidDraftReportsAPath(d: Draft)
    requires !ValidDraft(d)
    ensures FailingPaths(d) != []
  {
    var r := FailingPaths(d);
    if d.customer.None? { assert Fails(d, CustomerPath); }
    else if !RequiredTrimmed(d.pickupAddress) { assert Fails(d, PickupAddressPath); }
    else if !RequiredTrimmed(d.dropoffAddress) { assert Fails(d, DropoffAddressPath); }
    else if !Given(d.pickupTime) { assert Fails(d, PickupTimePath); }
    else if d.vehicleType.None? || ParseVehicleType(d.vehicleType.value).None? { assert Fails(d, VehicleTypePath); }
    else if !EnumOrAbsent(d.status, ParseStatus) { assert Fails(d, StatusPath); }
    else { assert Fails(d, PaymentStatusPath); }
  }

  /** A valid draft is reported under no path. */
  lemma ValidDraftReportsNothing(d: Draft)
    requires ValidDraft(d)
    ensures FailingPaths(d) == []
  {
    forall p: Path ensures !Fails(d, p) {
      match p
      case CustomerPath =>
      case PickupAddressPath =>
      case DropoffAddressPath =>
      case PickupTimePath =>
      case VehicleTypePath =>
      case StatusPath =>
      case PaymentStatusPath =>
    }
    NothingFailsAmong(d, SchemaPaths);
  }

  /** The `trim: true` setter: applied to a present value, absence kept. */
  function TrimField(field: Option<string>): Option<string>
  {
    match field
    case None => None
    case Some(s) => Some(Trim(s))
  }

  /** `field` when present, the schema default otherwise. */
  function OrDefault<T>(field: Option<T>, default: T): T
  {
    match field
    case None => default
    case Some(v) => v
  }

  /**
   * `Booking.create(d)` with document id `id` at time `now`. The draft is rejected
   * with its failing paths, or stored with its strings trimmed, its enum names
   * turned into values, and the defaults filled in: 1 passenger, 0 luggage, status
   * pending, payment unpaid.
   */
  function NewBooking(d: Draft, id: string, now: int): (r: Result<Booking, SchemaError>)
    ensures r.Ok? <==> ValidDraft(d)
    ensures r.Err? ==> r.error.paths == FailingPaths(d) && r.error.paths != []
    ensures r.Ok? ==> r.value.id == id && r.value.customer == d.customer.value
    ensures r.Ok? ==> r.value.createdAt == now && r.value.updatedAt == now
    ensures r.Ok? ==> r.value.pickupAddress == Trim(d.pickupAddress.value) && r.value.pickupAddress != ""
    ensures r.Ok? ==> r.value.dropoffAddress == Trim(d.dropoffAddress.value) && r.value.dropoffAddress != ""
    ensures r.Ok? ==> r.value.pickupTime == d.pickupTime.value
    ensures r.Ok? ==> r.value.notes == TrimField(d.notes)
    ensures r.Ok? ==> VehicleTypeName(r.value.vehicleType) == d.vehicleType.value
    ensures r.Ok? ==> r.value.status == (if d.status.None? then Pending else ParseStatus(d.status.value).value)
    ensures r.Ok? && d.status.Some? ==> StatusName(r.value.status) == d.status.value
    ensures r.Ok? ==> r.value.paymentStatus == (if d.paymentStatus.None? then Unpaid else ParsePaymentStatus(d.paymentStatus.value).value)
    ensures r.Ok? ==> r.value.passengers == (if d.passengers.None? then 1 else d.passengers.value)
    ensures r.Ok? ==> r.value.luggage == (if d.luggage.None? then 0 else d.luggage.value)
    ensures r.Ok? ==> r.value.estimatedPrice == d.estimatedPrice && r.value.finalPrice == d.finalPrice
  {
    ValidDraftHasNoFailures(d);
    if !ValidDraft(d) then Err(ValidationError(FailingPaths(d)))
    else
      Ok(Booking(
        id, d.customer.value, Trim(d.pickupAddress.value), Trim(d.dropoffAddress.value), d.pickupTime.value,
        ParseVehicleType(d.vehicleType.value).value,
        OrDefault(d.passengers, 1), OrDefault(d.luggage, 0),
        match d.status case None => Pending case Some(s) => ParseStatus(s).value,
        d.estimatedPrice, d.finalPrice,
        match d.paymentStatus case None => Unpaid case Some(p) => ParsePaymentStatus(p).value,
        TrimField(d.notes), now, now))
  }

  /** Every string the schema trims is stored trimmed, so trimming it again on a later save changes nothing. */
  lemma StoredStringsStayTrimmed(d: Draft, id: string, now: int)
    requires NewBooking(d, id, now).Ok?
    ensures var b := NewBooking(d, id, now).value;
      && Trim(b.pickupAddress) == b.pickupAddress
      && Trim(b.dropoffAddress) == b.dropoffAddress
      && (b.notes.Some? ==> Trim(b.notes.value) == b.notes.value)
  {
    TrimIdempotent(d.pickupAddress.value);
    TrimIdempotent(d.dropoffAddress.value);
    if d.notes.Some? {
      TrimIdempotent(d.notes.value);
    }
  }

  /** A draft with only the required fields gets every default. */
  lemma DefaultsApplied(customer: string, pickup: string, dropoff: string, time: string, vehicle: VehicleType, id: string, now: int)
    requires Trim(pickup) != "" && Trim(dropoff) != "" && time != ""
    ensures var r := NewBooking(Draft(Some(customer), Some(pickup), Some(dropoff), Some(time), Some(VehicleTypeName(vehicle)),
                                      None, None, None, None, None, None, None), id, now);
      && r.Ok?
      && r.value.passengers == 1 && r.value.luggage == 0
      && r.value.status == Pending && r.value.paymentStatus == Unpaid
      && r.value.vehicleType == vehicle && r.value.notes == None
  {
    VehicleTypeNameRoundTrip(vehicle);
    var d := Draft(Some(customer), Some(pickup), Some(dropoff), Some(time), Some(VehicleTypeName(vehicle)),
                   None, None, None, None, None, None, None);
    assert ValidDraft(d);
  }
}
