/**
 * Appointments (apps/appointments/models.py) and the booking rules of
 * `AppointmentCreateSerializer` (apps/appointments/serializers.py): the
 * field validators, the cross-field `validate` with its conflict checks,
 * and the `created_by` default of `create`. Instants are integers
 * (microseconds since an arbitrary epoch).
 */
module Appointments {
  import opened Wrappers
  import opened CoreModels

  /** `Appointment.Status`. */
  datatype Status = Scheduled | Completed | Cancelled | NoShow

  /** `active_statuses`: the appointments that still occupy their slot. */
  predicate IsActive(s: Status) {
    s == Scheduled || s == NoShow
  }

  /** `timedelta(minutes=5)` in microseconds. */
  const MinimumLength: int := 5 * 60 * 1_000_000

  /** The user types `validate` accepts as the provider of an appointment. */
  const EligibleProviderTypes: set<UserType> := {Doctor, Nurse, Midwife, CommunityWorker}

  /** A row of the appointment table (the fields the rules look at). */
  datatype Appointment = Appointment(
    id: nat,
    patient: Patient,
    provider: User,
    facility: nat,
    status: Status,
    start: int,
    end: int,
    createdBy: Option<nat>)

  /**
   * The validated data of a request: each field the request supplied.
   * `createdBy` is `Some(None)` when the key is present with a null value.
   */
  datatype Attrs = Attrs(
    patient: Option<Patient>,
    provider: Option<User>,
    facility: Option<nat>,
    status: Option<Status>,
    start: Option<int>,
    end: Option<int>,
    createdBy: Option<Option<nat>>)

  /** The three dimensions a booking can clash in, in the order they are checked. */
  datatype Dimension = ProviderDimension | PatientDimension | FacilityDimension

  /** Why a single field was rejected before `validate` ran. */
  datatype FieldProblem = Required | Inactive

  datatype BookingError =
    | FieldErrors(problems: map<string, FieldProblem>)
    | TimesRequired
    | EndNotAfterStart
    | TooShort
    | ProviderNotEligible
    | Conflict(dimension: Dimension)

  /** The key of the error payload: the field, or `non_field_errors`. */
  function ErrorKeys(e: BookingError): (keys: set<string>)
    ensures e == Conflict(ProviderDimension) ==> keys == {"provider"}
    ensures e == Conflict(PatientDimension) ==> keys == {"patient"}
    ensures e == Conflict(FacilityDimension) ==> keys == {"facility"}
    ensures e.FieldErrors? ==> keys == e.problems.Keys
    ensures !e.Conflict? && !e.FieldErrors? ==> keys == {"non_field_errors"}
  {
    match e
    case FieldErrors(problems) => problems.Keys
    case Conflict(ProviderDimension) => {"provider"}
    case Conflict(PatientDimension) => {"patient"}
    case Conflict(FacilityDimension) => {"facility"}
    case _ => {"non_field_errors"}
  }

  // ------------------------------------------------------------ resolving a request

  /** `attrs.get(name) or getattr(self.instance, name, None)`. */
  function Resolved<T>(given: Option<T>, stored: Option<T>): (r: Option<T>)
    ensures given.Some? ==> r == given
    ensures given.None? ==> r == stored
  {
    if given.Some? then given else stored
  }

  /** The booking a request describes once missing values fall back to the edited appointment. */
  datatype Booking = Booking(
    start: Option<int>,
    end: Option<int>,
    provider: Option<User>,
    patient: Option<Patient>,
    facility: Option<nat>)

  function Resolve(attrs: Attrs, instance: Option<Appointment>): (b: Booking)
    ensures instance.None? ==> b == Booking(attrs.start, attrs.end, attrs.provider, attrs.patient, attrs.facility)
    ensures instance.Some? ==>
      && b.start == Some(attrs.start.GetOr(instance.value.start))
      && b.end == Some(attrs.end.GetOr(instance.value.end))
      && b.provider == Some(attrs.provider.GetOr(instance.value.provider))
      && b.patient == Some(attrs.patient.GetOr(instance.value.patient))
      && b.facility == Some(attrs.facility.GetOr(instance.value.facility))
  {
    if instance.None? then Booking(attrs.start, attrs.end, attrs.provider, attrs.patient, attrs.facility)
    else
      var a := instance.value;
      Booking(
        Resolved(attrs.start, Some(a.start)),
        Resolved(attrs.end, Some(a.end)),
        Resolved(attrs.provider, Some(a.provider)),
        Resolved(attrs.patient, Some(a.patient)),
        Resolved(attrs.facility, Some(a.facility)))
  }

  // ------------------------------------------------------------ the overlap query

  /** `status__in=active_statuses, start_time__lt=end, end_time__gt=start` for one row. */
  predicate Blocks(a: Appointment, start: int, end: int) {
    IsActive(a.status) && a.start < end && a.end > start
  }

  /** The ids the overlap query selects, minus the edited appointment's own. */
  function Window(rows: map<nat, Appointment>, start: int, end: int, exclude: Option<nat>): (w: set<nat>)
    ensures forall id :: id in w <==> id in rows && Blocks(rows[id], start, end) && exclude != Some(id)
  {
    set id | id in rows && Blocks(rows[id], start, end) && exclude != Some(id)
  }

  /** `appointments.filter(<dimension>=<value>).exists()`. */
  predicate Busy(rows: map<nat, Appointment>, w: set<nat>, b: Booking, d: Dimension)
    requires w <= rows.Keys
  {
    match d
    case ProviderDimension => b.provider.Some? && exists id | id in w :: rows[id].provider.id == b.provider.value.id
    case PatientDimension => b.patient.Some? && exists id | id in w :: rows[id].patient.id == b.patient.value.id
    case FacilityDimension => b.facility.Some? && exists id | id in w :: rows[id].facility == b.facility.value
  }

  // ------------------------------------------------------------ validate

  /** The id the overlap query excludes: the edited appointment's. */
  function Excluded(instance: Option<Appointment>): (r: Option<nat>)
    ensures r.Some? <==> instance.Some?
  {
    if instance.Some? then Some(instance.value.id) else None
  }

  /**
   * `validate`: times are required, must be ordered and at least five
   * minutes apart; the provider's type must be eligible; then the first
   * dimension (provider, patient, facility) in which another active
   * appointment overlaps the window is the one error. Accepted attributes
   * come back unchanged.
   */
  function Validate(attrs: Attrs, instance: Option<Appointment>, rows: map<nat, Appointment>)
    : (r: Result<Attrs, BookingError>)
    ensures r.Ok? ==> r.value == attrs
    ensures r.Err? ==> !r.error.FieldErrors?
    ensures Resolve(attrs, instance).start.None? || Resolve(attrs, instance).end.None? ==> r == Err(TimesRequired)
  {
    var b := Resolve(attrs, instance);
    if b.start.None? || b.end.None? then Err(TimesRequired)
    else if b.start.value >= b.end.value then Err(EndNotAfterStart)
    else if b.end.value - b.start.value < MinimumLength then Err(TooShort)
    else if b.provider.Some? && b.provider.value.userType !in EligibleProviderTypes then Err(ProviderNotEligible)
    else
      var w := Window(rows, b.start.value, b.end.value, Excluded(instance));
      if Busy(rows, w, b, ProviderDimension) then Err(Conflict(ProviderDimension))
      else if Busy(rows, w, b, PatientDimension) then Err(Conflict(PatientDimension))
      else if Busy(rows, w, b, FacilityDimension) then Err(Conflict(FacilityDimension))
      else Ok(attrs)
  }

  // ------------------------------------------------------------ field validators

  /**
   * DRF's field pass before `validate`: on a create or a full update the
   * model's required fields must be present; `validate_provider` and
   * `validate_patient` reject an inactive account or profile. All field
   * problems are reported together.
   */
  function FieldCheck(attrs: Attrs, requireAll: bool): (m: map<string, FieldProblem>)
    ensures "patient" in m <==> (requireAll && attrs.patient.None?) || (attrs.patient.Some? && !attrs.patient.value.isActive)
    ensures "provider" in m <==> (requireAll && attrs.provider.None?) || (attrs.provider.Some? && !attrs.provider.value.isActive)
    ensures "facility" in m <==> requireAll && attrs.facility.None?
    ensures "start_time" in m <==> requireAll && attrs.start.None?
    ensures "end_time" in m <==> requireAll && attrs.end.None?
    ensures m.Keys <= {"patient", "provider", "facility", "start_time", "end_time"}
    ensures "patient" in m ==> m["patient"] == if attrs.patient.None? then Required else Inactive
    ensures "provider" in m ==> m["provider"] == if attrs.provider.None? then Required else Inactive
  {
    var m0: map<string, FieldProblem> := map[];
    var m1 :=
      if attrs.patient.None? then (if requireAll then m0["patient" := Required] else m0)
      else if !attrs.patient.value.isActive then m0["patient" := Inactive] else m0;
    var m2 :=
      if attrs.provider.None? then (if requireAll then m1["provider" := Required] else m1)
      else if !attrs.provider.value.isActive then m1["provider" := Inactive] else m1;
    var m3 := if requireAll && attrs.facility.None? then m2["facility" := Required] else m2;
    var m4 := if requireAll && attrs.start.None? then m3["start_time" := Required] else m3;
    if requireAll && attrs.end.None? then m4["end_time" := Required] else m4
  }

  /**
   * The serializer's `is_valid()`: the field pass, then `validate`. A
   * create, or an update that is not partial, requires every model field
   * without a default.
   */
  function RunValidation(attrs: Attrs, instance: Option<Appointment>, partial: bool, rows: map<nat, Appointment>)
    : (r: Result<Attrs, BookingError>)
    ensures r.Ok? ==> r.value == attrs
    ensures r.Ok? ==> r == Validate(attrs, instance, rows)
    ensures r.Err? && r.error.FieldErrors? ==> r.error.problems == FieldCheck(attrs, instance.None? || !partial)
    ensures r.Ok? && (instance.None? || !partial) ==>
      && attrs.patient.Some? && attrs.provider.Some? && attrs.facility.Some?
      && attrs.start.Some? && attrs.end.Some?
    ensures r.Ok? ==>
      && (attrs.patient.Some? ==> attrs.patient.value.isActive)
      && (attrs.provider.Some? ==> attrs.provider.value.isActive)
  {
    var problems := FieldCheck(attrs, instance.None? || !partial);
    if |problems| > 0 then Err(FieldErrors(problems)) else Validate(attrs, instance, rows)
  }

  /** `create`: `validated_data.setdefault("created_by", request.user)`. */
  function WithCreatedByDefault(attrs: Attrs, requestUser: Option<nat>): (r: Attrs)
    ensures attrs.createdBy.Some? ==> r == attrs
    ensures attrs.createdBy.None? ==> r == attrs.(createdBy := Some(requestUser))
  {
    if attrs.createdBy.Some? then attrs else attrs.(createdBy := Some(requestUser))
  }

  /** The row a create inserts under `id`; the status defaults to scheduled. */
  function NewAppointment(id: nat, attrs: Attrs): (a: Appointment)
    requires attrs.patient.Some? && attrs.provider.Some? && attrs.facility.Some?
    requires attrs.start.Some? && attrs.end.Some?
    ensures a.id == id && a.status == attrs.status.GetOr(Scheduled)
    ensures a.createdBy == (if attrs.createdBy.Some? then attrs.createdBy.value else None)
  {
    Appointment(id, attrs.patient.value, attrs.provider.value, attrs.facility.value,
      attrs.status.GetOr(Scheduled), attrs.start.value, attrs.end.value,
      if attrs.createdBy.Some? then attrs.createdBy.value else None)
  }

  /** The row an update leaves: supplied fields replace stored ones; `created_by` is kept. */
  function Updated(instance: Appointment, attrs: Attrs): (a: Appointment)
    ensures a.id == instance.id && a.createdBy == instance.createdBy
    ensures a.status == attrs.status.GetOr(instance.status)
    ensures a.patient == attrs.patient.GetOr(instance.patient)
    ensures a.provider == attrs.provider.GetOr(instance.provider)
    ensures a.facility == attrs.facility.GetOr(instance.facility)
    ensures a.start == attrs.start.GetOr(instance.start) && a.end == attrs.end.GetOr(instance.end)
  {
    Appointment(instance.id,
      attrs.patient.GetOr(instance.patient), attrs.provider.GetOr(instance.provider),
      attrs.facility.GetOr(instance.facility), attrs.status.GetOr(instance.status),
      attrs.start.GetOr(instance.start), attrs.end.GetOr(instance.end), instance.createdBy)
  }

  // ------------------------------------------------------------ what validation guarantees

  /** Two active appointments overlap in time (half-open intervals). */
  predicate Overlap(a: Appointment, b: Appointment) {
    IsActive(a.status) && IsActive(b.status) && a.start < b.end && b.start < a.end
  }

  /** Two appointments share their provider, their patient or their facility. */
  predicate Share(a: Appointment, b: Appointment) {
    a.provider.id == b.provider.id || a.patient.id == b.patient.id || a.facility == b.facility
  }

  /** No two active, overlapping appointments share a provider, a patient or a facility. */
  ghost predicate NoDoubleBooking(rows: map<nat, Appointment>) {
    forall i, j | i in rows && j in rows && i != j :: !(Overlap(rows[i], rows[j]) && Share(rows[i], rows[j]))
  }

  /** Every row is stored under its own id. */
  ghost predicate WellKeyed(rows: map<nat, Appointment>) {
    forall id | id in rows :: rows[id].id == id
  }

  /** An accepted booking has ordered times at least five minutes apart and an eligible provider. */
  lemma AcceptedBookingIsWellFormed(attrs: Attrs, instance: Option<Appointment>, rows: map<nat, Appointment>)
    requires Validate(attrs, instance, rows).Ok?
    ensures
      var b := Resolve(attrs, instance);
      && b.start.Some? && b.end.Some?
      && b.start.value < b.end.value
      && b.end.value - b.start.value >= MinimumLength
      && (b.provider.Some? ==> b.provider.value.userType in EligibleProviderTypes)
  {
  }

  /**
   * An accepted booking clashes with no other active appointment: any row
   * but the edited one that overlaps the resolved window shares none of the
   * resolved provider, patient and facility.
   */
  lemma AcceptedBookingIsFree(attrs: Attrs, instance: Option<Appointment>, rows: map<nat, Appointment>, id: nat)
    requires Validate(attrs, instance, rows).Ok?
    requires id in rows && Excluded(instance) != Some(id)
    ensures
      var b := Resolve(attrs, instance);
      Blocks(rows[id], b.start.value, b.end.value) ==>
        && (b.provider.Some? ==> rows[id].provider.id != b.provider.value.id)
        && (b.patient.Some? ==> rows[id].patient.id != b.patient.value.id)
        && (b.facility.Some? ==> rows[id].facility != b.facility.value)
  {
    var b := Resolve(attrs, instance);
    var w := Window(rows, b.start.value, b.end.value, Excluded(instance));
    if Blocks(rows[id], b.start.value, b.end.value) {
      assert id in w;
    }
  }

  /**
   * A conflict error names the first dimension in which an overlapping
   * active appointment exists; the dimensions before it are free.
   */
  lemma ConflictIsFirstBusyDimension(attrs: Attrs, instance: Option<Appointment>, rows: map<nat, Appointment>)
    requires Validate(attrs, instance, rows).Err? && Validate(attrs, instance, rows).error.Conflict?
    ensures
      var b := Resolve(attrs, instance);
      var w := Window(rows, b.start.value, b.end.value, Excluded(instance));
      var d := Validate(attrs, instance, rows).error.dimension;
      && Busy(rows, w, b, d)
      && (d != ProviderDimension ==> !Busy(rows, w, b, ProviderDimension))
      && (d == FacilityDimension ==> !Busy(rows, w, b, PatientDimension))
  {
  }

  /**
   * The converse of the two lemmas above: a booking whose resolved times are
   * present, ordered and at least five minutes apart, whose provider (if
   * any) is eligible, and which is free in all three dimensions, is
   * accepted with its attributes unchanged.
   */
  lemma FreeBookingAccepted(attrs: Attrs, instance: Option<Appointment>, rows: map<nat, Appointment>)
    requires
      var b := Resolve(attrs, instance);
      && b.start.Some? && b.end.Some?
      && b.start.value < b.end.value
      && b.end.value - b.start.value >= MinimumLength
      && (b.provider.Some? ==> b.provider.value.userType in EligibleProviderTypes)
    requires
      var b := Resolve(attrs, instance);
      var w := Window(rows, b.start.value, b.end.value, Excluded(instance));
      && !Busy(rows, w, b, ProviderDimension)
      && !Busy(rows, w, b, PatientDimension)
      && !Busy(rows, w, b, FacilityDimension)
    ensures Validate(attrs, instance, rows) == Ok(attrs)
  {
  }

  /** A provider conflict is reported whatever the patient and facility situation. */
  lemma ProviderConflictWins(attrs: Attrs, rows: map<nat, Appointment>, id: nat)
    requires attrs.start.Some? && attrs.end.Some? && attrs.provider.Some?
    requires attrs.end.value - attrs.start.value >= MinimumLength
    requires attrs.provider.value.userType in EligibleProviderTypes
    requires id in rows && Blocks(rows[id], attrs.start.value, attrs.end.value)
    requires rows[id].provider.id == attrs.provider.value.id
    ensures Validate(attrs, None, rows) == Err(Conflict(ProviderDimension))
  {
    var w := Window(rows, attrs.start.value, attrs.end.value, None);
    assert id in w;
  }

  /** The length check: under five minutes is rejected, exactly five minutes passes it. */
  lemma MinimumLengthBoundary(attrs: Attrs, rows: map<nat, Appointment>)
    requires attrs.start.Some? && attrs.end.Some?
    ensures attrs.start.value < attrs.end.value && attrs.end.value - attrs.start.value < MinimumLength ==>
      Validate(attrs, None, rows) == Err(TooShort)
    ensures attrs.end.value - attrs.start.value == MinimumLength ==>
      Validate(attrs, None, rows) != Err(TooShort) && Validate(attrs, None, rows) != Err(EndNotAfterStart)
  {
  }

  /** A five-minute booking with an eligible provider in an otherwise empty calendar is accepted. */
  lemma FiveMinutesAccepted(attrs: Attrs)
    requires attrs.start.Some? && attrs.end == Some(attrs.start.value + MinimumLength)
    requires attrs.provider.None? || attrs.provider.value.userType in EligibleProviderTypes
    ensures Validate(attrs, None, map[]) == Ok(attrs)
  {
    var w := Window(map[], attrs.start.value, attrs.end.value, None);
    assert w == {};
  }

  /** An appointment that ends when the new one starts, or starts when it ends, never blocks it. */
  lemma BackToBackNeverBlocks(a: Appointment, start: int, end: int)
    requires a.end == start || a.start == end
    requires start < end
    ensures !Blocks(a, start, end)
  {
  }

  /** Completed and cancelled appointments never block a booking. */
  lemma InactiveNeverBlocks(a: Appointment, start: int, end: int)
    requires a.status == Completed || a.status == Cancelled
    ensures !Blocks(a, start, end)
  {
  }

  /** Adding or removing completed and cancelled appointments never changes what `validate` says. */
  lemma InactiveRowsIrrelevant(attrs: Attrs, instance: Option<Appointment>, rows: map<nat, Appointment>, id: nat, a: Appointment)
    requires !IsActive(a.status)
    ensures Validate(attrs, instance, rows[id := a]) == Validate(attrs, instance, rows - {id})
  {
    var b := Resolve(attrs, instance);
    if b.start.Some? && b.end.Some? {
      var w1 := Window(rows[id := a], b.start.value, b.end.value, Excluded(instance));
      var w2 := Window(rows - {id}, b.start.value, b.end.value, Excluded(instance));
      assert w1 == w2;
    }
  }

  /** When editing, the appointment's own row is never a conflict: validating against it is validating without it. */
  lemma EditedAppointmentExcluded(attrs: Attrs, instance: Appointment, rows: map<nat, Appointment>)
    ensures Validate(attrs, Some(instance), rows[instance.id := instance]) == Validate(attrs, Some(instance), rows - {instance.id})
  {
    var b := Resolve(attrs, Some(instance));
    var w1 := Window(rows[instance.id := instance], b.start.value, b.end.value, Some(instance.id));
    var w2 := Window(rows - {instance.id}, b.start.value, b.end.value, Some(instance.id));
    assert w1 == w2;
  }

  /**
   * Re-validating an unchanged, active appointment of a calendar free of
   * double bookings never reports a conflict: every row that blocks its
   * window would overlap it and so shares nothing with it. (An appointment
   * that is cancelled or completed can conflict on re-validation, since it
   * may have lost its slot to another booking.)
   */
  lemma RevalidationNeverConflicts(rows: map<nat, Appointment>, id: nat)
    requires NoDoubleBooking(rows) && WellKeyed(rows) && id in rows && IsActive(rows[id].status)
    ensures
      var r := Validate(Attrs(None, None, None, None, None, None, None), Some(rows[id]), rows);
      !(r.Err? && r.error.Conflict?)
  {
    var a := rows[id];
    var attrs := Attrs(None, None, None, None, None, None, None);
    var b := Resolve(attrs, Some(a));
    var w := Window(rows, a.start, a.end, Some(a.id));
    forall j | j in w ensures !Share(a, rows[j]) {
      assert Overlap(a, rows[j]);
    }
  }

  /** The booking a create resolves to is exactly the row it inserts. */
  lemma ResolveNew(attrs: Attrs, id: nat)
    requires attrs.patient.Some? && attrs.provider.Some? && attrs.facility.Some?
    requires attrs.start.Some? && attrs.end.Some?
    ensures
      var a := NewAppointment(id, attrs);
      Resolve(attrs, None) == Booking(Some(a.start), Some(a.end), Some(a.provider), Some(a.patient), Some(a.facility))
  {
  }

  /** Inserting a row that clashes with no active row keeps the calendar free of double bookings. */
  lemma InsertFreeRow(rows: map<nat, Appointment>, id: nat, a: Appointment)
    requires NoDoubleBooking(rows)
    requires forall j | j in rows && j != id :: !(Overlap(a, rows[j]) && Share(a, rows[j]))
    ensures NoDoubleBooking(rows[id := a])
  {
    var next := rows[id := a];
    forall i, j | i in next && j in next && i != j ensures !(Overlap(next[i], next[j]) && Share(next[i], next[j])) {
      if i == id {
        assert next[i] == a && next[j] == rows[j];
      } else if j == id {
        assert next[j] == a && next[i] == rows[i];
        assert !(Overlap(a, rows[i]) && Share(a, rows[i]));
      } else {
        assert next[i] == rows[i] && next[j] == rows[j];
      }
    }
  }

  /** A row whose resolved booking validated clashes with no row but the one it replaces. */
  lemma ValidatedRowIsFree(
    attrs: Attrs, instance: Option<Appointment>, rows: map<nat, Appointment>, id: nat, a: Appointment)
    requires Validate(attrs, instance, rows).Ok?
    requires Excluded(instance).Some? ==> Excluded(instance) == Some(id)
    requires Resolve(attrs, instance) == Booking(Some(a.start), Some(a.end), Some(a.provider), Some(a.patient), Some(a.facility))
    ensures forall j | j in rows && j != id :: !(Overlap(a, rows[j]) && Share(a, rows[j]))
  {
    forall j | j in rows && j != id ensures !(Overlap(a, rows[j]) && Share(a, rows[j])) {
      AcceptedBookingIsFree(attrs, instance, rows, j);
      if Overlap(a, rows[j]) {
        assert Blocks(rows[j], a.start, a.end);
      }
    }
  }

  /**
   * The main booking invariant, for creates: inserting the row an accepted
   * create describes never makes two active, overlapping appointments share
   * a provider, a patient or a facility.
   */
  lemma AcceptedCreateKeepsNoDoubleBooking(attrs: Attrs, rows: map<nat, Appointment>, id: nat)
    requires NoDoubleBooking(rows) && id !in rows
    requires RunValidation(attrs, None, false, rows).Ok?
    ensures NoDoubleBooking(rows[id := NewAppointment(id, attrs)])
  {
    var a := NewAppointment(id, attrs);
    ResolveNew(attrs, id);
    ValidatedRowIsFree(attrs, None, rows, id, a);
    InsertFreeRow(rows, id, a);
  }

  /**
   * The same invariant for updates: replacing an appointment by the row an
   * accepted update describes keeps the calendar free of double bookings.
   */
  lemma AcceptedUpdateKeepsNoDoubleBooking(attrs: Attrs, rows: map<nat, Appointment>, id: nat, partial: bool)
    requires NoDoubleBooking(rows) && WellKeyed(rows) && id in rows
    requires RunValidation(attrs, Some(rows[id]), partial, rows).Ok?
    ensures NoDoubleBooking(rows[id := Updated(rows[id], attrs)])
  {
    var instance := rows[id];
    var a := Updated(instance, attrs);
    assert Resolve(attrs, Some(instance)) == Booking(Some(a.start), Some(a.end), Some(a.provider), Some(a.patient), Some(a.facility));
    ValidatedRowIsFree(attrs, Some(instance), rows, id, a);
    InsertFreeRow(rows, id, a);
  }
}
