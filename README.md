# OpenCare-Core booking rules and audit trail, in Dafny

This project models the core of OpenCare-Core, a Django/DRF back end for
community health clinics, and proves properties of that model:

- **Appointment booking**: `AppointmentCreateSerializer` runs its field
  validators (required fields, inactive provider or patient) and then its
  cross-field `validate`. That step checks that start and end exist, that
  they are ordered and at least five minutes apart, and that the provider's
  user type is eligible. It then runs a half-open overlap query over the
  active (scheduled or no-show) appointments, leaving out the appointment
  being edited. The first busy dimension (provider, then patient, then
  facility) is the one error. The main theorem: inserting an accepted create
  or applying an accepted update never makes two active, overlapping
  appointments share a provider, a patient or a facility.
- **Appointment viewset**: create, update and destroy with their
  notification events. The status actions `cancel`, `complete` and
  `mark_no_show` each refuse only the status the appointment already has.
  The queries `upcoming`, `by_provider` and `by_patient` are modelled, as is
  the `check_conflicts` response wrapper. Cancelling and completing keep the
  calendar free of double bookings. A concrete calendar shows that marking a
  cancelled appointment as no-show can double-book it.
- **Audit recorder** (`apps/core/audit.py`): the change payload is
  sanitised against a whitelist. This is proved idempotent, and the
  example payload `{"secret": "x", "count": "5", "fields": ["b", "a", "a"]}`
  is computed in full. The recorder
  also extracts the client IP, truncates the user agent, and defers the
  write while an atomic block is open. The database connection is a
  `Transaction` class holding the audit table, an on-commit queue and one
  mark per open block. Commit drains the queue into the append-only table;
  rollback discards what the block queued.
- **Audit mixin** (`apps/api/mixins.py`): object ids (with the `"list"`
  sentinel), model names, the change payload that `_build_change_payload`
  fills and what the recorder stores of it, and the list count. It also
  fixes the order of save or delete and logging in each CRUD hook.
- **Exception sanitiser** (`apps/api/exceptions.py`): `_normalize_errors`
  is proved to yield plain JSON and to be idempotent. The status-to-body
  mapping is modelled, and server errors are proved to reveal nothing. The
  4xx response is overwritten in place.
- **Small rules**: the `IsClinicalStaff` permission, the health-record
  validator, and the superuser→admin data migration (an in-place update of
  the user table, proved against a specification function).

Python values that reach the audit and error payloads are a datatype
`PyValues.PyValue`. Only the built-ins the core applies to them are modelled:
`str`, `repr`, truth testing, iteration and `int`. Instants are integers
(microseconds), so five minutes is `300_000_000`.

Where the code departs from what its tests and names lead one to expect,
the model follows the code:

- Status actions refuse only a transition into the same status
  (apps/appointments/views.py:127, 142, 157). Completed, cancelled and
  no-show are not terminal: `complete` accepts a cancelled appointment, and
  `mark_no_show` accepts a cancelled or completed one.
- `validate` has no rule against a start time in the past, although
  `test_cannot_schedule_in_past` (apps/appointments/tests/test_appointments_api.py:224-233)
  expects one, so the model has none either.

## Model

| member | source | states |
|---|---|---|
| Appointments.Resolve | apps/appointments/serializers.py:77-78 | each time falls back to the edited appointment's value when the request leaves it out |
| Appointments.Window | apps/appointments/serializers.py:93-97 | exactly the ids of active rows with `start < end` and `end > start`, minus the edited appointment's id |
| Appointments.Validate | apps/appointments/serializers.py:75-106 | accepted attributes come back unchanged; missing start or end gives the "times required" error; it never raises a field error |
| Appointments.FieldCheck | apps/appointments/serializers.py:108-116 | which fields are reported, and why: required and absent on a full write, or provider/patient inactive; no other key appears |
| Appointments.RunValidation | apps/appointments/serializers.py:75-116 | field problems come first; an accepted create or full update has every required field, with active provider and patient |
| Appointments.WithCreatedByDefault | apps/appointments/serializers.py:118-121 | `created_by` is set to the request user only when absent |
| Appointments.NewAppointment | apps/appointments/serializers.py:118-121 | the inserted row keeps the id and `created_by`, and its status defaults to scheduled |
| Appointments.Updated | apps/appointments/serializers.py:75-106 | an update keeps the id and `created_by`; supplied fields replace stored ones |
| Appointments.ErrorKeys | apps/appointments/serializers.py:99-104 | a conflict error is keyed by its dimension's name alone (`provider`, `patient`, `facility`); field errors by their fields; every other error by `non_field_errors` |
| Appointments.AcceptedBookingIsWellFormed | apps/appointments/serializers.py:79-91 | an accepted booking has both times, start before end, at least five minutes, and an eligible provider |
| Appointments.AcceptedBookingIsFree | apps/appointments/serializers.py:93-104 | no other active overlapping row shares the accepted provider, patient or facility |
| Appointments.ConflictIsFirstBusyDimension | apps/appointments/serializers.py:99-104 | the reported dimension is busy and every dimension checked before it is free |
| Appointments.FreeBookingAccepted | apps/appointments/serializers.py:79-106 | present, ordered times at least five minutes apart, an eligible provider and no busy dimension: accepted, attributes unchanged |
| Appointments.ProviderConflictWins | apps/appointments/serializers.py:99-100 | a provider clash is reported whatever the patient and facility situation |
| Appointments.MinimumLengthBoundary | apps/appointments/serializers.py:81-84 | under five minutes is rejected as too short; exactly five passes both time checks |
| Appointments.FiveMinutesAccepted | apps/appointments/serializers.py:83-106 | a five-minute booking, with an eligible provider or none, in an empty calendar is accepted |
| Appointments.BackToBackNeverBlocks | apps/appointments/serializers.py:94 | an appointment ending at the new start, or starting at the new end, never blocks |
| Appointments.InactiveNeverBlocks | apps/appointments/serializers.py:93-94 | completed and cancelled appointments never block |
| Appointments.InactiveRowsIrrelevant | apps/appointments/serializers.py:93-95 | adding or removing an inactive row never changes the verdict |
| Appointments.EditedAppointmentExcluded | apps/appointments/serializers.py:96-97 | validating an edit against its own row equals validating without it |
| Appointments.RevalidationNeverConflicts | apps/appointments/serializers.py:96-97 | in a calendar free of double bookings, re-validating an unchanged active appointment never reports a conflict |
| Appointments.ResolveNew | apps/appointments/serializers.py:77-88 | on create, the resolved booking is the inserted row's |
| Appointments.InsertFreeRow | apps/appointments/serializers.py:93-104 | inserting a row that clashes with nothing keeps the no-double-booking invariant |
| Appointments.ValidatedRowIsFree | apps/appointments/serializers.py:93-104 | the row an accepted booking describes clashes with no other row |
| Appointments.AcceptedCreateKeepsNoDoubleBooking | apps/appointments/serializers.py:75-121 | after an accepted create, no two active overlapping appointments share a provider, patient or facility |
| Appointments.AcceptedUpdateKeepsNoDoubleBooking | apps/appointments/serializers.py:75-106 | the same invariant after an accepted update, full or partial |
| AppointmentViews.WithStatus | apps/appointments/views.py:132-133 | only the one appointment's status changes |
| AppointmentViews.Upcoming | apps/appointments/views.py:79-86 | exactly the scheduled appointments that start after now |
| AppointmentViews.ByProvider | apps/appointments/views.py:93-96 | exactly the appointments of that provider |
| AppointmentViews.ByPatient | apps/appointments/views.py:103-106 | exactly the appointments of that patient |
| AppointmentViews.CheckConflictsBody | apps/appointments/views.py:113-121 | `has_conflicts` iff there is a result; `conflicts` is the result when truthy, else `{}` |
| AppointmentViews.EmptyConflictsStillReported | apps/appointments/views.py:119-120 | an empty result still sets `has_conflicts` |
| AppointmentViews.DeactivatingKeepsNoDoubleBooking | apps/appointments/views.py:123-151 | cancelling or completing keeps the no-double-booking invariant |
| AppointmentViews.NoShowCanDoubleBook | apps/appointments/views.py:153-166 | a calendar exists where marking a cancelled appointment as no-show double-books it |
| AppointmentViews.StatusChangeKeepsOwners | apps/appointments/views.py:132-133 | status changes never change the by-provider and by-patient results |
| AppointmentViews.UnscheduledNotUpcoming | apps/appointments/views.py:82-86 | an appointment no longer scheduled leaves `upcoming`, which is otherwise unchanged |
| AppointmentViews.AppointmentViewSet.Create | apps/appointments/views.py:65-68 | a rejected create changes nothing; an accepted one inserts the row under a fresh id and notifies "created"; a calendar free of double bookings stays free |
| AppointmentViews.AppointmentViewSet.Update | apps/appointments/views.py:70-73 | not found or rejected changes nothing; otherwise the row is replaced and "updated" is sent; a calendar free of double bookings stays free |
| AppointmentViews.AppointmentViewSet.Destroy | apps/appointments/views.py:75-77 | "cancelled" is sent with the row as it was, then the row is removed |
| AppointmentViews.AppointmentViewSet.SetStatus | apps/appointments/views.py:123-166 | refuses only the current status, with the action's message; otherwise sets it and notifies with the saved row |
| AppointmentViews.AppointmentViewSet.Cancel | apps/appointments/views.py:123-136 | already cancelled → "Appointment is already cancelled.", nothing changes; otherwise status cancelled and "cancelled" sent; no double booking is created |
| AppointmentViews.AppointmentViewSet.Complete | apps/appointments/views.py:138-151 | already completed → "Appointment is already completed."; every other status becomes completed and "updated" is sent; no double booking is created |
| AppointmentViews.AppointmentViewSet.MarkNoShow | apps/appointments/views.py:153-166 | already no-show → "Appointment is already marked as no-show."; every other status becomes no-show and "updated" is sent |
| Audit.ClientIp | apps/core/audit.py:15-25 | no request → none; a non-empty forwarded-for header gives its first comma-separated token, stripped; otherwise the remote address |
| Audit.UserAgent | apps/core/audit.py:28-36 | "" without a request; otherwise a prefix of the header, at most 512 characters, the whole header when short |
| Audit.SanitizedValue | apps/core/audit.py:46-57 | only whitelisted keys survive; list keys need an iterable and become sorted distinct strings; text keys are stringified; count is `int()` or 0 |
| Audit.SanitizeEntries | apps/core/audit.py:45-58 | every stored key is whitelisted |
| Audit.Sanitized | apps/core/audit.py:39-44 | a non-dict gives `{}`; every key is whitelisted |
| Audit.SanitizeChangePayload | apps/core/audit.py:39-58 | the loop computes exactly `Sanitized` |
| Audit.SanitizeEntriesAt | apps/core/audit.py:46-57 | a key is stored iff its item survives, with that item's sanitised value |
| Audit.SanitizedValueFixed | apps/core/audit.py:49-57 | sanitising a sanitised value gives it back |
| Audit.SanitizeIdempotent | apps/core/audit.py:39-58 | sanitising a dict that holds the sanitised payload gives the same payload |
| Audit.SanitizeExample | apps/core/audit.py:39-58 | `{"secret","count":"5","fields":["b","a","a"]}` is stored as `count=5, fields=["a","b"]` |
| Audit.EntryWith | apps/core/audit.py:79-90 | unauthenticated user → null actor; a missing or `None` object id → "", otherwise its text; IP and user agent from the request |
| Audit.MakeEntry | apps/core/audit.py:76-90 | the written entry's changes have whitelisted keys only |
| Audit.Step | apps/core/audit.py:81-95 | well-formedness kept; a write adds exactly one entry to table or queue; the table only grows; inside a block only the outermost commit writes; rollback never writes |
| Audit.Run | apps/core/audit.py:92-95 | a run of steps keeps the connection well-formed |
| Audit.RunConcat | apps/core/audit.py:92-95 | running two sequences is running one after the other |
| Audit.WritesInsideBlock | apps/core/audit.py:92-93 | inside a block, writes only queue |
| Audit.TableAppendOnly | apps/core/audit.py:81-95 | no sequence of operations removes or changes a stored entry |
| Audit.WriteOutsideBlock | apps/core/audit.py:94-95 | outside a block, the entry is written at once |
| Audit.InsideBlocks | apps/core/audit.py:92-93 | operations that keep the enclosing blocks open, savepoints included, write nothing to the table |
| Audit.RolledBackBlockLeavesNoTrace | apps/core/audit.py:92-93 | a block that rolls back, whatever savepoints it nests, leaves the connection exactly as before |
| Audit.CommittedTransactionWrites | apps/core/audit.py:92-93 | a committed transaction appends exactly its queued entries, in order |
| Audit.NestedTransactionCommits | apps/core/audit.py:92-93 | with nested savepoints, nothing is written before the outermost commit, which appends exactly what is still queued |
| Audit.InnerCommitUndoneByOuterRollback | apps/core/audit.py:92-93 | an inner savepoint's commit is undone when the outer block rolls back |
| Audit.Transaction.Begin | apps/core/audit.py:92 | entering a block is a `Begin` step |
| Audit.Transaction.Commit | apps/core/audit.py:93 | the drain loop performs a `Commit` step |
| Audit.Transaction.Rollback | apps/core/audit.py:92-93 | a `Rollback` step |
| Audit.Transaction.LogAuditEvent | apps/core/audit.py:61-95 | an empty model name fails with nothing written; otherwise exactly one `Write` of the entry |
| AuditMixin.ModelInstance.Save | apps/api/mixins.py:65 | a new instance gets the assigned key; an existing one keeps its own |
| AuditMixin.ModelInstance.Delete | apps/api/mixins.py:101 | the instance has no key afterwards |
| AuditMixin.ObjectIdOfPk | apps/api/mixins.py:38-39 | no `pk` attribute or a `None` key gives ""; an integer key its decimal text; a string key itself |
| AuditMixin.GetAuditObjectId | apps/api/mixins.py:20-39 | no instance gives "list"; otherwise the key's text |
| AuditMixin.IntegerObjectIdIsNotSentinel | apps/api/mixins.py:20-39 | an integer key never gives "list" nor "" |
| AuditMixin.GetAuditModelName | apps/api/mixins.py:22-33 | instance label, else queryset model, else serializer model, else an error |
| AuditMixin.PayloadValue | apps/api/mixins.py:41-61 | only whitelisted keys can be present |
| AuditMixin.KeyIndex | apps/api/mixins.py:50-61 | the five payload keys in the order they are filled |
| AuditMixin.FillStep | apps/api/mixins.py:50-61 | each conditional assignment adds exactly the next key's value |
| AuditMixin.FilledIsPayload | apps/api/mixins.py:50-61 | after the five steps the dict is the change payload |
| AuditMixin.BuildChangePayload | apps/api/mixins.py:41-61 | fields and filters as sets when truthy; summary and metadata when truthy; count whenever given, 0 included; distinct keys |
| AuditMixin.StoredValue | apps/api/mixins.py:41-61 | only whitelisted keys can be stored |
| AuditMixin.StoredChanges | apps/api/mixins.py:41-61 | a key is stored iff it has a stored value |
| AuditMixin.SummaryOnlyStored | apps/api/mixins.py:99-114 | a summary-only payload is stored as just the summary |
| AuditMixin.SanitizedStringSet | apps/api/mixins.py:50-61 | a set of names is stored as their sorted distinct list |
| AuditMixin.ChangePayloadStored | apps/api/mixins.py:41-61 | every payload key survives the recorder; names are stored, never values |
| AuditMixin.ListCount | apps/api/mixins.py:121-129 | length of a list `results`, else an int (or bool) `count`, else a list's length, else none |
| AuditMixin.AuditLogMixin.SaveAndLog | apps/api/mixins.py:64-88 | save first; then one entry naming the saved key and the validated field names |
| AuditMixin.AuditLogMixin.PerformCreate | apps/api/mixins.py:64-75 | after save, a "create" entry with the field names |
| AuditMixin.AuditLogMixin.PerformUpdate | apps/api/mixins.py:77-88 | after save, an "update" entry with the field names |
| AuditMixin.AuditLogMixin.PerformDestroy | apps/api/mixins.py:90-101 | a "delete" entry with summary "record deleted" under the old key, then the delete; no delete if logging fails |
| AuditMixin.AuditLogMixin.Retrieve | apps/api/mixins.py:104-116 | logs "record retrieved" only when status < 400 |
| AuditMixin.AuditLogMixin.List | apps/api/mixins.py:118-143 | logs only when status < 400, under "list", with the count and the query-parameter names as filters |
| ApiExceptions.BasicMessage | apps/api/exceptions.py:18-23 | a fixed message exactly for 400, 401, 403 and 404 |
| ApiExceptions.Normalize | apps/api/exceptions.py:83-94 | None stays None; list or tuple → list of the same length; dict → same keys; leaf → its string |
| ApiExceptions.NormalizeIsPrimitive | apps/api/exceptions.py:83-94 | the result is plain JSON |
| ApiExceptions.NormalizeFixesPrimitive | apps/api/exceptions.py:83-94 | plain JSON is left unchanged |
| ApiExceptions.NormalizeIdempotent | apps/api/exceptions.py:83-94 | normalising twice is normalising once |
| ApiExceptions.Body | apps/api/exceptions.py:44-80 | a dict with keys code and message |
| ApiExceptions.ErrorCode | apps/api/exceptions.py:53-56 | the data's truthy code, else the truthy default code, else "error"; always truthy |
| ApiExceptions.ClientErrorBody | apps/api/exceptions.py:65-73 | code, message from the map or the status text, and errors exactly when the normalised errors are truthy |
| ApiExceptions.HandlerReply | apps/api/exceptions.py:26-80 | no response → 500 generic; ≥ 500 → own status, generic, "server_error"; 4xx → client body; below 400 → code with the generic message |
| ApiExceptions.ServerErrorsRevealNothing | apps/api/exceptions.py:44-63 | missing and 5xx replies depend on the status alone |
| ApiExceptions.ReplyShape | apps/api/exceptions.py:44-80 | every body has a truthy code, a text message and at most an errors key besides |
| ApiExceptions.Snapshot | apps/api/exceptions.py:51-52 | null exactly when DRF gave no response |
| ApiExceptions.SanitizedExceptionHandler | apps/api/exceptions.py:26-80 | the reply is `HandlerReply`; a 4xx response is rewritten in place, every other case is a new response |
| Permissions.HasPermission | apps/api/permissions.py:29-35 | no or unauthenticated user denied; superuser allowed; otherwise allowed iff the type is clinical |
| Permissions.HasObjectPermission | apps/api/permissions.py:37-42 | always equals the request-level check |
| Permissions.NonClinicalDenied | apps/api/permissions.py:21-35 | community workers and admin-typed users who are not superusers are denied |
| Permissions.RoleIrrelevant | apps/api/permissions.py:29-35 | the role persona plays no part |
| RecordValidation.Validate | apps/records/serializers.py:101-113 | inactive patient → patient error, checked first; then inactive provider; absent ones skipped; accepted attrs unchanged |
| RecordValidation.OnlyReferencesMatter | apps/records/serializers.py:101-113 | only the patient and provider decide |
| AdminRoleMigration.WithAdminRole | apps/core/migrations/0002_set_admin_role_default.py:6-9 | same length; superusers get role admin; other rows unchanged |
| AdminRoleMigration.SetAdminRole | apps/core/migrations/0002_set_admin_role_default.py:9 | the in-place update leaves exactly `WithAdminRole` of the old table |
| AdminRoleMigration.UnsetAdminRole | apps/core/migrations/0002_set_admin_role_default.py:19 | the reverse leaves the table unchanged |
| AdminRoleMigration.SuperusersAreAdmins | apps/core/migrations/0002_set_admin_role_default.py:9 | afterwards every superuser has role admin |
| AdminRoleMigration.OnlyRolesOfSuperusersChange | apps/core/migrations/0002_set_admin_role_default.py:9 | non-superusers unchanged; no field but role changes |
| AdminRoleMigration.SetAdminRoleIdempotent | apps/core/migrations/0002_set_admin_role_default.py:9 | running the forward step twice equals running it once |
| Strings.Strip | apps/core/audit.py:24 | no surrounding whitespace (in the sense of `str.isspace`) is left, and only whitespace is removed |
| Strings.StripIdempotent | apps/core/audit.py:24 | stripping twice is stripping once |
| Strings.ParseInt | apps/core/audit.py:55 | `int()` of a string succeeds iff, once stripped, it is digits with an optional leading sign; the value is the digits' value, negated after `-` |
| Strings.ParseIntSignAndSpaces | apps/core/audit.py:55 | `int(" +5 ")` and `int("5\x1f")` are 5 |
| Strings.ParseIntDigits | apps/core/audit.py:55 | `int("007")` is 7 and `int("-12")` is -12 |
| Strings.ParseIntRejects | apps/core/audit.py:55 | `int()` rejects `""`, `"-"` and `"5a"` |
| Strings.IntStringRoundTrip | apps/core/audit.py:55 | parsing an integer's decimal text gives the integer back |
| Strings.SortedDistinct | apps/core/audit.py:50 | `sorted(set(...))`: strictly sorted, with the same elements |
| Strings.StrictlySortedUnique | apps/core/audit.py:50 | two strictly sorted lists with the same elements are equal |
| Strings.Truncate | apps/core/audit.py:36 | a prefix of at most n characters, the whole string when short |
| Strings.BeforeFirst | apps/core/audit.py:24 | `split(",")[0]`: a prefix without the separator, stopping at its first occurrence |
| PyValues.IntOf | apps/core/audit.py:55-57 | `int()`: a bool is 0 or 1, an int itself, strings parsed, everything else fails |
| PyValues.Iterate | apps/core/audit.py:49 | strings, lists, tuples, sets and dicts are iterable, and nothing else |
| PyValues.Get | apps/api/mixins.py:124-127 | `dict.get`: none iff the key is absent, otherwise a stored value of that key |

## Left out

- Concurrency and database isolation: the race between the conflict query and the insert is not modelled. Each operation runs alone.
- Datetimes and time zones: instants are integers, and `timezone.now()` is a parameter of `Upcoming`.
- The past-start rule the tests expect: `validate` has no such check.
- `Appointment.check_conflicts` is not part of this model. Only the response wrapper around its result is.
- `RoleRequired` and the viewset's permission classes are not part of this model.
- Notifications are recorded as events in an outbox. Email, SMS and message texts are left out.
- Query results are sets of ids: ordering by `start_time`, pagination and serializer output are left out.
- `AppointmentViews.AppointmentViewSet`: its create, update and destroy do not also write the audit entries that `AuditLogMixin` adds. The mixin hooks are modelled on their own in `AuditMixin.AuditLogMixin`.
- Appointment fields that no rule reads are left out: `appointment_type`, `reason`, `notifications_sent`, `created_at` and `updated_at`.
- The audit entry's timestamp is left out (clock), and so are database column limits.
- Logging calls, and the request metadata built only for logging, are left out.
- DRF's own machinery is an input: `super().list`/`retrieve` responses, the response DRF's handler gives, and `status_text`.
- DRF's field pass is reduced to required fields and the two `validate_*` hooks. Type coercion of field values is left out.
- `AuditMixin.ModelInstance.Save`: the database-assigned key is a parameter.
- Python sets: a set's iteration order is taken to be first-occurrence order. Only the sanitiser observes it, and it sorts.
- Floats and other numeric types are not among the modelled Python values, so `int()` of a float is not modelled.
- Strings.ParseInt: does not accept the underscores or non-ASCII digits Python's `int()` accepts.
- PyValues.Repr: strings are quoted with `'` and not escaped.
- The migration's `apps.get_model` and schema editor are left out. The user table is an array.
- The URL's `provider_id`/`patient_id` strings are taken as already-parsed ids.
