/** `HealthRecordCreateSerializer.validate` of apps/records/serializers.py. */
module RecordValidation {
  import opened Wrappers
  import opened CoreModels

  /**
   * The validated attributes of a health record that `validate` looks at:
   * the patient and the attending provider, either of which may be absent;
   * `rest` stands for the other validated fields, passed through untouched.
   */
  datatype RecordAttrs<Rest> = RecordAttrs(patient: Option<Patient>, attendingProvider: Option<User>, rest: Rest)

  /** The non-field error `validate` raises, with its message. */
  datatype RecordError = NonFieldError(message: string)

  const PatientInactive: RecordError := NonFieldError("Patient profile is inactive.")
  const ProviderInactive: RecordError := NonFieldError("Attending provider account is inactive.")

  /**
   * `validate`: an inactive patient is rejected first, then an inactive
   * attending provider; absent ones are not checked; accepted attributes
   * come back unchanged.
   */
  function Validate<Rest>(attrs: RecordAttrs<Rest>): (r: Result<RecordAttrs<Rest>, RecordError>)
    ensures r.Ok? ==> r.value == attrs
    ensures r.Ok? <==>
      && (attrs.patient.None? || attrs.patient.value.isActive)
      && (attrs.attendingProvider.None? || attrs.attendingProvider.value.isActive)
    ensures r == Err(PatientInactive) <==> attrs.patient.Some? && !attrs.patient.value.isActive
    ensures r == Err(ProviderInactive) <==>
      && (attrs.patient.None? || attrs.patient.value.isActive)
      && attrs.attendingProvider.Some? && !attrs.attendingProvider.value.isActive
  {
    if attrs.patient.Some? && !attrs.patient.value.isActive then Err(PatientInactive)
    else if attrs.attendingProvider.Some? && !attrs.attendingProvider.value.isActive then Err(ProviderInactive)
    else Ok(attrs)
  }

  /** Validation depends only on the two references, never on the other fields. */
  lemma OnlyReferencesMatter<Rest>(a: RecordAttrs<Rest>, b: RecordAttrs<Rest>)
    requires a.patient == b.patient && a.attendingProvider == b.attendingProvider
    ensures Validate(a).Ok? == Validate(b).Ok?
    ensures Validate(a).Err? ==> Validate(a) == Validate(b)
  {
  }
}
