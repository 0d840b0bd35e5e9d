/** The user and audit enumerations of apps/core/models.py. */
module CoreModels {

  /** `User.Role`: the high-level persona used for role-based access control. */
  datatype Role = Admin | Provider | Patient

  /** `User.USER_TYPE_CHOICES`: the kind of health worker. */
  datatype UserType =
    | Administrator
    | Doctor
    | Nurse
    | Midwife
    | CommunityWorker
    | Pharmacist
    | LabTechnician

  /**
   * The acting identity of a request. An anonymous user is one whose
   * `isAuthenticated` is false (its other fields then play no part).
   */
  datatype User = User(
    id: nat,
    isAuthenticated: bool,
    isSuperuser: bool,
    isActive: bool,
    userType: UserType,
    role: Role)

  /** A patient profile, as far as the validators look at it. */
  datatype Patient = Patient(id: nat, isActive: bool)

  /** `AuditTrail.ACTION_CHOICES`. */
  datatype AuditAction = Create | Update | Delete | View
}
