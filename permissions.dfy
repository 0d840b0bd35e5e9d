/** `IsClinicalStaff` of apps/api/permissions.py. */
module Permissions {
  import opened Wrappers
  import opened CoreModels

  /** `CLINICAL_ROLES`: the user types allowed to read and write health records. */
  const ClinicalRoles: set<UserType> := {Doctor, Nurse, Midwife, Pharmacist, LabTechnician}

  /**
   * `has_permission`: denied without an authenticated user, allowed for a
   * superuser whatever its user type, otherwise allowed exactly for the
   * clinical user types.
   */
  predicate HasPermission(user: Option<User>)
    ensures user.None? || !user.value.isAuthenticated ==> !HasPermission(user)
    ensures user.Some? && user.value.isAuthenticated && user.value.isSuperuser ==> HasPermission(user)
    ensures user.Some? && user.value.isAuthenticated && !user.value.isSuperuser ==>
      (HasPermission(user) <==> user.value.userType in ClinicalRoles)
  {
    && user.Some?
    && user.value.isAuthenticated
    && (user.value.isSuperuser || user.value.userType in ClinicalRoles)
  }

  /** `has_object_permission`: the object plays no part, the request-level rule decides. */
  predicate HasObjectPermission<T>(user: Option<User>, obj: T)
    ensures HasObjectPermission(user, obj) <==> HasPermission(user)
  {
    HasPermission(user)
  }

  /** A community health worker, or a user of type "admin" who is not a superuser, is denied. */
  lemma NonClinicalDenied(user: User)
    requires !user.isSuperuser
    requires user.userType == CommunityWorker || user.userType == Administrator
    ensures !HasPermission(Some(user))
  {
  }

  /** Access never depends on the role persona, only on authentication, superuser flag and user type. */
  lemma RoleIrrelevant(user: User, role: Role)
    ensures HasPermission(Some(user.(role := role))) == HasPermission(Some(user))
  {
  }
}
