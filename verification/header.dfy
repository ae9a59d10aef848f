/** The role tests of the site header (src/components/common/Header.tsx).
    No profile (signed out, or not yet loaded) is `None`. */
module Header {
  import opened Wrappers
  import opened Types

  /** `isAdmin`. */
  function IsAdmin(profile: Option<Profile>): (r: bool)
    ensures r <==> profile.Some? && profile.value.role == Admin
  {
    profile.Some? && profile.value.role == Admin
  }

  /** `isStaff`: admins, kitchen staff and cashiers, but not the role named
      "staff". */
  function IsStaff(profile: Option<Profile>): (r: bool)
    ensures r ==> profile.Some?
  {
    match profile
    case None => false
    case Some(p) => p.role == Admin || p.role == KitchenStaff || p.role == Cashier
  }

  /** Every admin is staff; the "staff" and "student" roles and a missing
      profile are not; kitchen staff and cashiers are staff without being
      admins. */
  lemma RoleTests(p: Profile)
    ensures IsAdmin(Some(p)) ==> IsStaff(Some(p))
    ensures p.role == Staff || p.role == Student ==> !IsStaff(Some(p)) && !IsAdmin(Some(p))
    ensures p.role == KitchenStaff || p.role == Cashier ==> IsStaff(Some(p)) && !IsAdmin(Some(p))
    ensures !IsStaff(None) && !IsAdmin(None)
  {
  }
}
