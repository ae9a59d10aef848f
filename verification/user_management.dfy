/** The admin user page (src/pages/admin/UserManagement.tsx): adding an
    address to the whitelist, and the role selector. */
module UserManagement {
  import opened Wrappers
  import opened Types
  import Register

  /** The add-to-whitelist dialog. */
  datatype WhitelistForm = WhitelistForm(newEmail: string, dialogOpen: bool)

  /** How the add ended. */
  datatype AddOutcome = InvalidEmail | Added | AddFailed

  /** `handleAddToWhitelist`. `actingUser` is the signed-in user's id;
      `added` is whether the insert returned a row. A refusal makes no
      insert. */
  function HandleAddToWhitelist(form: WhitelistForm, actingUser: Option<string>, added: bool): (r: (AddOutcome, WhitelistForm))
    ensures r.0 == InvalidEmail <==> actingUser.None? || !Register.HasSritSuffix(form.newEmail)
    ensures r.0 == Added <==> actingUser.Some? && Register.HasSritSuffix(form.newEmail) && added
    ensures r.0 == Added ==> r.1 == WhitelistForm("", false)
    ensures r.0 != Added ==> r.1 == form
  {
    if actingUser.None? || !Register.HasSritSuffix(form.newEmail) then (InvalidEmail, form)
    else if added then (Added, WhitelistForm("", false))
    else (AddFailed, form)
  }

  /** The role selector is locked on the acting admin's own row. */
  predicate RoleLocked(profile: Profile, actingUser: Option<string>) {
    actingUser.Some? && profile.id == actingUser.value
  }

  /** The stored role names, as the selector's values. */
  function RoleName(r: UserRole): string {
    match r
    case Student => "student"
    case Staff => "staff"
    case Admin => "admin"
    case KitchenStaff => "kitchen_staff"
    case Cashier => "cashier"
  }

  /** The options of the role selector, in the order shown. */
  const RoleOptions: seq<string> := ["student", "staff", "admin", "kitchen_staff", "cashier"]

  /** The options are exactly the five roles, each once. */
  lemma RoleOptionsAreTheRoles(r: UserRole, name: string)
    ensures RoleName(r) in RoleOptions
    ensures name in RoleOptions ==> exists q :: RoleName(q) == name
    ensures |RoleOptions| == 5 && forall i, j :: 0 <= i < j < |RoleOptions| ==> RoleOptions[i] != RoleOptions[j]
  {
    if name in RoleOptions {
      if name == "student" { assert RoleName(Student) == name; }
      else if name == "staff" { assert RoleName(Staff) == name; }
      else if name == "admin" { assert RoleName(Admin) == name; }
      else if name == "kitchen_staff" { assert RoleName(KitchenStaff) == name; }
      else { assert RoleName(Cashier) == name; }
    }
  }

  /** No admin can change their own role from this page; anyone else's row
      is open to every signed-in admin. */
  lemma OwnRoleLocked(profile: Profile, actingUser: Option<string>)
    ensures actingUser == Some(profile.id) ==> RoleLocked(profile, actingUser)
    ensures actingUser.None? ==> !RoleLocked(profile, actingUser)
    ensures actingUser.Some? && actingUser.value != profile.id ==> !RoleLocked(profile, actingUser)
  {
  }
}
