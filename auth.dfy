/** The `adminOnly` middleware in front of the admin routes. */
module Auth {
  import opened Domain

  /** What the middleware does: pass the request on, or answer with an error. */
  datatype Gate = Allow | Deny(response: Response)

  /** The caller is identified by the `id` query parameter: a missing id asks
      for a login, an unknown one is refused, and only the role "admin" passes. */
  function AdminOnly(users: map<Id, User>, id: Option<Id>): (g: Gate)
    ensures !GivenText(id) ==> g == Deny(Fail(401, "Please login"))
    ensures GivenText(id) && id.value !in users ==> g == Deny(Fail(401, "Please enter valid credentials"))
    ensures GivenText(id) && id.value in users && users[id.value].role != Some("admin")
            ==> g == Deny(Fail(401, "You are not authorized to use this route"))
  {
    if !GivenText(id) then Deny(Fail(401, "Please login"))
    else if id.value !in users then Deny(Fail(401, "Please enter valid credentials"))
    else if users[id.value].role != Some("admin") then Deny(Fail(401, "You are not authorized to use this route"))
    else Allow
  }

  /** The gate lets through exactly the registered administrators with a
      non-empty id. */
  lemma AdminOnlyAdmitsExactlyAdmins(users: map<Id, User>, id: Option<Id>)
    ensures AdminOnly(users, id) == Allow
            <==> GivenText(id) && id.value in users && users[id.value].role == Some("admin")
  {
  }

  /** Every refusal is a 401. */
  lemma AdminOnlyRefusesWith401(users: map<Id, User>, id: Option<Id>)
    ensures AdminOnly(users, id).Deny? ==> AdminOnly(users, id).response.Fail?
                                           && AdminOnly(users, id).response.status == 401
  {
  }
}
