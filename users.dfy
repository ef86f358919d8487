/** The user handlers: sign-up (idempotent on an existing id), lookup, listing
    and deletion. User ids are chosen by the client. */
module Users {
  import opened Domain

  /** The body of a sign-up request; absent fields are None. */
  datatype UserRequest = UserRequest(id: Option<Id>, name: Option<string>, email: Option<string>,
                                     photo: Option<string>, role: Option<string>,
                                     gender: Option<string>, dob: Option<string>)

  predicate AllDetails(body: UserRequest)
  {
    GivenText(body.id) && GivenText(body.name) && GivenText(body.email) && GivenText(body.photo)
    && GivenText(body.gender) && GivenText(body.dob)
  }

  function SignedUp(body: UserRequest): User
    requires AllDetails(body)
  {
    User(body.name.value, body.email.value, body.photo.value, body.role, body.gender.value, body.dob.value)
  }

  /** `newUser`: an id already registered is welcomed with 200 and nothing
      changes; otherwise every detail but the role must be truthy (400), and the
      user is created under the given id, also with 200. */
  method NewUser(db: Store, body: UserRequest) returns (r: Response)
    requires db.Valid()
    modifies db`users
    ensures db.Valid()
    ensures body.id.Some? && body.id.value in old(db.users) ==> r == Ok(200) && unchanged(db)
    ensures !(body.id.Some? && body.id.value in old(db.users)) && !AllDetails(body) ==>
              r == Fail(400, "Please enter all details!!") && unchanged(db)
    ensures !(body.id.Some? && body.id.value in old(db.users)) && AllDetails(body) ==>
              r == Ok(200) && db.users == old(db.users)[body.id.value := SignedUp(body)]
  {
    if body.id.Some? && body.id.value in db.users {
      return Ok(200);
    }
    if !AllDetails(body) {
      return Fail(400, "Please enter all details!!");
    }
    db.users := db.users[body.id.value := SignedUp(body)];
    r := Ok(200);
  }

  /** Signing up twice with the same request creates the user once: the second
      call finds the id and changes nothing. */
  method SignUpTwice(db: Store, body: UserRequest) returns (first: Response, second: Response)
    requires db.Valid() && AllDetails(body)
    modifies db`users
    ensures db.Valid()
    ensures first == Ok(200) && second == Ok(200)
    ensures body.id.value in db.users
    ensures db.users == old(db.users)[body.id.value := if body.id.value in old(db.users)
                                                     then old(db.users)[body.id.value]
                                                     else SignedUp(body)]
  {
    first := NewUser(db, body);
    ghost var between := db.users;
    second := NewUser(db, body);
    assert db.users == between;
  }

  method GetAllUsers(db: Store) returns (users: map<Id, User>)
    ensures forall id :: id in users <==> id in db.users
    ensures forall id :: id in users ==> users[id] == db.users[id]
  {
    users := db.users;
  }

  method GetUser(db: Store, id: Id) returns (r: Response, user: Option<User>)
    ensures id !in db.users ==> r == Fail(400, "Invalid User!") && user.None?
    ensures id in db.users ==> r == Ok(200) && user == Some(db.users[id])
  {
    if id !in db.users {
      return Fail(400, "Invalid User!"), None;
    }
    r, user := Ok(200), Some(db.users[id]);
  }

  /** `deleteUser` removes the user alone: their orders and reviews stay. */
  method DeleteUser(db: Store, id: Id) returns (r: Response)
    requires db.Valid()
    modifies db`users
    ensures db.Valid()
    ensures id !in old(db.users) ==> r == Fail(400, "Invalid User!") && unchanged(db)
    ensures id in old(db.users) ==> r == Ok(200) && db.users == old(db.users) - {id}
  {
    if id !in db.users {
      return Fail(400, "Invalid User!");
    }
    db.users := db.users - {id};
    r := Ok(200);
  }
}
