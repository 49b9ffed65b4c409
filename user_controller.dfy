/** The user controller: an admin changes a user's role, and a signed-in user
    edits their own email and name. */
module UserController {
  import opened Common
  import opened Store

  /** The roles `updateUserRole` accepts; `rider` is not among them. */
  const AssignableRoles: set<string> := {"customer", "admin"}

  /** `updateUserRole`: a missing user id or a role other than customer/admin is
      refused, an unknown user is not found; otherwise the first user with that id
      gets the role and nothing else about any user changes. The endpoint never
      makes a rider. */
  method UpdateUserRole(db: Database, userId: UserId, role: string) returns (r: Result<User, Failure>)
    modifies db
    ensures userId == "" || role !in AssignableRoles ==> r == Err(Failure(400, "Invalid user ID or role"))
    ensures userId != "" && role in AssignableRoles && FindById(old(db.users), userId).None? ==>
      r == Err(Failure(404, "User not found"))
    ensures r.Err? ==> db.users == old(db.users)
    ensures r.Ok? <==> userId != "" && role in AssignableRoles && FindById(old(db.users), userId).Some?
    ensures r.Ok? ==>
      var k := FindById(old(db.users), userId).value;
      && r.value == old(db.users)[k].(role := role)
      && db.users == old(db.users)[k := r.value]
    ensures |db.users| == |old(db.users)|
    ensures forall j :: 0 <= j < |db.users| ==> db.users[j].role == "rider" ==> old(db.users)[j].role == "rider"
    ensures db.products == old(db.products) && db.carts == old(db.carts) && db.orders == old(db.orders)
  {
    if userId == "" || role !in AssignableRoles {
      return Err(Failure(400, "Invalid user ID or role"));
    }
    var found := FindById(db.users, userId);
    if found.None? {
      return Err(Failure(404, "User not found"));
    }
    var user := db.users[found.value].(role := role);
    db.users := db.users[found.value := user];
    r := Ok(user);
  }

  /** `updateProfile`: an unknown user is not found; otherwise the email and the
      name are replaced by the non-empty values given, the others kept, and the
      whole user record is returned. */
  method UpdateProfile(db: Database, userId: UserId, email: string, name: string) returns (r: Result<User, Failure>)
    modifies db
    ensures FindById(old(db.users), userId).None? ==> r == Err(Failure(404, "User not found")) && db.users == old(db.users)
    ensures FindById(old(db.users), userId).Some? ==>
      var k := FindById(old(db.users), userId).value;
      && r == Ok(WithProfile(old(db.users)[k], name, email))
      && db.users == old(db.users)[k := r.value]
    ensures db.products == old(db.products) && db.carts == old(db.carts) && db.orders == old(db.orders)
  {
    var found := FindById(db.users, userId);
    if found.None? {
      return Err(Failure(404, "User not found"));
    }
    var user := db.users[found.value];
    user := user.(email := Or(email, user.email));
    user := user.(name := Or(name, user.name));
    db.users := db.users[found.value := user];
    r := Ok(user);
  }
}
