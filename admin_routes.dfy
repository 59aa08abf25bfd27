/** The user-management handlers for administrators: list, create, update
    and delete accounts. Names are stored trimmed and e-mails trimmed and
    lower-cased, and the stored e-mail is unique across accounts. */
module AdminRoutes {
  import opened Wrappers
  import opened Store
  import Js

  /** An account as the handlers reply with it: never the password. */
  datatype UserView = UserView(id: Id, name: string, email: string, role: string)

  /** The role the handlers derive from the request's `isAdmin` flag. */
  function RoleFor(isAdmin: bool): (role: string)
    ensures role == "admin" || role == "user"
    ensures role == "admin" <==> isAdmin
  {
    if isAdmin then "admin" else "user"
  }

  /** The id of an account other than `except` that stores `email`, if any. */
  predicate EmailTaken(users: map<Id, User>, email: string, except: Id) {
    exists id | id in users :: id != except && users[id].email == email
  }

  /** GET /api/admin/users. */
  function ListUsers(s: Backend): (r: map<Id, UserView>)
    ensures r.Keys == s.users.Keys
    ensures forall id :: id in r ==> r[id].email == s.users[id].email && r[id].role == s.users[id].role
  {
    map id | id in s.users :: UserView(id, s.users[id].name, s.users[id].email, s.users[id].role)
  }

  /** POST /api/admin/users, storing the account under the fresh `id`;
      "" stands for a missing field and `isAdmin` for the truthiness of the
      request's flag. */
  function CreateUser(s: Backend, name: string, email: string, password: string, isAdmin: bool,
                      id: Id): Outcome<UserView>
    requires id !in s.users
  {
    if name == "" || email == "" || password == "" then Outcome(s, Fail(400, "Please fill in all fields"))
    else if EmailTaken(s.users, Js.Normalize(email), id) then Outcome(s, Fail(400, "User already exists"))
    else
      var u := User(Js.Trim(name), Js.Normalize(email), password, RoleFor(isAdmin), false);
      Outcome(s.(users := s.users[id := u]), Ok(201, UserView(id, u.name, u.email, u.role)))
  }

  /** PUT /api/admin/users/:id. Name and e-mail fall back to the stored ones
      when not given, the password changes only when given, and the role is
      always recomputed from `isAdmin`. Saving an e-mail that another account
      holds breaks the unique index and answers 500. */
  function UpdateUser(s: Backend, id: Id, name: string, email: string, password: string,
                      isAdmin: bool): Outcome<UserView>
  {
    if id !in s.users then Outcome(s, Fail(404, "User not found"))
    else
      var stored := s.users[id];
      var u := stored.(name := Js.Trim(if name != "" then name else stored.name),
                     email := Js.Normalize(if email != "" then email else stored.email),
                     password := if password != "" then password else stored.password,
                     role := RoleFor(isAdmin));
      if EmailTaken(s.users, u.email, id) then Outcome(s, Fail(500, "Server error"))
      else Outcome(s.(users := s.users[id := u]), Ok(200, UserView(id, u.name, u.email, u.role)))
  }

  /** DELETE /api/admin/users/:id. */
  function DeleteUser(s: Backend, id: Id): Outcome<()> {
    if id !in s.users then Outcome(s, Fail(404, "User not found"))
    else Outcome(s.(users := s.users - {id}), Ok(200, ()))
  }

  method HandleCreateUser(db: Database, name: string, email: string, password: string, isAdmin: bool,
                          id: Id) returns (reply: Reply<UserView>)
    requires id !in db.users
    modifies db
    ensures var o := CreateUser(old(db.State()), name, email, password, isAdmin, id);
            db.State() == o.state && reply == o.reply
  {
    if name == "" || email == "" || password == "" {
      return Fail(400, "Please fill in all fields");
    }
    if EmailTaken(db.users, Js.Normalize(email), id) {
      return Fail(400, "User already exists");
    }
    var newUser := User(Js.Trim(name), Js.Normalize(email), password, RoleFor(isAdmin), false);
    db.users := db.users[id := newUser];
    reply := Ok(201, UserView(id, newUser.name, newUser.email, newUser.role));
  }

  method HandleUpdateUser(db: Database, id: Id, name: string, email: string, password: string,
                          isAdmin: bool) returns (reply: Reply<UserView>)
    modifies db
    ensures var o := UpdateUser(old(db.State()), id, name, email, password, isAdmin);
            db.State() == o.state && reply == o.reply
  {
    if id !in db.users {
      return Fail(404, "User not found");
    }
    var user := db.users[id];
    user := user.(name := Js.Trim(if name != "" then name else user.name));
    user := user.(email := Js.Normalize(if email != "" then email else user.email));
    if password != "" {
      user := user.(password := password);
    }
    user := user.(role := RoleFor(isAdmin));
    if EmailTaken(db.users, user.email, id) {
      return Fail(500, "Server error");
    }
    db.users := db.users[id := user];
    reply := Ok(200, UserView(id, user.name, user.email, user.role));
  }

  method HandleDeleteUser(db: Database, id: Id) returns (reply: Reply<()>)
    modifies db
    ensures var o := DeleteUser(old(db.State()), id);
            db.State() == o.state && reply == o.reply
  {
    if id !in db.users {
      return Fail(404, "User not found");
    }
    db.users := db.users - {id};
    reply := Ok(200, ());
  }

  // ---------------------------------------------------------------------
  // Properties

  /** No two accounts store the same e-mail. */
  ghost predicate EmailsUnique(users: map<Id, User>) {
    forall a, b :: a in users && b in users && a != b ==> users[a].email != users[b].email
  }

  /** Creating an account succeeds exactly when all three fields are given
      and the normalised e-mail is free; the new account has the derived
      role, a false `isAdmin` field, and e-mails stay unique. */
  lemma CreateUserEffect(s: Backend, name: string, email: string, password: string, isAdmin: bool, id: Id)
    requires id !in s.users
    requires EmailsUnique(s.users)
    ensures var o := CreateUser(s, name, email, password, isAdmin, id);
            (o.reply.Ok? <==> name != "" && email != "" && password != "" &&
                              forall other :: other in s.users ==> s.users[other].email != Js.Normalize(email)) &&
            (o.reply.Fail? ==> o.reply.code == 400 && o.state == s) &&
            (o.reply.Ok? ==> o.state.users.Keys == s.users.Keys + {id} &&
                             o.state.users[id].role == (if isAdmin then "admin" else "user") &&
                             !o.state.users[id].isAdmin &&
                             o.state.users[id].email == Js.Normalize(email)) &&
            EmailsUnique(o.state.users)
  {
  }

  /** An update of an unknown id answers 404 and changes nothing. Otherwise
      a given name or e-mail is stored trimmed (and the e-mail lower-cased),
      a missing one keeps the stored value, a missing password keeps the
      stored password, and the role is recomputed every time. Only that
      account changes, and it fails, changing nothing, exactly when another
      account already holds the resulting e-mail. */
  lemma UpdateUserFallbacks(s: Backend, id: Id, name: string, email: string, password: string, isAdmin: bool)
    requires EmailsUnique(s.users)
    requires id in s.users ==> var u := s.users[id]; Js.Trim(u.name) == u.name && Js.Normalize(u.email) == u.email
    ensures var o := UpdateUser(s, id, name, email, password, isAdmin);
            (id !in s.users ==> o.state == s && o.reply == Fail(404, "User not found")) &&
            (id in s.users ==>
               var u := s.users[id];
               var e := if email == "" then u.email else Js.Normalize(email);
               (o.reply.Ok? <==> !EmailTaken(s.users, e, id)) &&
               (name == "" && email == "" ==> o.reply.Ok?) &&
               (o.reply.Fail? ==> o.state == s) &&
               (o.reply.Ok? ==>
                  var v := o.state.users[id];
                  v.name == (if name == "" then u.name else Js.Trim(name)) &&
                  v.email == e &&
                  v.password == (if password == "" then u.password else password) &&
                  v.role == RoleFor(isAdmin) && v.isAdmin == u.isAdmin &&
                  o.state.users.Keys == s.users.Keys &&
                  (forall other :: other in s.users && other != id ==> o.state.users[other] == s.users[other]) &&
                  o.state == s.(users := o.state.users))) &&
            EmailsUnique(o.state.users)
  {
    var o := UpdateUser(s, id, name, email, password, isAdmin);
    if id in s.users && email == "" {
      OwnEmailNotTaken(s.users, id);
    }
    if o.reply.Ok? {
      StoreKeepsEmailsUnique(s.users, id, o.state.users[id]);
    }
  }

  /** Under unique e-mails, an account's own e-mail is held by no other. */
  lemma OwnEmailNotTaken(users: map<Id, User>, id: Id)
    requires EmailsUnique(users) && id in users
    ensures !EmailTaken(users, users[id].email, id)
  {
  }

  /** Storing an account whose e-mail no other account holds keeps e-mails unique. */
  lemma StoreKeepsEmailsUnique(users: map<Id, User>, id: Id, v: User)
    requires EmailsUnique(users) && !EmailTaken(users, v.email, id)
    ensures EmailsUnique(users[id := v])
  {
  }

  /** Updating an administrator without the flag demotes them to "user". */
  lemma UpdateDemotesAdmin(s: Backend, id: Id, name: string, email: string, password: string)
    requires id in s.users && s.users[id].role == "admin"
    ensures var o := UpdateUser(s, id, name, email, password, false);
            o.reply.Ok? ==> o.state.users[id].role == "user"
  {
  }

  /** Deleting removes exactly the requested account; an unknown id answers
      404 and changes nothing. */
  lemma DeleteUserEffect(s: Backend, id: Id)
    ensures var o := DeleteUser(s, id);
            (o.reply.Ok? <==> id in s.users) &&
            o.state.users.Keys == s.users.Keys - {id} &&
            (forall other :: other in o.state.users ==> o.state.users[other] == s.users[other]) &&
            (o.reply.Fail? ==> o.reply.code == 404 && o.state == s)
  {
  }
}
