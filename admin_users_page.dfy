/** The administrator's user table: blocking and unblocking a user, and
    deleting one. Each handler replaces the whole list. */
module AdminUsersPage {
  import Lists

  datatype PageUser = PageUser(id: int, name: string, email: string, role: string, status: string)

  function IdOf(u: PageUser): int { u.id }

  /** The status a toggle gives: "active" becomes "inactive", anything else
      becomes "active". */
  function Flip(status: string): (r: string)
    ensures r == "active" || r == "inactive"
    ensures r == "inactive" <==> status == "active"
  {
    if status == "active" then "inactive" else "active"
  }

  /** `users.map(u => u.id === id ? { ...u, status: flipped } : u)`. */
  function Toggle(users: seq<PageUser>, id: int): (r: seq<PageUser>)
    ensures |r| == |users|
    ensures forall j :: 0 <= j < |r| ==>
      r[j] == if users[j].id == id then users[j].(status := Flip(users[j].status)) else users[j]
  {
    seq(|users|, j requires 0 <= j < |users| =>
          if users[j].id == id then users[j].(status := Flip(users[j].status)) else users[j])
  }

  /** A toggle touches only the status of the users with that id. */
  lemma ToggleTouchesOnlyStatus(users: seq<PageUser>, id: int)
    ensures var r := Toggle(users, id);
            forall j :: 0 <= j < |r| ==>
              r[j].id == users[j].id && r[j].name == users[j].name && r[j].email == users[j].email &&
              r[j].role == users[j].role && (users[j].id != id ==> r[j].status == users[j].status)
  {
  }

  /** Toggling twice restores every user whose status was "active" or
      "inactive"; any other status ends as "inactive". */
  lemma ToggleTwice(users: seq<PageUser>, id: int)
    ensures var r := Toggle(Toggle(users, id), id);
            |r| == |users| &&
            forall j :: 0 <= j < |r| ==>
              (users[j].status in {"active", "inactive"} ==> r[j] == users[j]) &&
              (users[j].id == id && users[j].status !in {"active", "inactive"} ==> r[j].status == "inactive")
  {
  }

  /** `users.filter(u => u.id !== id)`. */
  function Delete(users: seq<PageUser>, id: int): seq<PageUser> {
    Lists.RemoveKey(users, IdOf, id)
  }

  /** Deleting keeps exactly the users with another id, in order. */
  lemma DeleteEffect(users: seq<PageUser>, id: int, rest: seq<PageUser>)
    ensures forall u :: u in Delete(users, id) <==> u in users && u.id != id
    ensures Delete(users + rest, id) == Delete(users, id) + Delete(rest, id)
  {
    Lists.RemoveKeyMembers(users, IdOf, id);
    Lists.RemoveKeyAppend(users, rest, IdOf, id);
  }
}
