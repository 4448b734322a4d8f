/** The user routes: administrators create client and supplier accounts, list
    and view them, and delete them; administrators themselves cannot be deleted. */
module Users {
  import opened Wrappers
  import opened Domain
  import opened Store
  import Text

  /** The role names a new account may be given; `admin` is not one of them. */
  function ParseRole(name: string): (r: Option<Role>)
    ensures r.Some? ==> r.value != Admin
  {
    if name == "client" then Some(Client)
    else if name == "supplier" then Some(Supplier)
    else None
  }

  function RoleName(role: Role): string {
    match role
    case Admin => "admin"
    case Client => "client"
    case Supplier => "supplier"
  }

  /** Every role but `admin` is accepted back from its own name. */
  lemma ParseRoleName(role: Role)
    ensures ParseRole(RoleName(role)) == if role == Admin then None else Some(role)
  {
  }

  /** A simplified e-mail shape: a non-empty local part, one `@`, and a domain
      with a dot that is neither its first nor its last character. */
  predicate EmailLike(email: string) {
    exists i :: 0 < i < |email| - 1 && email[i] == '@'
      && !Text.Contains(email[..i], "@") && !Text.Contains(email[i+1..], "@")
      && exists j :: i + 1 < j < |email| - 1 && email[j] == '.'
  }

  /** Request body of POST /api/users. */
  predicate UserValid(username: string, email: string, password: string, role: string) {
    |username| >= 3 && EmailLike(email) && |password| >= 6 && ParseRole(role).Some?
  }

  /** The checks of POST /api/users, in the handler's order. */
  function CreateCheck(d: Db, actor: Actor, username: string, email: string, password: string,
                       role: string): (r: Outcome)
    ensures r == Ok <==>
      && actor.role == Admin
      && UserValid(username, email, password, role)
      && !UsernameTaken(d.users, username)
      && !EmailTaken(d.users, email)
    ensures r == BadRequest(DuplicateUsername) ==> UsernameTaken(d.users, username)
    ensures r == BadRequest(DuplicateEmail) ==> EmailTaken(d.users, email) && !UsernameTaken(d.users, username)
  {
    if actor.role != Admin then Forbidden
    else if !UserValid(username, email, password, role) then BadRequest(InvalidInput)
    else if UsernameTaken(d.users, username) then BadRequest(DuplicateUsername)
    else if EmailTaken(d.users, email) then BadRequest(DuplicateEmail)
    else Ok
  }

  /** POST /api/users: stores a new client or supplier account created by the
      caller, with an empty profile. */
  method Create(s: Store, actor: Actor, username: string, email: string, password: string,
                role: string) returns (r: Outcome, id: Id)
    requires s.Valid()
    modifies s
    ensures s.Valid()
    ensures LocksKept(old(s.offers), s.offers)
    ensures r == CreateCheck(old(s.Snap()), actor, username, email, password, role)
    ensures r != Ok ==> unchanged(s)
    ensures r == Ok ==>
      var d := old(s.Snap());
      && id == d.nextId
      && s.Snap() == d.(
           users := d.users[id := User(username, email, ParseRole(role).value, Some(actor.userId), EmptyProfile)],
           nextId := id + 1)
  {
    id := 0;
    r := CreateCheck(s.Snap(), actor, username, email, password, role);
    if r != Ok {
      return;
    }
    id := s.NewId();
    s.users := s.users[id := User(username, email, ParseRole(role).value, Some(actor.userId), EmptyProfile)];
  }

  /** A user created through the route is never an administrator, so the set
      of administrators is what it was. */
  lemma CreateKeepsAdmins(d: Db, actor: Actor, username: string, email: string, password: string,
                          role: string, id: Id)
    requires IdsBelow(d) && id == d.nextId
    requires CreateCheck(d, actor, username, email, password, role) == Ok
    ensures var after := d.users[id := User(username, email, ParseRole(role).value, Some(actor.userId), EmptyProfile)];
      Admins(after) == Admins(d.users)
  {
    var after := d.users[id := User(username, email, ParseRole(role).value, Some(actor.userId), EmptyProfile)];
    assert id !in d.users;
    forall k | k in Admins(after) ensures k in Admins(d.users) {
      assert k != id;
    }
  }

  /** The ids of administrator accounts. */
  function Admins(users: map<Id, User>): (r: set<Id>)
    ensures forall k :: k in r <==> k in users && users[k].role == Admin
  {
    set k | k in users && users[k].role == Admin
  }

  /** GET /api/users: every account, for administrators only. */
  function List(d: Db, actor: Actor): (res: (Outcome, set<Id>))
    ensures res.0 == Ok <==> actor.role == Admin
    ensures res.0 == Ok ==> res.1 == d.users.Keys
    ensures res.0 != Ok ==> res.1 == {}
  {
    if actor.role != Admin then (Forbidden, {}) else (Ok, d.users.Keys)
  }

  /** The checks of GET /api/users/:id. */
  function ViewCheck(d: Db, actor: Actor, id: Id): (r: Outcome)
    ensures r == Ok <==> actor.role == Admin && id in d.users
  {
    if actor.role != Admin then Forbidden
    else if id !in d.users then NotFound
    else Ok
  }

  /** The checks of DELETE /api/users/:id, in the handler's order. */
  function DeleteCheck(d: Db, actor: Actor, id: Id): (r: Outcome)
    ensures r == Ok <==> actor.role == Admin && id in d.users && d.users[id].role != Admin
    ensures actor.role == Admin && id in d.users && d.users[id].role == Admin ==> r == Forbidden
  {
    if actor.role != Admin then Forbidden
    else if id !in d.users then NotFound
    else if d.users[id].role == Admin then Forbidden
    else Ok
  }

  /** DELETE /api/users/:id removes a non-administrator account. */
  method Delete(s: Store, actor: Actor, id: Id) returns (r: Outcome)
    requires s.Valid()
    modifies s
    ensures s.Valid()
    ensures LocksKept(old(s.offers), s.offers)
    ensures r == DeleteCheck(old(s.Snap()), actor, id)
    ensures r != Ok ==> unchanged(s)
    ensures r == Ok ==> s.Snap() == old(s.Snap()).(users := old(s.users) - {id})
    ensures Admins(s.users) == Admins(old(s.users))
  {
    r := DeleteCheck(s.Snap(), actor, id);
    if r != Ok {
      return;
    }
    s.users := s.users - {id};
  }
}
