/** `POST /api/auth/login`: finds the user holding an account number and compares the
    stored plain-text password; every failure gets the same answer. */
module LoginRoute {
  import opened Common
  import opened Ledger

  datatype Request = Request(account: Option<string>, password: Option<string>)

  /** A user row without its password: what a successful login returns. */
  datatype PublicUser = PublicUser(
    id: string, email: string, fullName: string, accountNumber: Option<string>, createdAt: int)

  function Public(u: UserRow): (p: PublicUser)
    ensures p.id == u.id && p.email == u.email && p.fullName == u.fullName
    ensures p.accountNumber == u.accountNumber && p.createdAt == u.createdAt
  {
    PublicUser(u.id, u.email, u.fullName, u.accountNumber, u.createdAt)
  }

  /** The user the account number names, when exactly one user holds it. A missing
      account field matches nobody. */
  function Lookup(users: seq<UserRow>, req: Request): (r: Option<nat>)
    ensures r.Some? ==> req.account.Some? && OnlyUser(users, ByAccountNumber(req.account.value), r.value)
    ensures r.None? && req.account.Some? ==>
      forall i :: 0 <= i < |users| ==> !OnlyUser(users, ByAccountNumber(req.account.value), i)
  {
    if req.account.None? then None else SingleUser(users, ByAccountNumber(req.account.value))
  }

  /** The handler; None stands for a body that is not JSON. It changes nothing. */
  function Login(users: seq<UserRow>, req: Option<Request>): (r: Response<PublicUser>)
    ensures req.None? ==> r == Fail(500, "Internal server error")
    ensures req.Some? && r.Fail? ==> r == Fail(401, "Invalid credentials")
    ensures r.Ok? ==> r.status == 200
    ensures r.Ok? <==> req.Some? && Lookup(users, req.value).Some? &&
                       req.value.password == Some(users[Lookup(users, req.value).value].password)
    ensures r.Ok? ==> r.body == Public(users[Lookup(users, req.value).value])
  {
    if req.None? then Fail(500, "Internal server error")
    else
      match Lookup(users, req.value)
      case None => Fail(401, "Invalid credentials")
      case Some(i) =>
        if req.value.password != Some(users[i].password) then Fail(401, "Invalid credentials")
        else Ok(200, Public(users[i]))
  }

  /** A login succeeds exactly when one and only one user holds the account number
      and the password given is that user's password. */
  lemma {:induction false} LoginSucceedsIff(users: seq<UserRow>, number: string, password: string)
    ensures Login(users, Some(Request(Some(number), Some(password)))).Ok? <==>
      exists i: nat :: OnlyUser(users, ByAccountNumber(number), i) && users[i].password == password
  {
    var req := Request(Some(number), Some(password));
    if exists i: nat :: OnlyUser(users, ByAccountNumber(number), i) && users[i].password == password {
      var i: nat :| OnlyUser(users, ByAccountNumber(number), i) && users[i].password == password;
      assert Lookup(users, req).Some?;
    }
  }

  /** Two users holding the same account number lock both out. */
  lemma {:induction false} SharedAccountNumberLocksOut(users: seq<UserRow>, i: nat, j: nat, password: Option<string>)
    requires i < |users| && j < |users| && i != j
    requires users[i].accountNumber.Some? && users[j].accountNumber == users[i].accountNumber
    ensures Login(users, Some(Request(users[i].accountNumber, password))).Fail?
  {
    var key := ByAccountNumber(users[i].accountNumber.value);
    forall k | 0 <= k < |users| ensures !OnlyUser(users, key, k) {
      if k == i {
        assert UserMatches(users[j], key);
      } else {
        assert UserMatches(users[i], key);
      }
    }
  }
}

/** `POST /api/auth/register`: creates a user unless exactly one user already has the
    email. */
module RegisterRoute {
  import opened Common
  import opened Ledger

  datatype Request = Request(email: Option<string>, password: Option<string>, fullName: Option<string>)

  /** The columns the insert selects back. */
  datatype NewUser = NewUser(id: string, email: string, fullName: string, createdAt: int)

  predicate Complete(req: Request) {
    Truthy(req.email) && Truthy(req.password) && Truthy(req.fullName)
  }

  /** No two users share an email. */
  ghost predicate UniqueEmails(users: seq<UserRow>) {
    forall i, j :: 0 <= i < j < |users| ==> users[i].email != users[j].email
  }

  /** The answer of the duplicate check: `existingUser` is set only when exactly one row
      matches; no row and several rows both come back as error PGRST116, which the
      handler lets through; `lookupFault` stands for any other error. */
  datatype Lookup = Exists | Fault | Proceed

  function Existing(users: seq<UserRow>, email: string, lookupFault: bool): (x: Lookup)
    ensures x == Exists <==> !lookupFault && SingleUser(users, ByEmail(email)).Some?
    ensures x == Fault <==> lookupFault
  {
    if lookupFault then Fault
    else if SingleUser(users, ByEmail(email)).Some? then Exists
    else Proceed
  }

  /** The inserted row: the plain-text password is stored, with no account number yet. */
  function NewRow(req: Request, id: string, now: nat): (u: UserRow)
    requires Complete(req)
    ensures u.id == id && u.email == req.email.value && u.password == req.password.value
    ensures u.fullName == req.fullName.value && u.accountNumber.None? && u.createdAt == now
  {
    UserRow(id, req.email.value, req.password.value, req.fullName.value, None, now)
  }

  /** The handler. `newId` is the id the database assigns and `now` the creation time. */
  method Post(db: Store, req: Option<Request>, now: nat, newId: string, lookupFault: bool, insertOk: bool)
    returns (r: Response<NewUser>)
    modifies db`users
    ensures req.None? ==> r == Fail(500, "An unexpected error occurred") && unchanged(db)
    ensures req.Some? && !Complete(req.value) ==> r == Fail(400, "Missing required fields") && unchanged(db)
    ensures req.Some? && Complete(req.value) && Existing(old(db.users), req.value.email.value, lookupFault) == Exists ==>
      r == Fail(409, "User with this email already exists") && unchanged(db)
    ensures req.Some? && Complete(req.value) && Existing(old(db.users), req.value.email.value, lookupFault) == Fault ==>
      r == Fail(500, "Error checking for existing user") && unchanged(db)
    ensures req.Some? && Complete(req.value) && Existing(old(db.users), req.value.email.value, lookupFault) == Proceed ==>
      var u := NewRow(req.value, newId, now);
      db.users == old(db.users) + (if insertOk then [u] else []) &&
      r == if insertOk then Ok(201, NewUser(u.id, u.email, u.fullName, u.createdAt))
           else Fail(500, "Could not create user")
  {
    if req.None? {
      return Fail(500, "An unexpected error occurred");
    }
    var body := req.value;
    if !Complete(body) {
      return Fail(400, "Missing required fields");
    }
    var existing := Existing(db.users, body.email.value, lookupFault);
    if existing == Exists {
      return Fail(409, "User with this email already exists");
    }
    if existing == Fault {
      return Fail(500, "Error checking for existing user");
    }
    var u := NewRow(body, newId, now);
    db.InsertUser(u, insertOk);
    if !insertOk {
      return Fail(500, "Could not create user");
    }
    return Ok(201, NewUser(u.id, u.email, u.fullName, u.createdAt));
  }

  /** While emails are unique the duplicate check is sound: an insert only happens
      for an email nobody has, so emails stay unique. */
  lemma {:induction false} RegisterKeepsEmailsUnique(users: seq<UserRow>, req: Request, id: string, now: nat)
    requires UniqueEmails(users) && Complete(req) && Existing(users, req.email.value, false) == Proceed
    ensures UniqueEmails(users + [NewRow(req, id, now)])
  {
    var email := req.email.value;
    var after := users + [NewRow(req, id, now)];
    forall k | 0 <= k < |users| ensures users[k].email != email {
      if users[k].email == email {
        assert OnlyUser(users, ByEmail(email), k) by {
          forall m | 0 <= m < |users| && m != k ensures !UserMatches(users[m], ByEmail(email)) {
            if m < k {
              assert users[m].email != users[k].email;
            } else {
              assert users[k].email != users[m].email;
            }
          }
        }
      }
    }
    forall i, j | 0 <= i < j < |after| ensures after[i].email != after[j].email {
      if j == |users| {
        assert after[i] == users[i];
      } else {
        assert after[i] == users[i] && after[j] == users[j];
      }
    }
  }

  /** Once two users share an email the check no longer catches it: a third
      registration with that email goes on to the insert. */
  lemma {:induction false} DuplicatesSlipThrough(users: seq<UserRow>, i: nat, j: nat)
    requires i < |users| && j < |users| && i != j && users[i].email == users[j].email
    ensures Existing(users, users[i].email, false) == Proceed
  {
    var key := ByEmail(users[i].email);
    forall k | 0 <= k < |users| ensures !OnlyUser(users, key, k) {
      if k == i {
        assert UserMatches(users[j], key);
      } else {
        assert UserMatches(users[i], key);
      }
    }
  }
}
