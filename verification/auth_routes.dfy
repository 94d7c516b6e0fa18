/** The account handlers (routes/auth.js): the `auth` guard, registration,
    login and the whitelisted profile update. Token verification (JWT) is an
    opaque function from token text to the user id it was signed for, and
    password comparison (bcrypt) an opaque relation between a candidate and
    a stored hash. */
module AuthRoutes {
  import opened Common
  import opened JsText
  import opened UserModel
  import opened Database

  /** The `auth` middleware: the token is the `Authorization` header with the
      first "Bearer " removed; a missing header, a token that does not verify
      and a token whose user is gone all give 401. */
  function Authenticate(db: Store, header: Option<string>, verify: string -> Option<UserId>): (r: Result<UserId>)
    reads db
    ensures r.Ok? <==> header.Some? && verify(ReplaceFirst(header.value, "Bearer ", "")).Some?
                       && verify(ReplaceFirst(header.value, "Bearer ", "")).value in db.users
    ensures r.Ok? ==> r.value in db.users && Some(r.value) == verify(ReplaceFirst(header.value, "Bearer ", ""))
    ensures r.Err? ==> r.error == PleaseAuthenticate
  {
    if header.None? then Err(PleaseAuthenticate)
    else
      match verify(ReplaceFirst(header.value, "Bearer ", ""))
      case None => Err(PleaseAuthenticate)
      case Some(id) => if id in db.users then Ok(id) else Err(PleaseAuthenticate)
  }

  /** A header "Bearer <token>" authenticates as the token's user. */
  lemma BearerHeaderAuthenticates(db: Store, token: string, verify: string -> Option<UserId>)
    requires verify(token).Some? && verify(token).value in db.users
    ensures Authenticate(db, Some("Bearer " + token), verify) == Ok(verify(token).value)
  {
    var h := "Bearer " + token;
    assert h[0..|"Bearer "|] == "Bearer ";
    ReplaceFirstPrefix(h, "Bearer ");
    assert h[|"Bearer "|..] == token;
  }

  /** A header without "Bearer " anywhere in it is used as the token as it is. */
  lemma BareTokenAuthenticates(db: Store, token: string, verify: string -> Option<UserId>)
    requires forall j :: !MatchesAt(token, "Bearer ", j)
    requires verify(token).Some? && verify(token).value in db.users
    ensures Authenticate(db, Some(token), verify) == Ok(verify(token).value)
  {
    ReplaceFirstAbsent(token, "Bearer ");
  }

  /** Some stored user already has this (normalised) email. */
  predicate EmailTaken(users: map<UserId, User>, email: string) {
    exists id :: id in users && users[id].email == email
  }

  /** `POST /register`: `new User(body)` and save. Schema failures and a
      duplicate email both answer 400; the body may set the role and the
      verified flag. */
  method Register(db: Store, body: RegisterBody, hash: string -> string) returns (r: Result<UserId>)
    requires db.Valid()
    modifies db
    ensures db.Valid()
    ensures db.cars == old(db.cars) && db.bookings == old(db.bookings)
    ensures db.notifications == old(db.notifications)
    ensures r.Ok? <==> RegisterValid(body) && !EmailTaken(old(db.users), NormalEmail(body.email))
    ensures r.Err? ==> r.error == ValidationFailed && db.users == old(db.users)
    ensures r.Ok? ==> r.value !in old(db.users) && db.users == old(db.users)[r.value := NewUser(body, hash).value]
  {
    var u := NewUser(body, hash);
    if u.None? {
      return Err(ValidationFailed);
    }
    if EmailTaken(db.users, u.value.email) {
      return Err(ValidationFailed);
    }
    var id := db.AddUser(u.value);
    r := Ok(id);
  }

  /** The stored user with this email accepts this password. */
  predicate Credentials(users: map<UserId, User>, email: string, password: string,
                        compare: (string, string) -> bool) {
    exists id :: id in users && users[id].email == NormalEmail(email) && compare(password, users[id].password)
  }

  /** `POST /login`: the user is looked up by email (the query runs the
      email setters) and the password compared with the stored hash. An
      unknown email and a wrong password give the same answer. */
  method Login(db: Store, email: string, password: string, compare: (string, string) -> bool)
    returns (r: Result<UserId>)
    requires UniqueEmails(db.users)
    ensures r.Ok? <==> Credentials(db.users, email, password, compare)
    ensures r.Ok? ==> && r.value in db.users && db.users[r.value].email == NormalEmail(email)
                      && compare(password, db.users[r.value].password)
    ensures r.Err? ==> r.error == InvalidCredentials
  {
    var e := NormalEmail(email);
    if !exists id :: id in db.users && db.users[id].email == e {
      return Err(InvalidCredentials);
    }
    var id :| id in db.users && db.users[id].email == e;
    if !compare(password, db.users[id].password) {
      return Err(InvalidCredentials);
    }
    r := Ok(id);
  }

  /** A registered user can log in with the password they chose, whatever the
      case of the email's letters and the blanks around it, provided the
      comparison accepts a password against its own hash. */
  lemma RegisteredUserCanLogIn(users: map<UserId, User>, id: UserId, b: RegisterBody,
                               hash: string -> string, compare: (string, string) -> bool)
    requires id in users && NewUser(b, hash) == Some(users[id])
    requires compare(b.password, hash(b.password))
    ensures Credentials(users, b.email, b.password, compare)
    ensures Credentials(users, Lower(b.email), b.password, compare)
    ensures Credentials(users, NormalEmail(b.email), b.password, compare)
  {
    NormalEmailIdempotent(b.email);
    LowerTrimCommute(b.email);
    LowerIdempotent(Trim(b.email));
    assert NormalEmail(Lower(b.email)) == NormalEmail(b.email);
    assert users[id].email == NormalEmail(b.email);
  }

  /** A value of the profile body, in the shapes the updatable paths take. */
  datatype ProfileValue = Text(text: string) | AddressValue(address: Address) | DateValue(date: Ms)

  /** The paths a profile update may assign. */
  datatype ProfileKey = NameKey | EmailKey | PhoneKey | AddressKey | LicenseNumberKey | LicenseExpiryKey

  /** `allowedUpdates.includes(update)`: the whitelist, by key name. */
  function ParseProfileKey(s: string): (r: Option<ProfileKey>)
    ensures r.Some? <==> s in {"name", "email", "phone", "address", "licenseNumber", "licenseExpiry"}
  {
    if s == "name" then Some(NameKey)
    else if s == "email" then Some(EmailKey)
    else if s == "phone" then Some(PhoneKey)
    else if s == "address" then Some(AddressKey)
    else if s == "licenseNumber" then Some(LicenseNumberKey)
    else if s == "licenseExpiry" then Some(LicenseExpiryKey)
    else None
  }

  /** `updates.every(update => allowedUpdates.includes(update))`. */
  predicate AllAllowed(updates: seq<(string, ProfileValue)>) {
    forall i :: 0 <= i < |updates| ==> ParseProfileKey(updates[i].0).Some?
  }

  /** The keys of a JSON object are distinct. */
  predicate KeysDistinct(updates: seq<(string, ProfileValue)>) {
    forall i, j :: 0 <= i < j < |updates| ==> updates[i].0 != updates[j].0
  }

  /** Distinct key names name distinct paths. */
  lemma ParseProfileKeyInjective(s: string, t: string)
    requires ParseProfileKey(s).Some? && ParseProfileKey(s) == ParseProfileKey(t)
    ensures s == t
  {
  }

  /** An allowed body as the paths it assigns, in key order, with their values. */
  function Keyed(updates: seq<(string, ProfileValue)>): (es: seq<(ProfileKey, ProfileValue)>)
    requires AllAllowed(updates)
    ensures |es| == |updates|
    ensures forall i :: 0 <= i < |es| ==> Some(es[i].0) == ParseProfileKey(updates[i].0) && es[i].1 == updates[i].1
  {
    seq(|updates|, i requires 0 <= i < |updates| => (ParseProfileKey(updates[i].0).value, updates[i].1))
  }

  /** No path is assigned twice. */
  predicate PathsDistinct(es: seq<(ProfileKey, ProfileValue)>) {
    forall i, j :: 0 <= i < j < |es| ==> es[i].0 != es[j].0
  }

  /** A body with distinct keys assigns each path at most once. */
  lemma KeyedDistinct(updates: seq<(string, ProfileValue)>)
    requires AllAllowed(updates) && KeysDistinct(updates)
    ensures PathsDistinct(Keyed(updates))
  {
    var es := Keyed(updates);
    forall i, j | 0 <= i < j < |es|
      ensures es[i].0 != es[j].0
    {
      if es[i].0 == es[j].0 {
        ParseProfileKeyInjective(updates[i].0, updates[j].0);
      }
    }
  }

  /** The body assigns path `k`. */
  predicate HasKey(es: seq<(ProfileKey, ProfileValue)>, k: ProfileKey) {
    exists i :: 0 <= i < |es| && es[i].0 == k
  }

  /** The value has the shape the path casts to. */
  predicate Casts(k: ProfileKey, v: ProfileValue) {
    match k
    case AddressKey => v.AddressValue?
    case LicenseExpiryKey => v.DateValue?
    case _ => v.Text?
  }

  /** Every value of the body casts to its path. */
  predicate AllCast(es: seq<(ProfileKey, ProfileValue)>) {
    forall i :: 0 <= i < |es| ==> Casts(es[i].0, es[i].1)
  }

  /** The value of an updatable path. */
  function FieldOf(u: User, k: ProfileKey): ProfileValue {
    match k
    case NameKey => Text(u.name)
    case EmailKey => Text(u.email)
    case PhoneKey => Text(u.phone)
    case AddressKey => AddressValue(u.address)
    case LicenseNumberKey => Text(u.licenseNumber)
    case LicenseExpiryKey => DateValue(u.licenseExpiry)
  }

  /** `req.user[k] = v` stores this: the name and email setters normalise,
      the other paths keep the value. */
  function Stored(k: ProfileKey, v: ProfileValue): (w: ProfileValue)
    ensures Casts(k, w) <==> Casts(k, v)
  {
    match (k, v)
    case (NameKey, Text(t)) => Text(NormalName(t))
    case (EmailKey, Text(t)) => Text(NormalEmail(t))
    case _ => v
  }

  /** Role, password, bookings, wishlist and the verified flag agree. */
  predicate SameOtherPaths(u: User, r: User) {
    && r.role == u.role && r.password == u.password
    && r.bookings == u.bookings && r.wishlist == u.wishlist && r.isVerified == u.isVerified
  }

  /** Path `k` set to `w`, a value of the path's shape: only that path
      changes. */
  function Assign(u: User, k: ProfileKey, w: ProfileValue): (r: User)
    requires Casts(k, w)
    ensures FieldOf(r, k) == w
    ensures forall k2 :: k2 != k ==> FieldOf(r, k2) == FieldOf(u, k2)
    ensures SameOtherPaths(u, r)
  {
    match k
    case NameKey => u.(name := w.text)
    case EmailKey => u.(email := w.text)
    case PhoneKey => u.(phone := w.text)
    case AddressKey => u.(address := w.address)
    case LicenseNumberKey => u.(licenseNumber := w.text)
    case LicenseExpiryKey => u.(licenseExpiry := w.date)
  }

  /** `r` is `u` after the assignments of the body: each path whose value
      casts holds its stored value, every path the body does not name is as
      it was, and nothing outside the whitelist differs. */
  predicate UpdatedFrom(u: User, r: User, es: seq<(ProfileKey, ProfileValue)>) {
    && SameOtherPaths(u, r)
    && (forall k :: !HasKey(es, k) ==> FieldOf(r, k) == FieldOf(u, k))
    && (forall i :: 0 <= i < |es| && Casts(es[i].0, es[i].1) ==> FieldOf(r, es[i].0) == Stored(es[i].0, es[i].1))
  }

  /** A user is determined by its updatable paths and the others. */
  lemma SamePathsSameUser(a: User, b: User)
    requires SameOtherPaths(a, b)
    requires forall k :: FieldOf(a, k) == FieldOf(b, k)
    ensures a == b
  {
    assert FieldOf(a, NameKey) == FieldOf(b, NameKey);
    assert FieldOf(a, EmailKey) == FieldOf(b, EmailKey);
    assert FieldOf(a, PhoneKey) == FieldOf(b, PhoneKey);
    assert FieldOf(a, AddressKey) == FieldOf(b, AddressKey);
    assert FieldOf(a, LicenseNumberKey) == FieldOf(b, LicenseNumberKey);
    assert FieldOf(a, LicenseExpiryKey) == FieldOf(b, LicenseExpiryKey);
  }

  /** An empty body changes nothing. */
  lemma EmptyUpdateIsNoOp(u: User, r: User)
    requires UpdatedFrom(u, r, [])
    ensures r == u
  {
    forall k
      ensures FieldOf(r, k) == FieldOf(u, k)
    {
      assert !HasKey([], k);
    }
    SamePathsSameUser(r, u);
  }

  /** When every value casts, the body determines the updated user. */
  lemma UpdatedFromDeterministic(u: User, r1: User, r2: User, es: seq<(ProfileKey, ProfileValue)>)
    requires AllCast(es)
    requires UpdatedFrom(u, r1, es) && UpdatedFrom(u, r2, es)
    ensures r1 == r2
  {
    forall k
      ensures FieldOf(r1, k) == FieldOf(r2, k)
    {
      if HasKey(es, k) {
        var i :| 0 <= i < |es| && es[i].0 == k;
        assert FieldOf(r1, k) == Stored(k, es[i].1) == FieldOf(r2, k);
      }
    }
    SamePathsSameUser(r1, r2);
  }

  /** `r` is `u` after the assignments of the first `n` entries. */
  predicate AssignedUpTo(u: User, r: User, es: seq<(ProfileKey, ProfileValue)>, n: nat)
    requires n <= |es|
  {
    && SameOtherPaths(u, r)
    && (forall k :: (forall j :: 0 <= j < n ==> es[j].0 != k) ==> FieldOf(r, k) == FieldOf(u, k))
    && (forall j :: 0 <= j < n && Casts(es[j].0, es[j].1) ==> FieldOf(r, es[j].0) == Stored(es[j].0, es[j].1))
  }

  /** One more entry: its value is assigned when it casts, and since no
      earlier entry names the same path, the earlier assignments stand. */
  lemma AssignStep(u: User, r: User, es: seq<(ProfileKey, ProfileValue)>, n: nat)
    requires PathsDistinct(es) && n < |es|
    requires AssignedUpTo(u, r, es, n)
    ensures Casts(es[n].0, es[n].1) ==> AssignedUpTo(u, Assign(r, es[n].0, Stored(es[n].0, es[n].1)), es, n + 1)
    ensures !Casts(es[n].0, es[n].1) ==> AssignedUpTo(u, r, es, n + 1)
  {
    var k, v := es[n].0, es[n].1;
    if Casts(k, v) {
      var r2 := Assign(r, k, Stored(k, v));
      forall k2 | forall j :: 0 <= j < n + 1 ==> es[j].0 != k2
        ensures FieldOf(r2, k2) == FieldOf(u, k2)
      {
        assert es[n].0 != k2;
      }
      forall j | 0 <= j < n + 1 && Casts(es[j].0, es[j].1)
        ensures FieldOf(r2, es[j].0) == Stored(es[j].0, es[j].1)
      {
        if j < n {
          assert es[j].0 != k;
        }
      }
    }
  }

  /** Having assigned every entry is `UpdatedFrom`. */
  lemma AssignedAll(u: User, r: User, es: seq<(ProfileKey, ProfileValue)>)
    requires AssignedUpTo(u, r, es, |es|)
    ensures UpdatedFrom(u, r, es)
  {
    forall k | !HasKey(es, k)
      ensures FieldOf(r, k) == FieldOf(u, k)
    {
      assert forall j :: 0 <= j < |es| ==> es[j].0 != k;
    }
  }

  /** `req.user[k] = v` for one entry of the body: its value is assigned
      when it casts; one that does not leaves the document to fail on save. */
  function ApplyEntry(r: User, e: (ProfileKey, ProfileValue)): User {
    if Casts(e.0, e.1) then Assign(r, e.0, Stored(e.0, e.1)) else r
  }

  /** The first `n` entries of the body applied in order. */
  function ApplyEntries(u: User, es: seq<(ProfileKey, ProfileValue)>, n: nat): User
    requires n <= |es|
  {
    if n == 0 then u else ApplyEntry(ApplyEntries(u, es, n - 1), es[n - 1])
  }

  /** Applying the entries in order, each path at most once, assigns each
      value that casts and nothing else. */
  lemma {:induction false} ApplyEntriesAssigned(u: User, es: seq<(ProfileKey, ProfileValue)>, n: nat)
    requires PathsDistinct(es) && n <= |es|
    ensures AssignedUpTo(u, ApplyEntries(u, es, n), es, n)
  {
    if n > 0 {
      ApplyEntriesAssigned(u, es, n - 1);
      AssignStep(u, ApplyEntries(u, es, n - 1), es, n - 1);
    }
  }

  /** Applying every entry of a body that names each path at most once
      gives a user updated from the body. */
  lemma ApplyEntriesUpdated(u: User, es: seq<(ProfileKey, ProfileValue)>)
    requires PathsDistinct(es)
    ensures UpdatedFrom(u, ApplyEntries(u, es, |es|), es)
  {
    ApplyEntriesAssigned(u, es, |es|);
    AssignedAll(u, ApplyEntries(u, es, |es|), es);
  }

  /** `updates.forEach(update => req.user[update] = req.body[update])`, on
      the caller's document: every value that casts is assigned; `castOk`
      reports whether all did (a failed cast fails the later save). The
      document is the entries applied in order, which `ApplyEntriesUpdated`
      shows to be an update from `u` along the entries. */
  method AssignUpdates(u: User, es: seq<(ProfileKey, ProfileValue)>) returns (r: User, castOk: bool)
    ensures castOk <==> AllCast(es)
    ensures r == ApplyEntries(u, es, |es|)
  {
    r, castOk := u, true;
    ghost var failed := 0;
    var i := 0;
    while i < |es|
      invariant 0 <= i <= |es|
      invariant castOk ==> forall j :: 0 <= j < i ==> Casts(es[j].0, es[j].1)
      invariant !castOk ==> failed < i && !Casts(es[failed].0, es[failed].1)
      invariant r == ApplyEntries(u, es, i)
    {
      var k, v := es[i].0, es[i].1;
      if Casts(k, v) {
        r := Assign(r, k, Stored(k, v));
      } else {
        castOk, failed := false, i;
      }
      i := i + 1;
    }
  }

  /** Some user other than `me` already has this email. */
  predicate EmailTakenByOther(users: map<UserId, User>, me: UserId, email: string) {
    exists id :: id in users && id != me && users[id].email == email
  }

  /** `PUT /profile`: a body with any key outside the whitelist answers 400
      "Invalid updates!"; otherwise the given paths are assigned and the
      caller's document saved, which fails with 400 on a value that does not
      cast, an emptied required path or another user's email. The password
      is not among the paths, so it is never rehashed here. */
  method UpdateProfile(db: Store, caller: UserId, updates: seq<(string, ProfileValue)>)
    returns (r: Result<User>)
    requires db.Valid() && caller in db.users
    requires KeysDistinct(updates)
    modifies db
    ensures db.Valid()
    ensures db.cars == old(db.cars) && db.bookings == old(db.bookings)
    ensures db.notifications == old(db.notifications)
    ensures r == Err(InvalidUpdates) <==> !AllAllowed(updates)
    ensures r.Err? ==> db.users == old(db.users)
    ensures r.Err? ==> r.error in {InvalidUpdates, ValidationFailed}
    ensures r.Ok? ==> && AllAllowed(updates)
                      && AllCast(Keyed(updates))
                      && UpdatedFrom(old(db.users)[caller], r.value, Keyed(updates))
                      && RequiredPresent(r.value)
                      && !EmailTakenByOther(old(db.users), caller, r.value.email)
                      && db.users == old(db.users)[caller := r.value]
    ensures AllAllowed(updates) && r.Err? ==>
              !AllCast(Keyed(updates)) || (forall u :: UpdatedFrom(old(db.users)[caller], u, Keyed(updates)) ==>
                    !RequiredPresent(u) || EmailTakenByOther(old(db.users), caller, u.email))
  {
    if !AllAllowed(updates) {
      return Err(InvalidUpdates);
    }
    var es := Keyed(updates);
    KeyedDistinct(updates);
    var u, castOk := AssignUpdates(db.users[caller], es);
    ApplyEntriesUpdated(db.users[caller], es);
    if !castOk {
      return Err(ValidationFailed);
    }
    if !RequiredPresent(u) || exists id :: id in db.users && id != caller && db.users[id].email == u.email {
      forall u' | UpdatedFrom(old(db.users)[caller], u', es)
        ensures !RequiredPresent(u') || EmailTakenByOther(old(db.users), caller, u'.email)
      {
        UpdatedFromDeterministic(old(db.users)[caller], u, u', es);
      }
      return Err(ValidationFailed);
    }
    db.users := db.users[caller := u];
    r := Ok(u);
  }
}
