/** The user document (models/User.js): normalising setters on name and
    email, the role enumeration and its default, the password length rule,
    and the pre-save hook that hashes a password only when it changed. The
    hash itself (bcrypt) is an opaque function passed in. */
module UserModel {
  import opened Common
  import opened JsText

  datatype Role = UserRole | AdminRole

  /** The enum check on `role`: "user" or "admin". */
  function ParseRole(n: string): (r: Option<Role>)
    ensures r.Some? <==> n in {"user", "admin"}
  {
    if n == "user" then Some(UserRole) else if n == "admin" then Some(AdminRole) else None
  }

  datatype Address = Address(
    street: Option<string>,
    city: Option<string>,
    state: Option<string>,
    zipCode: Option<string>,
    country: Option<string>)

  const NoAddress := Address(None, None, None, None, None)

  datatype User = User(
    name: string,
    email: string,
    password: string,
    phone: string,
    address: Address,
    role: Role,
    licenseNumber: string,
    licenseExpiry: Ms,
    bookings: seq<BookingId>,
    wishlist: seq<CarId>,
    isVerified: bool)

  /** The `name` setter (`trim: true`); a stored name is its own trim. */
  function NormalName(s: string): (r: string)
    ensures Trim(r) == r
  {
    TrimIdempotent(s);
    Trim(s)
  }

  /** The `email` setters (`trim: true`, `lowercase: true`). The stored email
      has no surrounding white space and no upper-case ASCII letter. */
  function NormalEmail(s: string): (r: string)
    ensures Trim(r) == r && Lower(r) == r
    ensures |r| == |Trim(s)|
  {
    var t := Trim(s);
    var r := Lower(t);
    assert r == [] || (!IsSpace(r[0]) && !IsSpace(r[|r| - 1])) by {
      if r != [] { assert r[0] == LowerChar(t[0]) && r[|r| - 1] == LowerChar(t[|t| - 1]); }
    }
    TrimOfTrimmed(r);
    LowerIdempotent(t);
    r
  }

  /** Normalising a stored email changes nothing, so a login with the stored
      address finds the user; and which setter runs first does not matter. */
  lemma NormalEmailIdempotent(s: string)
    ensures NormalEmail(NormalEmail(s)) == NormalEmail(s)
    ensures NormalEmail(s) == Trim(Lower(s))
  {
    LowerTrimCommute(s);
  }

  /** The required paths of a stored user are non-empty (after the setters). */
  predicate RequiredPresent(u: User) {
    u.name != "" && u.email != "" && u.phone != "" && u.licenseNumber != ""
  }

  /** The password rule: `minlength: 6`, checked on the plain password. */
  predicate PasswordLongEnough(p: string) { |p| >= 6 }

  /** The pre-save hook: the password is replaced by its hash exactly when it
      was modified in this save; nothing else changes. */
  function HashOnSave(u: User, passwordModified: bool, hash: string -> string): (r: User)
    ensures r.(password := u.password) == u
    ensures !passwordModified ==> r == u
    ensures passwordModified ==> r.password == hash(u.password)
  {
    if passwordModified then u.(password := hash(u.password)) else u
  }

  /** The JSON body of a registration, everything `new User(body)` reads. */
  datatype RegisterBody = RegisterBody(
    name: string,
    email: string,
    password: string,
    phone: string,
    address: Option<Address>,
    role: Option<string>,
    licenseNumber: string,
    licenseExpiry: Ms,
    isVerified: Option<bool>)

  predicate RegisterValid(b: RegisterBody) {
    && Trim(b.name) != "" && Trim(b.email) != ""
    && PasswordLongEnough(b.password)
    && b.phone != "" && b.licenseNumber != ""
    && (b.role.Some? ==> ParseRole(b.role.value).Some?)
  }

  /** `new User(body)` saved for the first time: normalised name and email,
      role "user" unless the body names another valid role, not verified
      unless the body says so, no bookings, an empty wishlist, and the
      password hashed because a new document's password counts as modified. */
  function NewUser(b: RegisterBody, hash: string -> string): (r: Option<User>)
    ensures r.Some? <==> RegisterValid(b)
    ensures r.Some? ==> && RequiredPresent(r.value)
                        && r.value.name == NormalName(b.name)
                        && r.value.email == NormalEmail(b.email)
                        && r.value.password == hash(b.password)
                        && r.value.phone == b.phone && r.value.licenseNumber == b.licenseNumber
                        && r.value.licenseExpiry == b.licenseExpiry
                        && (b.address.None? ==> r.value.address == NoAddress)
                        && (b.address.Some? ==> r.value.address == b.address.value)
                        && (b.role.None? ==> r.value.role == UserRole)
                        && (b.role.Some? ==> ParseRole(b.role.value) == Some(r.value.role))
                        && (b.isVerified.None? ==> !r.value.isVerified)
                        && (b.isVerified.Some? ==> r.value.isVerified == b.isVerified.value)
                        && r.value.bookings == [] && r.value.wishlist == []
  {
    if !RegisterValid(b) then None
    else
      var u := User(
        NormalName(b.name), NormalEmail(b.email), b.password, b.phone,
        b.address.GetOr(NoAddress),
        if b.role.Some? then ParseRole(b.role.value).value else UserRole,
        b.licenseNumber, b.licenseExpiry, [], [], b.isVerified.GetOr(false));
      Some(HashOnSave(u, true, hash))
  }
}
