/**
 * The account records of `users/models.py`: users, sellers and delivery addresses, and the
 * user manager that builds users.
 */
module Models {
  import opened Wrappers
  import opened Services

  type UserId = nat
  type DeliveryId = nat

  /** `User.LOGIN_TYPES`: the four login provenances. */
  datatype LoginType = Normal | Kakao | Google | Naver

  /** The stored code of a login type, as kept in `login_type`. */
  function LoginTypeCode(t: LoginType): string
  {
    match t
    case Normal => "normal"
    case Kakao => "kakao"
    case Google => "google"
    case Naver => "naver"
  }

  /** The choice check Django runs on `login_type`: only the four listed codes are accepted. */
  function ParseLoginType(s: string): (r: Option<LoginType>)
    ensures r.Some? <==> s in {"normal", "kakao", "google", "naver"}
  {
    if s == "normal" then Some(Normal)
    else if s == "kakao" then Some(Kakao)
    else if s == "google" then Some(Google)
    else if s == "naver" then Some(Naver)
    else None
  }

  /** Codes and login types are in one-to-one correspondence. */
  lemma LoginTypeCodeRoundTrip(t: LoginType, s: string)
    ensures ParseLoginType(LoginTypeCode(t)) == Some(t)
    ensures ParseLoginType(s) == Some(t) ==> LoginTypeCode(t) == s
  {
  }

  /**
   * A user row. `customsCode` is the customs-clearance number (declared `numbers` in the model
   * file and `customs_code` in the serializers); `nickname` receives the `username` argument of
   * `create_user`.
   */
  datatype User = User(
    email: string,
    nickname: string,
    password: string,
    authCode: Option<string>,
    loginType: LoginType,
    customsCode: string,
    isAdmin: bool,
    isActive: bool,
    isSeller: bool)

  /** The `is_staff` property: staff status is admin status. */
  function IsStaff(u: User): (r: bool)
    ensures r <==> u.isAdmin
  {
    u.isAdmin
  }

  /** The field defaults a freshly constructed user carries. */
  predicate HasDefaultFlags(u: User)
  {
    && !u.isAdmin && !u.isActive && !u.isSeller
    && u.loginType == Normal
    && u.authCode == None
  }

  /**
   * A seller row; `user` is the one-to-one link. Every other column is a NOT NULL `CharField`,
   * so a stored row holds a string in each.
   */
  datatype Seller = Seller(
    user: UserId,
    companyName: string,
    buisnessNumber: string,
    bankName: string,
    accountNumber: string,
    businessOwnerName: string,
    accountHolder: string,
    contactNumber: string)

  /** A delivery-address row (`Deliverie`); `owner` is the `user` foreign key, the rest NOT NULL. */
  datatype Delivery = Delivery(
    owner: UserId,
    address: string,
    detailAddress: string,
    recipient: string,
    postalCode: string)

  datatype CreateUserError = PasswordRequired | UsernameRequired | EmailRequired

  /** Python's `not x` for an optional string argument. */
  predicate Blank(x: Option<string>)
  {
    x.None? || x.value == ""
  }

  /**
   * `UserManager.create_user`: the three required arguments are checked in a fixed order
   * (password, then username, then e-mail); a user is then built with the normalised e-mail,
   * the given name and the field defaults, and its password is set to the hash.
   */
  method CreateUser(svc: Services, email: Option<string>, username: Option<string>, password: Option<string>)
    returns (r: Result<User, CreateUserError>)
    ensures Blank(password) ==> r == Failure(PasswordRequired)
    ensures !Blank(password) && Blank(username) ==> r == Failure(UsernameRequired)
    ensures !Blank(password) && !Blank(username) && Blank(email) ==> r == Failure(EmailRequired)
    ensures r.Success? <==> !Blank(password) && !Blank(username) && !Blank(email)
    ensures r.Success? ==>
      && r.value.email == svc.normalizeEmail(email.value)
      && r.value.nickname == username.value
      && r.value.password == svc.hash(password.value)
      && CheckPassword(svc, password.value, r.value.password)
      && r.value.customsCode == ""
      && HasDefaultFlags(r.value)
  {
    if Blank(password) {
      return Failure(PasswordRequired);
    } else if Blank(username) {
      return Failure(UsernameRequired);
    } else if Blank(email) {
      return Failure(EmailRequired);
    }
    var user := User(svc.normalizeEmail(email.value), username.value, "", None, Normal, "", false, false, false);
    user := user.(password := svc.hash(password.value));
    return Success(user);
  }

  /**
   * `UserManager.create_superuser`: `create_user` with the same arguments (so the same errors),
   * after which the new user is made an active administrator.
   */
  method CreateSuperuser(svc: Services, email: Option<string>, username: Option<string>, password: Option<string>)
    returns (r: Result<User, CreateUserError>)
    ensures Blank(password) ==> r == Failure(PasswordRequired)
    ensures !Blank(password) && Blank(username) ==> r == Failure(UsernameRequired)
    ensures !Blank(password) && !Blank(username) && Blank(email) ==> r == Failure(EmailRequired)
    ensures r.Success? <==> !Blank(password) && !Blank(username) && !Blank(email)
    ensures r.Success? ==>
      && r.value.email == svc.normalizeEmail(email.value)
      && r.value.nickname == username.value
      && CheckPassword(svc, password.value, r.value.password)
      && r.value.isAdmin && r.value.isActive && IsStaff(r.value)
      && !r.value.isSeller && r.value.loginType == Normal
  {
    r := CreateUser(svc, email, username, password);
    if r.Success? {
      var user := r.value;
      user := user.(isAdmin := true);
      user := user.(isActive := true);
      r := Success(user);
    }
  }
}
