/**
 * The serializers of `users/serializers.py` that decide which fields reach the cipher:
 * validation, the delivery and seller encryption steps, and the user update.
 */
module Serializers {
  import opened Wrappers
  import opened Services
  import opened Models

  datatype ValidationError = FieldError | Rejected

  /**
   * The field checks a model serializer runs before `validate`: every declared field that is
   * present is non-blank and within its `max_length`; unless the update is partial, every
   * declared field is present.
   */
  predicate FieldsOk(data: Payload, limits: map<string, nat>, partial: bool)
  {
    forall k :: k in limits ==>
      (k in data ==> 0 < |data[k]| <= limits[k]) && (partial || k in data)
  }

  /** `validated_data`: the submitted entries for declared fields; anything else is dropped. */
  function Validated(data: Payload, limits: map<string, nat>): (v: Payload)
    ensures v.Keys == data.Keys * limits.Keys
    ensures forall k :: k in v ==> v[k] == data[k]
  {
    map k | k in data && k in limits :: data[k]
  }

  // ---------------------------------------------------------------- deliveries

  /** The declared fields of a delivery and their `max_length`. */
  const DeliveryLimits: map<string, nat> :=
    map["address" := 100, "detail_address" := 100, "recipient" := 30, "postal_code" := 10]

  /** The delivery fields replaced by ciphertext: all four of them. */
  const DeliveryCipherFields: set<string> := {"address", "detail_address", "recipient", "postal_code"}

  /**
   * What a serializer's `save()` leaves in storage. The generic create or update first saves the
   * submitted plaintext; the encryption step then writes the cipher's output over the encrypted
   * columns and saves again. When the cipher returns nothing for one of those columns, the second
   * save puts NULL into a NOT NULL column and raises `IntegrityError`, and the row stays as the
   * first save wrote it.
   */
  datatype Saved<T> = Encrypted(row: T) | PlaintextLeft(row: T)

  /** A delivery field by its column name (`None` for any other name). */
  function DeliveryField(d: Delivery, name: string): Option<string>
  {
    match name
    case "address" => Some(d.address)
    case "detail_address" => Some(d.detailAddress)
    case "recipient" => Some(d.recipient)
    case "postal_code" => Some(d.postalCode)
    case _ => None
  }

  /** `DeliverySerializer.validate`: the postal check accepts the data, which is returned as is. */
  function ValidateDelivery(svc: Services, attrs: Payload): (r: Result<Payload, ValidationError>)
    ensures r.Success? <==> svc.deliveriesOk(attrs)
    ensures r.Success? ==> r.value == attrs
    ensures r.Failure? ==> r.error == Rejected
  {
    if svc.deliveriesOk(attrs) then Success(attrs) else Failure(Rejected)
  }

  /** `DeliverySerializer(data=...).is_valid()` for a full (non-partial) payload. */
  function IsValidDelivery(svc: Services, data: Payload): (r: Result<Payload, ValidationError>)
    ensures r.Success? <==> FieldsOk(data, DeliveryLimits, false) && svc.deliveriesOk(Validated(data, DeliveryLimits))
    ensures r.Success? ==> r.value.Keys == DeliveryCipherFields && r.value == Validated(data, DeliveryLimits)
  {
    if !FieldsOk(data, DeliveryLimits, false) then Failure(FieldError)
    else
      var attrs := Validated(data, DeliveryLimits);
      assert forall k :: k in DeliveryCipherFields ==> k in DeliveryLimits && k in data;
      ValidateDelivery(svc, attrs)
  }

  /**
   * `encrypt_deliveries_information` followed by its `save()`: the four address fields are
   * overwritten with the cipher's output `e` under their names, which fails when `e` lacks one.
   */
  function EncryptDeliveriesInformation(d: Delivery, e: Payload): (r: Saved<Delivery>)
    ensures r.Encrypted? <==> DeliveryCipherFields <= e.Keys
    ensures r.Encrypted? ==> r.row.owner == d.owner
    ensures r.Encrypted? ==> forall k :: k in DeliveryCipherFields ==> DeliveryField(r.row, k) == Some(e[k])
    ensures r.PlaintextLeft? ==> r.row == d
  {
    if DeliveryCipherFields <= e.Keys then
      Encrypted(d.(address := e["address"], detailAddress := e["detail_address"],
                   recipient := e["recipient"], postalCode := e["postal_code"]))
    else PlaintextLeft(d)
  }

  /** `ModelSerializer.create` for a delivery saved with `user=owner`: plaintext columns. */
  function NewDelivery(owner: UserId, v: Payload): (r: Delivery)
    requires DeliveryCipherFields <= v.Keys
    ensures r.owner == owner
    ensures forall k :: k in DeliveryCipherFields ==> DeliveryField(r, k) == Some(v[k])
  {
    Delivery(owner, v["address"], v["detail_address"], v["recipient"], v["postal_code"])
  }

  /** `ModelSerializer.update` for a delivery: present fields replaced, the rest kept. */
  function ApplyDelivery(d: Delivery, v: Payload): (r: Delivery)
    ensures r.owner == d.owner
    ensures forall k :: k in DeliveryCipherFields ==>
      DeliveryField(r, k) == if k in v then Some(v[k]) else DeliveryField(d, k)
  {
    d.(address := if "address" in v then v["address"] else d.address,
       detailAddress := if "detail_address" in v then v["detail_address"] else d.detailAddress,
       recipient := if "recipient" in v then v["recipient"] else d.recipient,
       postalCode := if "postal_code" in v then v["postal_code"] else d.postalCode)
  }

  /**
   * `DeliverySerializer.create`, reached through `save(user=owner)`: the cipher receives the
   * validated data together with the owner. The row keeps its owner either way; it holds the
   * cipher's output in all four fields, or, when the cipher left one out, the submitted plaintext.
   */
  function CreateDelivery(svc: Services, owner: UserId, v: Payload): (r: Saved<Delivery>)
    requires DeliveryCipherFields <= v.Keys
    ensures r.row.owner == owner
    ensures r.Encrypted? <==> DeliveryCipherFields <= svc.encryptAll(v, Some(owner)).Keys
    ensures r.Encrypted? ==>
      forall k :: k in DeliveryCipherFields ==> DeliveryField(r.row, k) == Some(svc.encryptAll(v, Some(owner))[k])
    ensures r.PlaintextLeft? ==> forall k :: k in DeliveryCipherFields ==> DeliveryField(r.row, k) == Some(v[k])
  {
    EncryptDeliveriesInformation(NewDelivery(owner, v), svc.encryptAll(v, Some(owner)))
  }

  /**
   * `DeliverySerializer.update`, reached through a plain `save()`: the cipher receives only the
   * validated data. The row keeps its owner; it holds the cipher's output in all four fields, or,
   * when the cipher left one out, the row as the generic update wrote it.
   */
  function UpdateDelivery(svc: Services, d: Delivery, v: Payload): (r: Saved<Delivery>)
    ensures r.row.owner == d.owner
    ensures r.Encrypted? <==> DeliveryCipherFields <= svc.encryptAll(v, None).Keys
    ensures r.Encrypted? ==>
      forall k :: k in DeliveryCipherFields ==> DeliveryField(r.row, k) == Some(svc.encryptAll(v, None)[k])
    ensures r.PlaintextLeft? ==>
      forall k :: k in DeliveryCipherFields ==> DeliveryField(r.row, k) == if k in v then Some(v[k]) else DeliveryField(d, k)
  {
    EncryptDeliveriesInformation(ApplyDelivery(d, v), svc.encryptAll(v, None))
  }

  /**
   * Nothing of the address a full update replaces survives it: two rows of the same owner
   * updated with the same validated data end up identical, whether or not encryption succeeds.
   */
  lemma UpdatedDeliveryForgetsOldRow(svc: Services, d: Delivery, d': Delivery, v: Payload)
    requires d.owner == d'.owner
    requires DeliveryCipherFields <= v.Keys
    ensures UpdateDelivery(svc, d, v) == UpdateDelivery(svc, d', v)
  {
  }

  // ---------------------------------------------------------------- sellers

  /** The declared fields of a seller and their `max_length`. */
  const SellerLimits: map<string, nat> :=
    map["company_name" := 20, "buisness_number" := 20, "bank_name" := 20, "account_number" := 30,
        "business_owner_name" := 20, "account_holder" := 20, "contact_number" := 20]

  /** The seller fields replaced by ciphertext. */
  const SellerCipherFields: set<string> := {"bank_name", "account_number", "account_holder"}

  /** The seller fields stored as written. */
  const SellerPlainFields: set<string> := {"company_name", "buisness_number", "business_owner_name", "contact_number"}

  /** A seller field by its column name (`None` for any other name). */
  function SellerField(s: Seller, name: string): Option<string>
  {
    match name
    case "company_name" => Some(s.companyName)
    case "buisness_number" => Some(s.buisnessNumber)
    case "bank_name" => Some(s.bankName)
    case "account_number" => Some(s.accountNumber)
    case "business_owner_name" => Some(s.businessOwnerName)
    case "account_holder" => Some(s.accountHolder)
    case "contact_number" => Some(s.contactNumber)
    case _ => None
  }

  /** The two whitelists split the declared seller fields. */
  lemma SellerFieldsPartition()
    ensures SellerCipherFields + SellerPlainFields == SellerLimits.Keys
    ensures SellerCipherFields !! SellerPlainFields
  {
  }

  /** `SellerSerializer.is_valid()`: the serializer has no `validate` of its own. */
  function IsValidSeller(data: Payload, partial: bool): (r: Result<Payload, ValidationError>)
    ensures r.Success? <==> FieldsOk(data, SellerLimits, partial)
    ensures r.Success? ==> r.value == Validated(data, SellerLimits)
    ensures r.Success? && !partial ==> r.value.Keys == SellerLimits.Keys
  {
    if FieldsOk(data, SellerLimits, partial) then Success(Validated(data, SellerLimits))
    else Failure(FieldError)
  }

  /**
   * `encrypt_seller_information` followed by the `save()` of its caller: the three bank fields
   * are overwritten with the cipher's output `e` under their names, which fails when `e` lacks
   * one; everything else is kept.
   */
  function EncryptSellerInformation(s: Seller, e: Payload): (r: Saved<Seller>)
    ensures r.Encrypted? <==> SellerCipherFields <= e.Keys
    ensures r.row.user == s.user
    ensures r.Encrypted? ==> forall k :: k in SellerCipherFields ==> SellerField(r.row, k) == Some(e[k])
    ensures forall k :: k in SellerPlainFields ==> SellerField(r.row, k) == SellerField(s, k)
    ensures r.PlaintextLeft? ==> r.row == s
  {
    if SellerCipherFields <= e.Keys then
      Encrypted(s.(bankName := e["bank_name"], accountNumber := e["account_number"],
                   accountHolder := e["account_holder"]))
    else PlaintextLeft(s)
  }

  /** `ModelSerializer.create` for a seller saved with `user=uid`: plaintext columns. */
  function NewSeller(uid: UserId, v: Payload): (r: Seller)
    requires SellerLimits.Keys <= v.Keys
    ensures r.user == uid
    ensures forall k :: k in SellerLimits ==> SellerField(r, k) == Some(v[k])
  {
    Seller(uid, v["company_name"], v["buisness_number"], v["bank_name"], v["account_number"],
           v["business_owner_name"], v["account_holder"], v["contact_number"])
  }

  /** `ModelSerializer.update` for a seller: present fields replaced, the rest kept. */
  function ApplySeller(s: Seller, v: Payload): (r: Seller)
    ensures r.user == s.user
    ensures forall k :: k in SellerLimits ==> SellerField(r, k) == if k in v then Some(v[k]) else SellerField(s, k)
  {
    Seller(s.user,
      if "company_name" in v then v["company_name"] else s.companyName,
      if "buisness_number" in v then v["buisness_number"] else s.buisnessNumber,
      if "bank_name" in v then v["bank_name"] else s.bankName,
      if "account_number" in v then v["account_number"] else s.accountNumber,
      if "business_owner_name" in v then v["business_owner_name"] else s.businessOwnerName,
      if "account_holder" in v then v["account_holder"] else s.accountHolder,
      if "contact_number" in v then v["contact_number"] else s.contactNumber)
  }

  /**
   * `SellerSerializer.create`, reached through `save(user=uid)`: the cipher receives the
   * validated data together with the user. Plain fields are stored as submitted; the bank
   * fields hold the cipher's output, or the submitted plaintext when the cipher left one out.
   */
  function CreateSeller(svc: Services, uid: UserId, v: Payload): (r: Saved<Seller>)
    requires SellerLimits.Keys <= v.Keys
    ensures r.row.user == uid
    ensures forall k :: k in SellerPlainFields ==> SellerField(r.row, k) == Some(v[k])
    ensures r.Encrypted? <==> SellerCipherFields <= svc.encryptAll(v, Some(uid)).Keys
    ensures r.Encrypted? ==>
      forall k :: k in SellerCipherFields ==> SellerField(r.row, k) == Some(svc.encryptAll(v, Some(uid))[k])
    ensures r.PlaintextLeft? ==> forall k :: k in SellerCipherFields ==> SellerField(r.row, k) == Some(v[k])
  {
    EncryptSellerInformation(NewSeller(uid, v), svc.encryptAll(v, Some(uid)))
  }

  /**
   * `SellerSerializer.update`, reached through a plain `save()`: submitted plain fields replace
   * the stored ones and the others are kept. The bank fields take the cipher's output for the
   * submitted data; when it lacks one of them, as on a partial update that does not resend it,
   * the save fails and the row stays as the generic update wrote it.
   */
  function UpdateSeller(svc: Services, s: Seller, v: Payload): (r: Saved<Seller>)
    ensures r.row.user == s.user
    ensures forall k :: k in SellerPlainFields ==> SellerField(r.row, k) == if k in v then Some(v[k]) else SellerField(s, k)
    ensures r.Encrypted? <==> SellerCipherFields <= svc.encryptAll(v, None).Keys
    ensures r.Encrypted? ==>
      forall k :: k in SellerCipherFields ==> SellerField(r.row, k) == Some(svc.encryptAll(v, None)[k])
    ensures r.PlaintextLeft? ==>
      forall k :: k in SellerCipherFields ==> SellerField(r.row, k) == if k in v then Some(v[k]) else SellerField(s, k)
  {
    EncryptSellerInformation(ApplySeller(s, v), svc.encryptAll(v, None))
  }

  /**
   * A cipher that only encrypts what it is given cannot complete a partial seller update that
   * leaves out a bank field: the save fails, and a bank field that was sent stays in plaintext.
   */
  lemma PartialSellerUpdateLeavesPlaintext(svc: Services, s: Seller, v: Payload, sent: string, missing: string)
    requires svc.encryptAll(v, None).Keys <= v.Keys
    requires missing in SellerCipherFields && missing !in v
    requires sent in SellerCipherFields && sent in v
    ensures UpdateSeller(svc, s, v).PlaintextLeft?
    ensures SellerField(UpdateSeller(svc, s, v).row, sent) == Some(v[sent])
  {
  }

  // ---------------------------------------------------------------- users

  /** The `context` a `UserSerializer` is built with. */
  datatype Context = CreateContext | UpdateContext | NoContext

  /**
   * `UserSerializer.validate`: the sign-up check in the create context, the update check in
   * the update context, nothing otherwise; the data itself is returned unchanged.
   */
  function ValidateUser(svc: Services, ctx: Context, element: UserPatch): (r: Result<UserPatch, ValidationError>)
    ensures r.Success? ==> r.value == element
    ensures ctx == NoContext ==> r.Success?
    ensures ctx == CreateContext ==> (r.Success? <==> svc.userCreateOk(element))
    ensures ctx == UpdateContext ==> (r.Success? <==> svc.userUpdateOk(element))
  {
    match ctx
    case CreateContext => if svc.userCreateOk(element) then Success(element) else Failure(Rejected)
    case UpdateContext => if svc.userUpdateOk(element) then Success(element) else Failure(Rejected)
    case NoContext => Success(element)
  }

  /** `UserSerializer(...).is_valid()`: field checks (a submitted login type must be one of the choices), then `validate`. */
  predicate IsValidUser(svc: Services, ctx: Context, p: UserPatch)
  {
    && svc.userFieldsOk(p)
    && (p.loginType.Some? ==> ParseLoginType(p.loginType.value).Some?)
    && ValidateUser(svc, ctx, p).Success?
  }

  /** The entry of a patch if supplied, else the current value. */
  function Or<T>(o: Option<T>, current: T): T
  {
    if o.Some? then o.value else current
  }

  /** The login type after an update: a submitted valid code replaces the stored type. */
  function LoginTypeAfter(u: User, p: UserPatch): LoginType
  {
    if p.loginType.Some? && ParseLoginType(p.loginType.value).Some? then ParseLoginType(p.loginType.value).value
    else u.loginType
  }

  /** `ModelSerializer.update` for a user: supplied fields replace the stored ones. */
  function ApplyUserPatch(u: User, p: UserPatch): User
  {
    u.(email := Or(p.email, u.email), nickname := Or(p.nickname, u.nickname),
       password := Or(p.password, u.password), customsCode := Or(p.customsCode, u.customsCode),
       authCode := Or(p.authCode, u.authCode), loginType := LoginTypeAfter(u, p),
       isAdmin := Or(p.isAdmin, u.isAdmin), isActive := Or(p.isActive, u.isActive),
       isSeller := Or(p.isSeller, u.isSeller))
  }

  /** The fields a user update sets from the patch, leaving the password and customs code aside. */
  predicate PatchedFrom(u: User, p: UserPatch, r: User)
  {
    && r.email == Or(p.email, u.email) && r.nickname == Or(p.nickname, u.nickname)
    && r.authCode == Or(p.authCode, u.authCode)
    && (p.loginType.Some? && ParseLoginType(p.loginType.value).Some? ==> LoginTypeCode(r.loginType) == p.loginType.value)
    && (p.loginType.None? ==> r.loginType == u.loginType)
    && r.isAdmin == Or(p.isAdmin, u.isAdmin) && r.isActive == Or(p.isActive, u.isActive)
    && r.isSeller == Or(p.isSeller, u.isSeller)
  }

  /** The customs code after an update: the encryption of a supplied code, else the stored one. */
  function CustomsCodeAfter(svc: Services, u: User, p: UserPatch): string
  {
    if p.customsCode.Some? then svc.encrypt(p.customsCode.value) else u.customsCode
  }

  /**
   * `UserSerializer.update` AS WRITTEN: after the generic update the password column is hashed
   * again whatever it holds, so when no new password is supplied the stored hash is replaced by
   * a hash of that hash.
   */
  function UpdateUserAsWritten(svc: Services, u: User, p: UserPatch): (r: User)
    ensures PatchedFrom(u, p, r)
    ensures r.password == svc.hash(Or(p.password, u.password))
    ensures r.customsCode == (if p.customsCode.Some? then svc.encrypt(p.customsCode.value) else u.customsCode)
  {
    var user := ApplyUserPatch(u, p);
    user.(password := svc.hash(user.password),
          customsCode := if p.customsCode.Some? then svc.encrypt(p.customsCode.value) else user.customsCode)
  }

  /**
   * `UserSerializer.update` as intended: a supplied password is stored hashed, an absent one
   * leaves the stored hash alone; the customs code is encrypted when supplied, kept otherwise.
   */
  function UpdateUser(svc: Services, u: User, p: UserPatch): (r: User)
    ensures PatchedFrom(u, p, r)
    ensures p.password.Some? ==> r.password == svc.hash(p.password.value)
    ensures p.password.None? ==> r.password == u.password
    ensures r.customsCode == (if p.customsCode.Some? then svc.encrypt(p.customsCode.value) else u.customsCode)
  {
    var user := ApplyUserPatch(u, p);
    user.(password := if p.password.Some? then svc.hash(p.password.value) else u.password,
          customsCode := CustomsCodeAfter(svc, u, p))
  }

  /**
   * The two versions differ only when no password is supplied, and then only in the password
   * column, which the code as written fills with a hash of the stored hash.
   */
  lemma AsWrittenDiffersOnlyWithoutPassword(svc: Services, u: User, p: UserPatch)
    ensures p.password.Some? ==> UpdateUserAsWritten(svc, u, p) == UpdateUser(svc, u, p)
    ensures p.password.None? ==>
      UpdateUserAsWritten(svc, u, p) == UpdateUser(svc, u, p).(password := svc.hash(u.password))
  {
  }

  /**
   * With the corrected update the user can log in afterwards with the new password if one was
   * supplied, and with exactly the passwords that worked before otherwise.
   */
  lemma UpdateUserKeepsLogin(svc: Services, u: User, p: UserPatch, raw: string)
    ensures p.password.Some? ==> CheckPassword(svc, p.password.value, UpdateUser(svc, u, p).password)
    ensures p.password.None? ==>
      (CheckPassword(svc, raw, UpdateUser(svc, u, p).password) <==> CheckPassword(svc, raw, u.password))
  {
  }

  /** A hash with a recognisable prefix, for the counterexample below. */
  function PrefixHash(s: string): string
  {
    "h$" + s
  }

  /** The services of the counterexample: only the hash matters. */
  function ExampleServices(): Services
  {
    Services((p, _) => p, s => s, PrefixHash, s => s, _ => true, _ => true, _ => true, _ => true)
  }

  /**
   * As written, a profile update that changes only the nickname locks the user out: the
   * password "pw" verified before the update and no longer verifies after it.
   */
  lemma RehashLocksOutUser()
    ensures var svc := ExampleServices();
            var u := User("a@b.c", "old", PrefixHash("pw"), None, Normal, "", false, true, false);
            var p := UserPatch(None, Some("new"), None, None, None, None, None, None, None);
            && CheckPassword(svc, "pw", u.password)
            && !CheckPassword(svc, "pw", UpdateUserAsWritten(svc, u, p).password)
  {
  }
}
