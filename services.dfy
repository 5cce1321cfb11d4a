/**
 * The collaborators the users app calls but does not define: the AES cipher of
 * `cryption.AESAlgorithm`, Django's password hashing and e-mail normalisation, the
 * checks of the `validated` module and the field validation Django REST framework
 * runs before a serializer's own `validate`. None of them is shown, so each is a
 * function parameter about which nothing is assumed.
 */
module Services {
  import opened Wrappers

  /** A request body or `validated_data`: field name to submitted text. */
  type Payload = map<string, string>

  /**
   * A (partial) user payload for `UserSerializer`, which exposes every user field: one optional
   * entry per field the logic touches. `authCode` is `Some(None)` when the payload sends `null`
   * for the nullable `auth_code`; `loginType` is the submitted code, checked against the choices.
   */
  datatype UserPatch = UserPatch(
    email: Option<string>,
    nickname: Option<string>,
    password: Option<string>,
    customsCode: Option<string>,
    authCode: Option<Option<string>>,
    loginType: Option<string>,
    isAdmin: Option<bool>,
    isActive: Option<bool>,
    isSeller: Option<bool>)

  datatype Services = Services(
    /**
     * `AESAlgorithm.encrypt_all(**validated_data)`: a dict of ciphertexts, keyed as the cipher
     * chooses. The second argument is the `user` entry that `save(user=...)` adds to the
     * validated data on create; it is `None` on update.
     */
    encryptAll: (Payload, Option<nat>) -> Payload,
    /** `AESAlgorithm.encrypt(text)`. */
    encrypt: string -> string,
    /** `make_password` / `set_password`. */
    hash: string -> string,
    /** `BaseUserManager.normalize_email`. */
    normalizeEmail: string -> string,
    /** `ValidatedData.validated_user_data` (sign-up check). */
    userCreateOk: UserPatch -> bool,
    /** `ValidatedData.update_validated_user_data` (profile-update check). */
    userUpdateOk: UserPatch -> bool,
    /** `ValidatedData.validated_deliveries` (postal-code check). */
    deliveriesOk: Payload -> bool,
    /** The field-level checks the user serializer runs before `validate` (formats, uniqueness). */
    userFieldsOk: UserPatch -> bool)

  /** `check_password(raw, stored)`, with the hash taken as deterministic. */
  predicate CheckPassword(svc: Services, raw: string, stored: string)
  {
    svc.hash(raw) == stored
  }
}
