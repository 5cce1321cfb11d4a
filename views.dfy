/**
 * The request handlers of `users/views.py` as operations on one store of users, delivery
 * addresses and seller records. Each handler checks its guards in the order the view does and
 * reports the outcome; HTTP status codes are not modelled.
 */
module Views {
  import opened Wrappers
  import opened Services
  import opened Models
  import opened Serializers

  /** What a handler reports: success, or the guard that stopped it. */
  datatype Outcome =
    | Done
    | NotFound        // get_object_or_404 found no row
    | Forbidden       // the caller is not the owner
    | LoginRequired   // anonymous caller (`request.user.email` raised AttributeError)
    | NoAuthCode      // no auth code was issued
    | WrongAuthCode   // the submitted code differs from the stored one
    | Invalid         // the serializer rejected the payload
    | DeliveryLimit   // the user already has five deliveries
    | NoPostalCode    // the delivery request carries no postal_code
    | DuplicateSeller // IntegrityError caught: a second seller record, or a NULL bank field
    | NoSeller        // the user has no seller record (Seller.DoesNotExist caught)
    | NotAdmin        // the caller is not an administrator
    | ServerError     // an exception the view does not catch: the request fails

  /** The most delivery addresses one user may register. */
  const MaxDeliveries: nat := 5

  /** The ids of the deliveries owned by user `u`. */
  function OwnedBy(deliveries: map<DeliveryId, Delivery>, u: UserId): set<DeliveryId>
  {
    set d | d in deliveries && deliveries[d].owner == u
  }

  /** `Deliverie.objects.filter(user=u).count()`. */
  function DeliveryCount(deliveries: map<DeliveryId, Delivery>, u: UserId): nat
  {
    |OwnedBy(deliveries, u)|
  }

  lemma DeliveryCountInsert(ds: map<DeliveryId, Delivery>, k: DeliveryId, row: Delivery, u: UserId)
    requires k !in ds
    ensures DeliveryCount(ds[k := row], u) == DeliveryCount(ds, u) + (if row.owner == u then 1 else 0)
  {
    if row.owner == u {
      assert OwnedBy(ds[k := row], u) == OwnedBy(ds, u) + {k};
    } else {
      assert OwnedBy(ds[k := row], u) == OwnedBy(ds, u);
    }
  }

  lemma DeliveryCountRemove(ds: map<DeliveryId, Delivery>, k: DeliveryId, u: UserId)
    requires k in ds
    ensures DeliveryCount(ds - {k}, u) == DeliveryCount(ds, u) - (if ds[k].owner == u then 1 else 0)
  {
    if ds[k].owner == u {
      assert OwnedBy(ds - {k}, u) == OwnedBy(ds, u) - {k};
    } else {
      assert OwnedBy(ds - {k}, u) == OwnedBy(ds, u);
    }
  }

  lemma DeliveryCountReplace(ds: map<DeliveryId, Delivery>, k: DeliveryId, row: Delivery, u: UserId)
    requires k in ds && ds[k].owner == row.owner
    ensures DeliveryCount(ds[k := row], u) == DeliveryCount(ds, u)
  {
    assert OwnedBy(ds[k := row], u) == OwnedBy(ds, u);
  }

  /**
   * The patch a password-reset request carries: its fields, including the submitted `auth_code`
   * (`None` for a JSON `null`) and the `email` by which the user was looked up.
   */
  function ResetPatch(code: Option<string>, email: string, p: UserPatch): (r: UserPatch)
    ensures r.authCode == Some(code) && r.email == Some(email)
    ensures r.password == p.password && r.nickname == p.nickname && r.customsCode == p.customsCode
  {
    p.(authCode := Some(code), email := Some(email))
  }

  /**
   * The code guards of `UserAPIView.patch` as written: refused while the stored code is the empty
   * string, refused when the submitted code differs from the stored one, accepted otherwise. A
   * user with no stored code at all is accepted when the request sends `null`.
   */
  function ResetGuard(stored: Option<string>, code: Option<string>): (r: Outcome)
    ensures r == Done <==> stored != Some("") && code == stored
    ensures stored == Some("") ==> r == NoAuthCode
    ensures stored != Some("") && code != stored ==> r == WrongAuthCode
  {
    if stored == Some("") then NoAuthCode
    else if stored != code then WrongAuthCode
    else Done
  }

  /**
   * The code guards as intended: a reset needs an issued, non-empty code, and the request must
   * send that code.
   */
  function CheckedResetGuard(stored: Option<string>, code: Option<string>): (r: Outcome)
    ensures r == Done <==> stored.Some? && stored.value != "" && code == stored
    ensures stored.None? || stored == Some("") ==> r == NoAuthCode
    ensures stored.Some? && stored.value != "" && code != stored ==> r == WrongAuthCode
  {
    if stored.None? || stored == Some("") then NoAuthCode
    else if stored != code then WrongAuthCode
    else Done
  }

  /**
   * As written, a user to whom no code was ever issued (or whose code was cleared by activation
   * or an earlier reset) passes the guards of a reset request that sends `"auth_code": null`;
   * the intended guards refuse it.
   */
  lemma CodelessResetPasses()
    ensures ResetGuard(None, None) == Done
    ensures CheckedResetGuard(None, None) == NoAuthCode
  {
  }

  /** The user after an accepted reset: the update as written, then the code cleared and the account activated. */
  function ResetUser(svc: Services, u: User, code: Option<string>, p: UserPatch): (r: User)
    ensures r.authCode == None && r.isActive
    ensures r.email == u.email
    ensures r.password == svc.hash(Or(p.password, u.password))
  {
    UpdateUserAsWritten(svc, u, ResetPatch(code, u.email, p)).(authCode := None, isActive := true)
  }

  class Accounts {
    var users: map<UserId, User>
    var deliveries: map<DeliveryId, Delivery>
    var sellers: map<UserId, Seller>
    /** The id the next delivery row receives. */
    var nextDelivery: DeliveryId

    /**
     * Every delivery has a fresh-range id and an existing owner, no user has more than five
     * deliveries, and seller records are keyed by their user, so each user has at most one.
     */
    ghost predicate Valid()
      reads this
    {
      && (forall d :: d in deliveries ==> d < nextDelivery && deliveries[d].owner in users)
      && (forall u :: u in users ==> DeliveryCount(deliveries, u) <= MaxDeliveries)
      && (forall u :: u in sellers ==> u in users && sellers[u].user == u)
    }

    constructor (initial: map<UserId, User>)
      ensures Valid()
      ensures users == initial && deliveries == map[] && sellers == map[] && nextDelivery == 0
    {
      users, deliveries, sellers, nextDelivery := initial, map[], map[], 0;
      new;
      forall u | u in users
        ensures DeliveryCount(deliveries, u) <= MaxDeliveries
      {
        assert OwnedBy(deliveries, u) == {};
      }
    }

    /** `GetEmailAuthCodeAPIView.put`: the code `send_email` produced is stored on the user. */
    method SendAuthCode(uid: UserId, code: string) returns (o: Outcome)
      requires Valid()
      modifies this`users
      ensures Valid()
      ensures o == Done <==> uid in old(users)
      ensures o != Done ==> o == NotFound && users == old(users)
      ensures o == Done ==> users == old(users)[uid := old(users)[uid].(authCode := Some(code))]
    {
      if uid !in users {
        return NotFound;
      }
      users := users[uid := users[uid].(authCode := Some(code))];
      return Done;
    }

    /**
     * `UserAPIView.put`: activation fails when no code was issued or the code differs; with the
     * matching code the account becomes active and the code is cleared.
     */
    method Activate(uid: UserId, code: string) returns (o: Outcome)
      requires Valid()
      modifies this`users
      ensures Valid()
      ensures uid !in old(users) ==> o == NotFound
      ensures uid in old(users) && old(users)[uid].authCode == None ==> o == NoAuthCode
      ensures uid in old(users) && old(users)[uid].authCode.Some? && old(users)[uid].authCode != Some(code) ==> o == WrongAuthCode
      ensures o == Done <==> uid in old(users) && old(users)[uid].authCode == Some(code)
      ensures o != Done ==> users == old(users)
      ensures o == Done ==> users == old(users)[uid := old(users)[uid].(isActive := true, authCode := None)]
    {
      if uid !in users {
        return NotFound;
      }
      var user := users[uid];
      if user.authCode == None {
        return NoAuthCode;
      } else if user.authCode != Some(code) {
        return WrongAuthCode;
      }
      user := user.(isActive := true);
      user := user.(authCode := None);
      users := users[uid := user];
      return Done;
    }

    /**
     * `UserAPIView.patch` (password reset) as written: the code guards of `ResetGuard`, then the
     * user update runs as written on the request's fields, the code is cleared and the account
     * activated. A user without a stored code is reset by a request whose code is `null`.
     */
    method ResetPassword(svc: Services, uid: UserId, code: Option<string>, p: UserPatch) returns (o: Outcome)
      requires Valid()
      modifies this`users
      ensures Valid()
      ensures uid !in old(users) ==> o == NotFound
      ensures uid in old(users) && ResetGuard(old(users)[uid].authCode, code) != Done ==>
        o == ResetGuard(old(users)[uid].authCode, code)
      ensures uid in old(users) && ResetGuard(old(users)[uid].authCode, code) == Done
              && !IsValidUser(svc, NoContext, ResetPatch(code, old(users)[uid].email, p)) ==>
        o == Invalid
      ensures o == Done <==>
        && uid in old(users) && ResetGuard(old(users)[uid].authCode, code) == Done
        && IsValidUser(svc, NoContext, ResetPatch(code, old(users)[uid].email, p))
      ensures uid in old(users) && old(users)[uid].authCode == None && code == None ==>
        (o == Done <==> IsValidUser(svc, NoContext, ResetPatch(code, old(users)[uid].email, p)))
      ensures o != Done ==> users == old(users)
      ensures o == Done ==> users == old(users)[uid := ResetUser(svc, old(users)[uid], code, p)]
    {
      if uid !in users {
        return NotFound;
      }
      var user := users[uid];
      var guard := ResetGuard(user.authCode, code);
      if guard != Done {
        return guard;
      }
      if !IsValidUser(svc, NoContext, ResetPatch(code, user.email, p)) {
        return Invalid;
      }
      users := users[uid := ResetUser(svc, user, code, p)];
      return Done;
    }

    /**
     * The password reset with the intended guards of `CheckedResetGuard`: it succeeds only for a
     * user holding an issued, non-empty code that the request repeats.
     */
    method ResetPasswordChecked(svc: Services, uid: UserId, code: Option<string>, p: UserPatch) returns (o: Outcome)
      requires Valid()
      modifies this`users
      ensures Valid()
      ensures uid !in old(users) ==> o == NotFound
      ensures uid in old(users) && CheckedResetGuard(old(users)[uid].authCode, code) != Done ==>
        o == CheckedResetGuard(old(users)[uid].authCode, code)
      ensures uid in old(users) && CheckedResetGuard(old(users)[uid].authCode, code) == Done
              && !IsValidUser(svc, NoContext, ResetPatch(code, old(users)[uid].email, p)) ==>
        o == Invalid
      ensures o == Done ==>
        && uid in old(users) && old(users)[uid].authCode.Some? && old(users)[uid].authCode.value != ""
        && code == old(users)[uid].authCode
      ensures o == Done <==>
        && uid in old(users) && CheckedResetGuard(old(users)[uid].authCode, code) == Done
        && IsValidUser(svc, NoContext, ResetPatch(code, old(users)[uid].email, p))
      ensures o != Done ==> users == old(users)
      ensures o == Done ==> users == old(users)[uid := ResetUser(svc, old(users)[uid], code, p)]
    {
      if uid !in users {
        return NotFound;
      }
      var user := users[uid];
      var guard := CheckedResetGuard(user.authCode, code);
      if guard != Done {
        return guard;
      }
      if !IsValidUser(svc, NoContext, ResetPatch(code, user.email, p)) {
        return Invalid;
      }
      users := users[uid := ResetUser(svc, user, code, p)];
      return Done;
    }

    /**
     * `UserProfileAPIView.put`: only the user may update the profile, through the update check;
     * the user update runs as written.
     */
    method UpdateProfile(svc: Services, caller: Option<UserId>, uid: UserId, p: UserPatch) returns (o: Outcome)
      requires Valid()
      modifies this`users
      ensures Valid()
      ensures uid !in old(users) ==> o == NotFound
      ensures uid in old(users) && caller != Some(uid) ==> o == Forbidden
      ensures uid in old(users) && caller == Some(uid) && !IsValidUser(svc, UpdateContext, p) ==> o == Invalid
      ensures o == Done <==> uid in old(users) && caller == Some(uid) && IsValidUser(svc, UpdateContext, p)
      ensures o != Done ==> users == old(users)
      ensures o == Done ==> users == old(users)[uid := UpdateUserAsWritten(svc, old(users)[uid], p)]
    {
      if uid !in users {
        return NotFound;
      }
      if caller != Some(uid) {
        return Forbidden;
      }
      if !IsValidUser(svc, UpdateContext, p) {
        return Invalid;
      }
      users := users[uid := UpdateUserAsWritten(svc, users[uid], p)];
      return Done;
    }

    /** `UserProfileAPIView.delete`: only the user may switch the account to dormant. */
    method MakeDormant(caller: Option<UserId>, uid: UserId) returns (o: Outcome)
      requires Valid()
      modifies this`users
      ensures Valid()
      ensures uid !in old(users) ==> o == NotFound
      ensures o == Done <==> uid in old(users) && caller == Some(uid)
      ensures uid in old(users) && caller != Some(uid) ==> o == Forbidden
      ensures o != Done ==> users == old(users)
      ensures o == Done ==> users == old(users)[uid := old(users)[uid].(isActive := false)]
    {
      if uid !in users {
        return NotFound;
      }
      if caller != Some(uid) {
        return Forbidden;
      }
      users := users[uid := users[uid].(isActive := false)];
      return Done;
    }

    /**
     * `DeliverieAPIView.post`: only the user may add an address, not beyond five; a request
     * without postal_code creates nothing. A valid one stores a row under a new id: the encrypted
     * row, or, when the encrypted save fails, the plaintext row of the first save, and the request
     * then fails.
     */
    method AddDelivery(svc: Services, caller: Option<UserId>, uid: UserId, data: Payload) returns (o: Outcome)
      requires Valid()
      modifies this`deliveries, this`nextDelivery
      ensures Valid()
      ensures uid !in users ==> o == NotFound
      ensures uid in users && caller != Some(uid) ==> o == Forbidden
      ensures uid in users && caller == Some(uid) && DeliveryCount(old(deliveries), uid) > 4 ==> o == DeliveryLimit
      ensures uid in users && caller == Some(uid) && DeliveryCount(old(deliveries), uid) <= 4 && "postal_code" !in data ==>
        o == NoPostalCode
      ensures uid in users && caller == Some(uid) && DeliveryCount(old(deliveries), uid) <= 4 && "postal_code" in data
              && IsValidDelivery(svc, data).Failure? ==>
        o == Invalid
      ensures o == Done || o == ServerError <==>
        && uid in users && caller == Some(uid) && DeliveryCount(old(deliveries), uid) <= 4
        && "postal_code" in data && IsValidDelivery(svc, data).Success?
      ensures o != Done && o != ServerError ==> deliveries == old(deliveries) && nextDelivery == old(nextDelivery)
      ensures o == Done || o == ServerError ==>
        && (o == Done <==> CreateDelivery(svc, uid, IsValidDelivery(svc, data).value).Encrypted?)
        && old(nextDelivery) !in old(deliveries)
        && deliveries == old(deliveries)[old(nextDelivery) := CreateDelivery(svc, uid, IsValidDelivery(svc, data).value).row]
        && nextDelivery == old(nextDelivery) + 1
        && DeliveryCount(deliveries, uid) == DeliveryCount(old(deliveries), uid) + 1 <= MaxDeliveries
    {
      if uid !in users {
        return NotFound;
      }
      if caller != Some(uid) {
        return Forbidden;
      }
      var count := DeliveryCount(deliveries, uid);
      if count > 4 {
        return DeliveryLimit;
      }
      if "postal_code" !in data {
        return NoPostalCode;
      }
      var validation := IsValidDelivery(svc, data);
      if validation.Failure? {
        return Invalid;
      }
      var saved := CreateDelivery(svc, uid, validation.value);
      var row := saved.row;
      assert nextDelivery !in deliveries;
      forall u | u in users
        ensures DeliveryCount(deliveries[nextDelivery := row], u) <= MaxDeliveries
      {
        DeliveryCountInsert(deliveries, nextDelivery, row, u);
      }
      DeliveryCountInsert(deliveries, nextDelivery, row, uid);
      deliveries := deliveries[nextDelivery := row];
      nextDelivery := nextDelivery + 1;
      o := if saved.Encrypted? then Done else ServerError;
    }

    /**
     * `UpdateDeliverieAPIView.put`: only the owner may replace an address, through validation.
     * The row then holds the encrypted update, or, when the encrypted save fails, the plaintext
     * of the generic update, and the request fails.
     */
    method ChangeDelivery(svc: Services, caller: Option<UserId>, id: DeliveryId, data: Payload) returns (o: Outcome)
      requires Valid()
      modifies this`deliveries
      ensures Valid()
      ensures id !in old(deliveries) ==> o == NotFound
      ensures id in old(deliveries) && caller != Some(old(deliveries)[id].owner) ==> o == Forbidden
      ensures id in old(deliveries) && caller == Some(old(deliveries)[id].owner) && IsValidDelivery(svc, data).Failure? ==>
        o == Invalid
      ensures o == Done || o == ServerError <==>
        id in old(deliveries) && caller == Some(old(deliveries)[id].owner) && IsValidDelivery(svc, data).Success?
      ensures o != Done && o != ServerError ==> deliveries == old(deliveries)
      ensures o == Done || o == ServerError ==>
        && (o == Done <==> UpdateDelivery(svc, old(deliveries)[id], IsValidDelivery(svc, data).value).Encrypted?)
        && deliveries == old(deliveries)[id := UpdateDelivery(svc, old(deliveries)[id], IsValidDelivery(svc, data).value).row]
    {
      if id !in deliveries {
        return NotFound;
      }
      var current := deliveries[id];
      if caller != Some(current.owner) {
        return Forbidden;
      }
      var validation := IsValidDelivery(svc, data);
      if validation.Failure? {
        return Invalid;
      }
      var saved := UpdateDelivery(svc, current, validation.value);
      var updated := saved.row;
      forall u | u in users
        ensures DeliveryCount(deliveries[id := updated], u) <= MaxDeliveries
      {
        DeliveryCountReplace(deliveries, id, updated, u);
      }
      deliveries := deliveries[id := updated];
      o := if saved.Encrypted? then Done else ServerError;
    }

    /** `UpdateDeliverieAPIView.delete`: only the owner may delete an address. */
    method DeleteDelivery(caller: Option<UserId>, id: DeliveryId) returns (o: Outcome)
      requires Valid()
      modifies this`deliveries
      ensures Valid()
      ensures id !in old(deliveries) ==> o == NotFound
      ensures o == Done <==> id in old(deliveries) && caller == Some(old(deliveries)[id].owner)
      ensures id in old(deliveries) && caller != Some(old(deliveries)[id].owner) ==> o == Forbidden
      ensures o != Done ==> deliveries == old(deliveries)
      ensures o == Done ==> deliveries == old(deliveries) - {id}
    {
      if id !in deliveries {
        return NotFound;
      }
      if caller != Some(deliveries[id].owner) {
        return Forbidden;
      }
      forall u | u in users
        ensures DeliveryCount(deliveries - {id}, u) <= MaxDeliveries
      {
        DeliveryCountRemove(deliveries, id, u);
      }
      deliveries := deliveries - {id};
      return Done;
    }

    /**
     * `SellerAPIView.post`: a logged-in user applies with a full seller payload; a second
     * record for the same user is refused and the first one kept. A new record is stored
     * encrypted, or, when the encrypted save fails, in plaintext, and the view then reports the
     * duplicate-record error it catches for every `IntegrityError`. The seller flag is not set.
     */
    method ApplySeller(svc: Services, caller: Option<UserId>, data: Payload) returns (o: Outcome)
      requires Valid()
      modifies this`sellers
      ensures Valid()
      ensures caller.None? ==> o == LoginRequired
      ensures caller.Some? && caller.value !in users ==> o == NotFound
      ensures caller.Some? && caller.value in users && IsValidSeller(data, false).Failure? ==> o == Invalid
      ensures caller.Some? && caller.value in users && IsValidSeller(data, false).Success? && caller.value in old(sellers) ==>
        o == DuplicateSeller && sellers == old(sellers)
      ensures o == Done <==>
        && caller.Some? && caller.value in users && IsValidSeller(data, false).Success? && caller.value !in old(sellers)
        && CreateSeller(svc, caller.value, IsValidSeller(data, false).value).Encrypted?
      ensures caller.Some? && caller.value in users && IsValidSeller(data, false).Success? && caller.value !in old(sellers) ==>
        && (o == Done || o == DuplicateSeller)
        && sellers == old(sellers)[caller.value := CreateSeller(svc, caller.value, IsValidSeller(data, false).value).row]
      ensures o != Done && o != DuplicateSeller ==> sellers == old(sellers)
    {
      if caller.None? {
        return LoginRequired;
      }
      var uid := caller.value;
      if uid !in users {
        return NotFound;
      }
      var validation := IsValidSeller(data, false);
      if validation.Failure? {
        return Invalid;
      }
      if uid in sellers {
        return DuplicateSeller;
      }
      var saved := CreateSeller(svc, uid, validation.value);
      sellers := sellers[uid := saved.row];
      o := if saved.Encrypted? then Done else DuplicateSeller;
    }

    /**
     * `SellerAPIView.put`: a partial update of the caller's seller record; without a record the
     * lookup raises an exception the view does not catch. The record then holds the encrypted
     * update, or, when the encrypted save fails, the generic update's plaintext, and the request
     * fails.
     */
    method ChangeSeller(svc: Services, caller: Option<UserId>, data: Payload) returns (o: Outcome)
      requires Valid()
      modifies this`sellers
      ensures Valid()
      ensures caller.None? ==> o == LoginRequired
      ensures caller.Some? && caller.value !in users ==> o == NotFound
      ensures caller.Some? && caller.value in users && caller.value !in old(sellers) ==> o == ServerError
      ensures caller.Some? && caller.value in users && caller.value in old(sellers) && IsValidSeller(data, true).Failure? ==>
        o == Invalid
      ensures o == Done <==>
        && caller.Some? && caller.value in users && caller.value in old(sellers) && IsValidSeller(data, true).Success?
        && UpdateSeller(svc, old(sellers)[caller.value], IsValidSeller(data, true).value).Encrypted?
      ensures caller.Some? && caller.value in users && caller.value in old(sellers) && IsValidSeller(data, true).Success? ==>
        && (o == Done || o == ServerError)
        && sellers == old(sellers)[caller.value := UpdateSeller(svc, old(sellers)[caller.value], IsValidSeller(data, true).value).row]
      ensures !(caller.Some? && caller.value in users && caller.value in old(sellers) && IsValidSeller(data, true).Success?) ==>
        sellers == old(sellers)
    {
      if caller.None? {
        return LoginRequired;
      }
      var uid := caller.value;
      if uid !in users {
        return NotFound;
      }
      if uid !in sellers {
        return ServerError;
      }
      var validation := IsValidSeller(data, true);
      if validation.Failure? {
        return Invalid;
      }
      var saved := UpdateSeller(svc, sellers[uid], validation.value);
      sellers := sellers[uid := saved.row];
      o := if saved.Encrypted? then Done else ServerError;
    }

    /** `SellerAPIView.delete`: the caller's seller record is removed; the seller flag stays. */
    method WithdrawSeller(caller: Option<UserId>) returns (o: Outcome)
      requires Valid()
      modifies this`sellers
      ensures Valid()
      ensures caller.None? ==> o == LoginRequired
      ensures caller.Some? && caller.value !in users ==> o == NotFound
      ensures caller.Some? && caller.value in users && caller.value !in old(sellers) ==> o == NoSeller
      ensures o == Done <==> caller.Some? && caller.value in users && caller.value in old(sellers)
      ensures o != Done ==> sellers == old(sellers)
      ensures o == Done ==> sellers == old(sellers) - {caller.value}
    {
      if caller.None? {
        return LoginRequired;
      }
      var uid := caller.value;
      if uid !in users {
        return NotFound;
      }
      if uid !in sellers {
        return NoSeller;
      }
      sellers := sellers - {uid};
      return Done;
    }

    /**
     * `SellerPermissionAPIView.patch`: only an administrator may approve; approval sets the
     * target's seller flag, whether or not the target has applied.
     */
    method ApproveSeller(caller: Option<UserId>, target: UserId) returns (o: Outcome)
      requires Valid()
      modifies this`users
      ensures Valid()
      ensures caller.None? ==> o == LoginRequired
      ensures caller.Some? && caller.value !in old(users) ==> o == NotFound
      ensures caller.Some? && caller.value in old(users) && !old(users)[caller.value].isAdmin ==> o == NotAdmin
      ensures o == Done <==>
        caller.Some? && caller.value in old(users) && old(users)[caller.value].isAdmin && target in old(users)
      ensures o != Done ==> users == old(users)
      ensures o == Done ==> users == old(users)[target := old(users)[target].(isSeller := true)]
    {
      if caller.None? {
        return LoginRequired;
      }
      if caller.value !in users {
        return NotFound;
      }
      if !users[caller.value].isAdmin {
        return NotAdmin;
      }
      if target !in users {
        return NotFound;
      }
      users := users[target := users[target].(isSeller := true)];
      return Done;
    }

    /**
     * `SellerPermissionAPIView.delete`: only an administrator may remove a user's seller record;
     * a user without one is reported, and the seller flag is left as it was.
     */
    method RejectSeller(caller: Option<UserId>, target: UserId) returns (o: Outcome)
      requires Valid()
      modifies this`sellers
      ensures Valid()
      ensures caller.None? ==> o == LoginRequired
      ensures caller.Some? && caller.value !in users ==> o == NotFound
      ensures caller.Some? && caller.value in users && !users[caller.value].isAdmin ==> o == NotAdmin
      ensures caller.Some? && caller.value in users && users[caller.value].isAdmin && target in users && target !in old(sellers) ==>
        o == NoSeller
      ensures o == Done <==>
        caller.Some? && caller.value in users && users[caller.value].isAdmin && target in users && target in old(sellers)
      ensures o != Done ==> sellers == old(sellers)
      ensures o == Done ==> sellers == old(sellers) - {target}
    {
      if caller.None? {
        return LoginRequired;
      }
      if caller.value !in users {
        return NotFound;
      }
      if !users[caller.value].isAdmin {
        return NotAdmin;
      }
      if target !in users {
        return NotFound;
      }
      if target !in sellers {
        return NoSeller;
      }
      sellers := sellers - {target};
      return Done;
    }
  }

  /** In a valid store each user has at most one seller record, and it names that user. */
  lemma AtMostOneSellerPerUser(sellers: map<UserId, Seller>, a: UserId, b: UserId)
    requires forall u :: u in sellers ==> sellers[u].user == u
    requires a in sellers && b in sellers && sellers[a].user == sellers[b].user
    ensures a == b
  {
  }
}
