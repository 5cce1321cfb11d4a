# Users app of an e-commerce backend, modelled in Dafny

This project models the account, delivery-address, seller and bill logic of the `users` app of a
Django REST backend (`jisukim908/chocoTheCoo`). The model covers:

- **Bill aggregation** (`users/orderserializers.py`, module `Orders`): a bill's order items are the
  rows of the order-item table that belong to it. The model computes
  - the item count;
  - the total price, an accumulator loop over price × amount;
  - the derived order status: "결제대기" (awaiting payment) for an unpaid bill, otherwise the name
    of the status category with the least id among the items;
  - the best-effort thumbnail list and the thumbnail name, which skip failed product lookups;
  - the price of a cart line.
- **Sensitive-field routing** (`users/serializers.py`, module `Serializers`):
  - which delivery, seller and user fields are replaced by cipher output on create and update;
  - the serializers' validation;
  - the user update.
- **User construction** (`users/models.py`, module `Models`):
  - the ordered argument checks of `create_user`;
  - the field defaults and the superuser flags;
  - `is_staff`;
  - the login-type choices.
- **Request handlers** (`users/views.py`, module `Views`): one class, `Accounts`, holds the users,
  delivery addresses and seller records as maps. Each handler is a method that checks its guards
  in the view's order, updates the maps and reports an `Outcome`. Its invariant `Valid()` says:
  - every delivery belongs to an existing user;
  - no user has more than five deliveries;
  - seller records are keyed by their user, so a user has at most one.

The cipher (`cryption.AESAlgorithm`), Django's password hashing and e-mail normalisation, and the
checks of the `validated` module are not part of this model. They are fields of the `Services`
record (module `Services`) and are passed to every operation that uses them. Being Dafny
functions, they are total and deterministic; nothing else is assumed about them (see
"## Left out"). In particular, no decrypt-after-encrypt round trip is assumed.

Behaviour of the code that the model keeps as written:

- A paid bill without items gets the integer 1 from the list serializer and "결제대기" from the
  detail serializer.
- `get_thumbnail_name` looks products up through `Product.objects`, but `get_thumbnail` uses
  `Product.object`. The two lookups are separate parameters. If `Product.object` is not a manager
  of the product model, every thumbnail list is empty. The product model is not part of this
  model, so this is stated as a hypothesis (`Orders.ThumbnailNameWithoutImages`).
- Delivery and seller rows are first saved with plaintext by the generic create or update. The
  cipher's output is written over the encrypted columns and saved again, in the same request.
  The user update does the same: `super().update` saves the raw `password` and the plain customs
  code, and only then are they hashed, encrypted and saved again. For users the model stores
  only the final state of the request.
- The encrypted columns are NOT NULL. If the cipher's answer lacks one of them, the second save
  raises `IntegrityError`, and the row keeps the plaintext of the first save. The delivery
  handlers and `SellerAPIView.put` do not catch that error, so the request fails. `SellerAPIView.post`
  catches it and reports "already has seller information". A partial seller update that does not
  resend all three bank fields hits this case when the cipher only encrypts what it is given
  (`Serializers.PartialSellerUpdateLeavesPlaintext`).
- On create, `save(user=...)` adds the user to the validated data, so the cipher also receives the
  user. On update it does not.
- The user update hashes the password column even when no new password is sent (see
  "## Findings"). The handlers follow this code.
- The customs code is encrypted only on user update, not on sign-up.
- Deleting a seller record leaves the user's `is_seller` flag set. Approval does not require a
  seller record.
- The field names differ between files. The model uses one name per field:
  - `Deliverie` in views and models and `Delivery` in serializers are one record, `Delivery`;
  - `numbers` in models and `customs_code` in serializers are one field, `customsCode`;
- `create_user` passes `username=` to the user constructor, but the user model in the same file
  declares a `nickname` column and no `username` field. The model stores the argument in
  `nickname` (see `Models.CreateUser` under "## Left out").
- `UserSerializer` exposes every user field (`fields = "__all__"`). A profile update payload can
  therefore carry the admin, active and seller flags, the auth code and the login type. Whether
such a request passes depends on
  `update_validated_user_data`, which is not part of this model.

## Model

| member | source | states |
|---|---|---|
| `Orders.ItemsOf` | users/orderserializers.py:149 | the bill's items are exactly the table rows that belong to the bill, in table order |
| `Orders.ItemsOfCountsRows` | users/orderserializers.py:155-156 | the bill's item sequence has one entry per table row that belongs to the bill |
| `Orders.OrderItemsCount` | users/orderserializers.py:155-156 | the item count equals the number of table rows belonging to the bill |
| `Orders.TotalPrice` | users/orderserializers.py:148-153 | the accumulator loop yields the sum of price × amount over the bill's items, and 0 for a bill without items; the detail serializer runs the same code |
| `Orders.SubtotalConcat` | users/orderserializers.py:150-152 | the sum of price × amount over two item sequences put together is the sum of the two sums |
| `Orders.TotalAfterAddingItem` | users/orderserializers.py:234-239 | adding one item anywhere in the table raises its bill's total by exactly that item's price × amount and leaves every other bill's total unchanged |
| `Orders.MinStatusId` | users/orderserializers.py:126-127 | `min` of the set of item status ids is one of those ids and is no greater than any of them |
| `Orders.PaidStatusName` | users/orderserializers.py:126-127 | for a paid bill with items, the name is the catalog name of an item status whose id is least; there is no name when there are no items |
| `Orders.BillOrderStatus` | users/orderserializers.py:122-127 | an unpaid bill shows "결제대기" whatever its items; a paid bill with items shows the name of its least-id item status; a paid bill without items gives the integer 1 |
| `Orders.BillDetailOrderStatus` | users/orderserializers.py:222-227 | same as the list serializer, except that a paid bill without items shows "결제대기" |
| `Orders.StatusSerializersDisagreeOnlyWhenEmpty` | users/orderserializers.py:222-227 | the list and detail status values differ exactly for paid bills without items |
| `Orders.Thumbnail` | users/orderserializers.py:137-146 | the loop lists, in item order, the image of every item whose product lookup succeeds and skips the failed ones, so the list has at most one entry per item |
| `Orders.ImagesMembership` | users/orderserializers.py:140-145 | an image is listed if and only if some item's product lookup succeeds with that image |
| `Orders.ImagesWhenAllFound` | users/orderserializers.py:140-143 | when every lookup succeeds, the list has one image per item, position by position |
| `Orders.ImagesWhenNoneFound` | users/orderserializers.py:142-145 | when every lookup fails, the list is empty |
| `Orders.ImagesConcat` | users/orderserializers.py:140-145 | the thumbnail list of two item sequences put together is the two lists one after the other |
| `Orders.ThumbnailName` | users/orderserializers.py:129-135 | the name is that of the first item's product found through `Product.objects`; it is `None` when the bill has no items or that lookup fails |
| `Orders.ThumbnailNameMatchesFirstImage` | users/orderserializers.py:129-146 | the two fields use different lookups (`Product.objects`, `Product.object`); when the second lookup finds, for the first item, the product the first found, the thumbnail name comes with a non-empty list whose first image is that product's |
| `Orders.ThumbnailNameWithoutImages` | users/orderserializers.py:129-146 | when `Product.object` finds nothing, a bill with a thumbnail name still has an empty thumbnail list |
| `Orders.AggregatePrice` | users/orderserializers.py:45-46 | a cart line costs 0 when its amount or its price is 0, and is non-negative when both are |
| `Orders.CartLineMatchesOrderLine` | users/orderserializers.py:45-46 | a cart line costs what an order item with the same price and amount adds to a bill total |
| `Serializers.ValidateUser` | users/serializers.py:21-34 | the create context runs the sign-up check and the update context the update check; any other context accepts; the data is returned unchanged |
| `Serializers.UpdateUserAsWritten` | users/serializers.py:45-54 | as written: every supplied field replaces the stored one, including `auth_code` and a valid `login_type`; the password becomes a hash of whatever the password column holds after the generic update; the customs code becomes the encryption of a supplied code and is kept otherwise |
| `Serializers.RehashLocksOutUser` | users/serializers.py:51 | as written, after an update without a password the old password no longer verifies |
| `Serializers.UpdateUser` | users/serializers.py:45-54 | corrected: a supplied password is stored hashed and an absent one leaves the stored hash alone; every other field is handled as written |
| `Serializers.AsWrittenDiffersOnlyWithoutPassword` | users/serializers.py:49-52 | the as-written and corrected updates agree when a password is supplied; otherwise they differ only in the password column, which the code as written sets to a hash of the stored hash |
| `Serializers.UpdateUserKeepsLogin` | users/serializers.py:49-52 | after the corrected update, the new password verifies if one was supplied; otherwise exactly the old passwords verify |
| `Serializers.ValidateDelivery` | users/serializers.py:66-73 | the delivery data passes exactly when the postal check accepts it, and is returned unchanged |
| `Serializers.IsValidDelivery` | users/serializers.py:62-73 | a delivery payload is valid exactly when all four fields are present, non-blank and within length, and the postal check accepts them; the validated data holds just those four fields |
| `Serializers.EncryptDeliveriesInformation` | users/serializers.py:75-86 | when the cipher's answer has all four address fields they become its values under their names and the owner is kept; when it lacks one the save fails and the row is left as it was |
| `Serializers.CreateDelivery` | users/serializers.py:88-95 | the row belongs to the given owner; the cipher sees the data together with the owner; the row holds its output in all four fields, or the submitted plaintext when the output lacks one |
| `Serializers.UpdateDelivery` | users/serializers.py:97-104 | the row keeps its owner; the cipher sees the data alone; the row holds its output in all four fields, or the generic update's plaintext when the output lacks one |
| `Serializers.UpdatedDeliveryForgetsOldRow` | users/serializers.py:97-104 | given the same cipher answer, a full update's row does not depend on the replaced row: two rows of one owner updated with the same data end up identical |
| `Serializers.IsValidSeller` | users/serializers.py:112-114 | a seller payload is valid exactly when its fields pass the model's field checks (all seven required unless partial); the validated data is the declared fields only |
| `Serializers.SellerFieldsPartition` | users/serializers.py:120-123 | the encrypted and the plain seller fields split the seven declared fields |
| `Serializers.EncryptSellerInformation` | users/serializers.py:116-124 | only bank name, account number and account holder take the cipher's values, and only when its answer has all three; otherwise the save fails and the row is left as it was; the other four fields always keep their values |
| `Serializers.CreateSeller` | users/serializers.py:126-133 | a new seller record holds the submitted plain fields; the cipher sees the data together with the user; the bank fields hold its output, or the submitted plaintext when the output lacks one |
| `Serializers.UpdateSeller` | users/serializers.py:135-142 | submitted plain fields replace the stored ones and the others are kept; the bank fields take the cipher's output when it has all three, and otherwise keep the generic update's values |
| `Serializers.PartialSellerUpdateLeavesPlaintext` | users/serializers.py:135-142 | with a cipher that only encrypts what it is given, a partial update missing a bank field fails its save, and a bank field that was sent stays in plaintext |
| `Models.CreateUser` | users/models.py:6-20 | fails for a missing password first, then a missing username, then a missing e-mail; otherwise it yields a user with the normalised e-mail, the given name, a hashed password under which the given one verifies, and the default flags (not admin, not active, not seller, login type normal) |
| `Models.CreateSuperuser` | users/models.py:22-32 | fails as create_user does; otherwise it yields an active administrator, and so a staff member |
| `Models.IsStaff` | users/models.py:73-75 | staff status is admin status |
| `Models.ParseLoginType` | users/models.py:36-41 | exactly the codes normal, kakao, google and naver are accepted login types |
| `Models.LoginTypeCodeRoundTrip` | users/models.py:36-41 | each login type has exactly one stored code and each code exactly one type |
| `Views.AtMostOneSellerPerUser` | users/models.py:79 | seller records keyed by their user give each user at most one record |
| `Views.DeliveryCountInsert` | users/views.py:108-110 | storing a new delivery raises its owner's count by one and leaves other users' counts unchanged |
| `Views.DeliveryCountRemove` | users/views.py:141-142 | deleting a delivery lowers only its owner's count, by one |
| `Views.DeliveryCountReplace` | users/views.py:128-132 | replacing a delivery by one with the same owner changes no count |
| `Views.Accounts.SendAuthCode` | users/views.py:15-22 | stores the issued code on an existing user; nothing else changes |
| `Views.Accounts.Activate` | users/views.py:35-46 | with no stored code, or a different code, activation fails and the user is unchanged; with the matching code the user becomes active and the code is cleared |
| `Views.ResetPatch` | users/views.py:50-55 | the serializer's data is the request itself: it carries the submitted `auth_code`, including a `null`, and the e-mail by which the user was found |
| `Views.ResetGuard` | users/views.py:51-54 | as written: refused while the stored code is the empty string; refused when the submitted code differs; accepted otherwise, including a user with no stored code whose request sends `null` |
| `Views.CheckedResetGuard` | users/views.py:51-54 | corrected: accepted exactly when a non-empty code is stored and the request sends it; a missing or empty stored code is refused |
| `Views.CodelessResetPasses` | users/views.py:51-54 | a user with no stored code passes the guards as written with a `null` code, and is refused by the corrected guards |
| `Views.ResetUser` | users/views.py:55-60 | after an accepted reset the code is cleared, the account is active, the e-mail is unchanged and the password column is the hash of the submitted password or, as written, of the stored hash |
| `Views.Accounts.ResetPassword` | users/views.py:48-63 | as written: the guards of `ResetGuard`, then the update check; an accepted request stores the user of `ResetUser`, a refused one changes nothing; a user with no stored code is reset by a request whose code is `null` whenever the payload passes the check |
| `Views.Accounts.ResetPasswordChecked` | users/views.py:48-63 | corrected: the same handler with `CheckedResetGuard`; it succeeds only for a user holding a non-empty code that the request repeats |
| `Views.Accounts.UpdateProfile` | users/views.py:74-84 | only the user may update the profile, and only through the update check; a refused update changes nothing; an accepted one is the as-written user update |
| `Views.Accounts.MakeDormant` | users/views.py:86-94 | only the user may switch to dormant; this sets is_active false and changes nothing else |
| `Views.Accounts.AddDelivery` | users/views.py:103-121 | a non-owner is rejected; a user who already has more than four deliveries is rejected; a request without a postal code or with an invalid payload creates nothing; a valid one stores one row under a fresh id, leaves the owner with at most five and succeeds exactly when the row was encrypted |
| `Views.Accounts.ChangeDelivery` | users/views.py:125-136 | anyone but the owner is rejected and the row stays unchanged; a valid payload replaces the row by its update, which succeeds exactly when the update was encrypted |
| `Views.Accounts.DeleteDelivery` | users/views.py:138-145 | anyone but the owner is rejected and the row stays; the owner's delete removes exactly that row |
| `Views.Accounts.ApplySeller` | users/views.py:148-162 | an anonymous caller is rejected; an invalid payload is rejected; a second application is refused and the first record is kept; a first one stores the new record and succeeds exactly when it was encrypted, otherwise reports the duplicate-record error; the seller flag is not set |
| `Views.Accounts.ChangeSeller` | users/views.py:164-175 | a partial update of the caller's seller record, which succeeds exactly when the update was encrypted and otherwise fails with the plaintext stored; without a record the request fails with an uncaught exception |
| `Views.Accounts.WithdrawSeller` | users/views.py:177-187 | removes the caller's seller record, reports an error when there is none, and leaves the user's flags unchanged |
| `Views.Accounts.ApproveSeller` | users/views.py:191-202 | a non-admin is rejected and nothing changes; an admin's approval sets the target's seller flag and changes nothing else |
| `Views.Accounts.RejectSeller` | users/views.py:204-217 | a non-admin is rejected; deleting a missing seller record reports an error; an admin's delete removes exactly the target's record |

## Findings

| source | as written | input that shows it | evidently intended | confidence | as-written member | corrected member |
|---|---|---|---|---|---|---|
| users/views.py:51-53 | `UserAPIView.patch` refuses only an empty stored code and then compares the submitted code with the stored one, so a user whose stored code is `None` (every new user, and every user after activation or a reset) matches a request that sends `"auth_code": null` | a reset request `{"email": <victim's e-mail>, "auth_code": null, "password": "x"}` for a user with no stored code | refuse a reset unless a non-empty code was issued and is repeated | medium, not executed | `Views.Accounts.ResetPassword` with `Views.ResetGuard` (exhibited by `Views.CodelessResetPasses`) | `Views.Accounts.ResetPasswordChecked` with `Views.CheckedResetGuard` |
| users/serializers.py:51 | `UserSerializer.update` hashes the password column on every call, even when the request carries no new password, so the stored hash is replaced by a hash of itself | a profile update (or password-reset request) that only changes the nickname, for a user whose password is "pw" | hash only a newly supplied password and otherwise keep the stored hash | medium, not executed | `Serializers.UpdateUserAsWritten` (exhibited by `Serializers.RehashLocksOutUser`) | `Serializers.UpdateUser` (proved by `Serializers.UpdateUserKeepsLogin`) |

The handlers in `Views` follow the code as written. `Views.Accounts.ResetPasswordChecked` is the
password reset with the intended guards. `Serializers.AsWrittenDiffersOnlyWithoutPassword` relates the two versions: a request that supplies a new password behaves as intended.

## Left out

- The cipher is modelled as a total, deterministic function of its input. A per-call nonce, under
  which two encryptions of the same data differ, is not captured. Neither is a cipher call that
  raises. This fixes the outcomes of the handlers that encrypt. In particular,
  `Views.Accounts.ApplySeller` can only report success or `DuplicateSeller`. In the program, a
  raising `encrypt_all` (which on create also receives the user instance) would fail
  `SellerAPIView.post` uncaught, after the plaintext row was saved.
  `Serializers.UpdatedDeliveryForgetsOldRow` holds for one cipher answer.
- The order of `orderitem_set.all()` is taken to be the table's order, and to be the same for
  every query. The code gives the queries no ordering. `get_thumbnail_name` and `get_thumbnail`
  each run their own query, and the model reads both from one sequence (`Orders.ItemsOf`).

- Models.CreateUser: the model reads the `username=` keyword as the `nickname` column. As written,
  models.py:14-17 passes `username=` to a model that declares no `username` field, which Django's
  constructor rejects with `TypeError`. The model instead assumes the evident intent. The
  `IntegrityError` that `save()` raises for an e-mail already in use (`unique=True`) is not
  modelled either, because the store of existing users is not an argument of `create_user`.
- Models.CreateSuperuser: it inherits both gaps of `Models.CreateUser` through its call of
  `create_user`.
- Serializers.EncryptDeliveriesInformation, Serializers.EncryptSellerInformation and
  Serializers.UpdateUserAsWritten assume a database that does not enforce `max_length`, as
  SQLite does not. The columns are short: `postal_code` 10, `recipient` 30, `bank_name` 20,
  `account_holder` 20, `numbers` 20. On a backend that enforces the length, ciphertext longer than
  the column makes the save raise `DataError`. That is not an `IntegrityError`, so
  `SellerAPIView.post` would fail with an uncaught error rather than report a duplicate. The model
  states only the NOT NULL failure.
- A request missing a key the view indexes directly is not modelled. Examples are `email` or
  `auth_code` in `UserAPIView.put`/`patch`, and `email` in `GetEmailAuthCodeAPIView.put`. The
  resulting `KeyError` is an uncaught error.

- The AES cipher is not part of this model. `encrypt_all`, `encrypt` and `decrypt_all` are
  arbitrary functions. Neither the decrypt-after-encrypt round trip nor tamper detection is
  assumed or proved.
- `to_representation` of the bill serializers is not modelled. It passes the serialized fields to
  `decrypt_all`, and the cipher is not part of this model, so there would be nothing to state
  about the result.
- The `validated` module is not part of this model: `send_email`, `validated_user_data`,
  `update_validated_user_data`, `validated_deliveries` and `validated_postal_code`. Each is a
  parameter. The issued auth code is an argument of `Views.Accounts.SendAuthCode`.
- Password hashing and e-mail normalisation are Django library calls and are parameters here.
  `Services.CheckPassword` treats the hash as deterministic. Django salts it, so the model says
  which passwords verify, not which strings are stored.
- The user serializer's own field checks (e-mail format, uniqueness, lengths) are one predicate
  parameter. The delivery and seller field checks are modelled from the model declarations:
  required, non-blank, and within `max_length` counted in characters. Whitespace trimming is not
  modelled.
- ORM persistence is modelled only as far as the two saves of the delivery and seller serializers
  go. Each map holds the row as it stands at the end of the request. Every save is taken to commit
  on its own, as Django does unless requests are wrapped in transactions. The project settings are
  not part of this model.
- The `user` entry the cipher receives on create is modelled by the user's id.
- Users are looked up by id. Where a view looks a user up by e-mail, the handler takes the id that
  e-mail resolves to, and a missing user gives `NotFound`.
- HTTP status codes, response messages, `print` calls, JWT token payloads
  (`CustomTokenObtainPairSerializer`) and image storage are not modelled. The thumbnail image is
  an opaque string.
- The check-then-insert race on the delivery count is not modelled: the model is sequential.
- Sign-up (`UserAPIView.post`, `UserSerializer.create`) is not modelled. The read-only views
  (`UserProfileAPIView.get`, `DeliverieAPIView.get`) are not modelled either. Bill creation
  (`BillCreateSerializer`) and the point, subscription and wish-list serializers are field
  projections or counts outside the modelled core. `users/urls.py` is routing only.
- The user patch leaves out `profile_image` (image storage) and the fields Django's base user
  class adds (`last_login`).
- `has_perm` and `has_module_perms` always grant and are not modelled.
- Order items are assumed to name existing status categories (the foreign key), stated as the
  `CatalogCovers` precondition of the status functions. A dangling status id would raise in the
  source.
