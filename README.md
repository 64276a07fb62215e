# payping core in Dafny

payping is a UPI payment-link service. A merchant signs up with an email OTP and links one or more provider accounts, one of them the default. The merchant then creates payment orders from the dashboard or through the merchant API, using an API key. Each order gets a sequential id (`PAYPING000001`, …) and a `upi://pay` link. Its status is checked against the provider (Paytm) on demand. A periodic sweep fails orders that have stayed pending too long. When an order reaches a final state, the merchant's callback URL gets a webhook, signed when the merchant has a webhook secret. Failed deliveries are retried with backoff, and each attempt is recorded in a callback log.

This project models that core as Dafny, one module per source file:

- The data model: users, payment orders, provider accounts, providers and callback logs, each with its record invariants.
- The stores are classes holding a `seq` of documents. Their methods are proved against pure specification functions over that sequence, and the properties are lemmas about those functions.
- The order service: id counter and formatting, order creation, the status-check decision chain, listing with pagination, and the dashboard statistics with the seven-day chart fill loop.
- The order-expiry cron tick.
- Webhook dispatch: payload, signature, log creation, and the backoff transition.
- The webhook log controller.
- The provider-account table.
- OTP issue and verify, registration and login.
- Profile operations and key rotation.
- The session and API-key middlewares, and the error middleware's status default.
- Key generation (hex encoding).
- Provider status normalisation.
- The hand-written predicates of the zod schemas.
- The dashboard route guards.
- The paged, de-duplicating list reducers of the order and webhook-log pages.

Conventions:

- Times are integer milliseconds.
- Days are integer day numbers.
- Amounts are `real`.
- Foreign calls are function-typed parameters: HMAC-SHA256, `JSON.stringify`, bcrypt, JWT verification, `encodeURIComponent`, zod's email and URL checks, and JavaScript number parsing.
- Randomness, the clock and HTTP outcomes are inputs.

The model follows the code as written:

- Every webhook delivery inserts a new callback log, even for an order that already has one.
- A thrown fetch leaves the log `pending` with 0 attempts.
- The sweep in `backend/cron/orderCleanup.js` expires pending orders after 10 minutes. The on-demand check in `checkOrderStatus` expires them after 5. The comment at line 10 says these match; both windows are modelled as written.

## Model

| member | source | states |
|---|---|---|
| Keys.HexEncode | backend/utils/keys.js:3-4 | the hex text has two lower-case hex digits per byte |
| Keys.HexRoundTrip | backend/utils/keys.js:3-4 | decoding the hex text of any bytes gives those bytes back |
| Keys.HexEncodeInjective | backend/utils/keys.js:3-4 | different bytes never give the same hex text |
| Keys.RandomString | backend/utils/keys.js:3-4 | `randomString(n)` is 2n lower-case hex digits that decode to the n random bytes |
| Keys.GenerateApiKey | backend/utils/keys.js:6 | an API key is 40 characters: "pk_live_" and then the hex of 16 random bytes, which it decodes back to |
| Keys.GenerateWebhookSecret | backend/utils/keys.js:7 | a webhook secret is 70 characters: "whsec_" and then the hex of 32 random bytes, which it decodes back to |
| Keys.KeysDistinguishDraws | backend/utils/keys.js:6-7 | two API keys are equal exactly when their random draws are, and an API key never equals a webhook secret |
| Paytm.GetPaytmStatus | backend/utils/providers/paytm.js:1-27 | the status is "success" exactly when Paytm replied with STATUS "TXN_SUCCESS", else "pending"; utr is BANKTXNID when that is truthy, else null; txnTime is the parsed TXNDATE when that is truthy, else null; rawResponse is the reply; a thrown fetch gives pending with every other field null |
| Providers.GetProviderStatus | backend/utils/providers/index.js:3-11 | a result exists exactly when the lower-cased provider code is "paytm", and it is the Paytm adapter's result |
| Providers.DispatchIgnoresCase | backend/utils/providers/index.js:4 | two codes that agree once lower-cased reach the same adapter |
| Providers.DispatchExamples | backend/utils/providers/index.js:4-9 | "PAYTM" and "PayTm" reach the Paytm adapter; "phonepe" reaches none |
| PaymentProviderModel.FindProvider | backend/services/providerAccountService.js:36 | populating `provider` gives the catalogue entry with that id, or null when no entry has it |
| UserSchema.AcceptedUrlShape | backend/validations/userSchema.js:6-10 | a non-empty callback URL is accepted exactly when it starts with "https://" or "http://", has something after the scheme, and holds no space and no double quote |
| UserSchema.CallbackUrlExamples | backend/validations/userSchema.js:8 | "https://", "ftp://x" and "https://a b" are refused; a missing URL, "" and "https://example.com/hook" are accepted |
| OrderSchema.DashboardSchemaIsLooser | backend/validations/orderSchema.js:3-19 | every body the merchant-API schema accepts the dashboard schema accepts too; the dashboard schema accepts more exactly when `clientRef` is absent and the rest is valid; neither accepts an amount of zero or less |
| OrderSchema.AcceptedClientRefIsUsed | backend/validations/orderSchema.js:12-19 | on an accepted dashboard body the order's client reference is the one sent, or the internal reference when none was sent |
| AuthSchema.SchemasAgreeWithService | backend/validations/authSchema.js:3-29 | every OTP the service generates passes the six-character check, as does any six letters; a body the register schema accepts also passes the login and send-OTP schemas |
| ProviderAccountSchema.IdCheckIgnoresCase | backend/validations/providerAccountSchema.js:5 | an id string passes the 24-hex-digit check exactly when its lower-cased form does |
| ProviderAccountSchema.PrintedIdsPass | backend/validations/providerAccountSchema.js:5 | every ObjectId printed as 24 lower-case hex digits passes the id check |
| ProviderAccountSchema.EmptyMerchantIdOnlyOnUpdate | backend/validations/providerAccountSchema.js:7-21 | an update body with an empty `merchantId` is accepted, while a create body with one is refused |
| RouteWrappers.ProtectedWrapper | frontend/src/components/RouteWrappers.jsx:6-27 | nothing but a loading view while loading; the routes render exactly when not loading, a token is held, and the user is verified or verification is not required; a redirect to /login carries the current location |
| RouteWrappers.AuthWrapper | frontend/src/components/RouteWrappers.jsx:30-46 | nothing but a loading view while loading; the routes render exactly when not loading and no token is held |
| RouteWrappers.PublicWrapper | frontend/src/components/RouteWrappers.jsx:49-51 | the routes always render |
| RouteWrappers.GuardDecisions | frontend/src/components/RouteWrappers.jsx:6-46 | without a token the protected wrapper sends to /login; an unverified user goes to /verify-otp unless `requireVerified` is false; a logged-in user on the auth pages goes to "/"; for a verified user or a visitor exactly one of the two wrappers renders its routes |
| Base.Count | backend/services/orderService.js:175 | `countDocuments` is at most the collection's size, and zero exactly when no document matches |
| Base.CountIsFilterLength | backend/services/orderService.js:169-175 | the count of matching documents is the length of the list of matching documents |
| Base.Reverse | backend/services/orderService.js:171 | sorting newest first lists the documents in the reverse of their insertion order |
| Text.DecimalString | backend/services/orderService.js:21 | `seq.toString()` is a non-empty digit string with no leading zero |
| Text.ParseDecimalString | backend/services/orderService.js:21 | reading back the decimal text of a number gives the number |
| Text.DecimalStringInjective | backend/services/orderService.js:21 | different numbers have different decimal texts |
| Text.DecimalStringLength | backend/services/orderService.js:21 | a number with k digits has a k-character decimal text |
| Text.PadStart | backend/services/orderService.js:21 | `padStart(width, c)` ends with the original string, is `width` long when the string is shorter (else the string itself), and every added character is `c` |
| Text.ParsePadded | backend/services/orderService.js:21 | zero-padding a decimal text keeps it a digit string of the same value |
| Text.ToLower | backend/utils/providers/index.js:4 | lower-casing keeps the length and lower-cases each character |
| Text.ToLowerIdempotent | backend/utils/providers/index.js:4 | a lower-cased string has no upper-case letters, and lower-casing it again changes nothing |
| Text.Split | backend/middleware/authMiddleware.js:14 | `split(" ")` gives at least one field, and no field contains the separator |
| Text.JoinSplit | backend/middleware/authMiddleware.js:14 | joining the fields of a split with the separator gives the string back |
| Paging.PageParam | backend/services/orderService.js:162 | the page is whatever integer the query gives, unvalidated, or 1 by default |
| Paging.LimitParam | backend/services/orderService.js:162 | the limit is whatever integer the query gives, unvalidated, or 50 by default |
| Paging.Skip | backend/services/orderService.js:172 | `(page - 1) * limit` is non-negative for a page of at least 1 and a non-negative limit, and 0 on page 1 or with limit 0 |
| Paging.Pages | backend/services/orderService.js:182 | `Math.ceil(total / limit)` is the fewest pages of `limit` items that hold `total` items |
| Paging.PageCountOf | backend/services/orderService.js:182 | `Math.ceil(total / limit)` for every limit: the ceiling for a positive limit, a non-positive ceiling for a negative one, `Infinity` for a positive total over 0 and `NaN` for 0 / 0 |
| Paging.Window | backend/services/orderService.js:172-173 | `.skip().limit()` fails exactly when the skip is negative; otherwise it gives the contiguous run of items from the skip, all of them for limit 0 and at most the limit's absolute value otherwise, and page `page` whenever page and limit are positive |
| Paging.PageOf | backend/services/orderService.js:172-173 | a page is at most `limit` items, the `(page - 1) * limit`-th item onward, in order; it is short only at the end of the items |
| Paging.ItemOnItsPage | backend/services/orderService.js:172-182 | item i is shown on page `i / limit + 1` at position `i % limit`, and that page is within `pages` |
| Paging.PageHolding | backend/services/orderService.js:172-182 | every item is shown at some position of some page numbered 1 to `pages` |
| Paging.MorePagesIff | backend/services/orderService.js:182 | a page after `page` exists exactly when `page * limit < total` |
| CallbackModel.LogStatusNameInjective | backend/models/Callback.js:23-28 | the four log statuses are stored as four different strings |
| CallbackModel.NewLog | backend/models/Callback.js:19-32 | a new log is `pending` with 0 attempts and no retry time, and holds the given user, order, url and payload |
| CallbackModel.CallbackLogCollection.constructor | backend/models/Callback.js:3-37 | the log collection starts empty and valid |
| CallbackModel.CallbackLogCollection.Create | backend/models/Callback.js:3-37 | `create` appends exactly one new log with a fresh id and the schema defaults, and keeps ids distinct |
| CallbackModel.CallbackLogCollection.Save | backend/models/Callback.js:34 | `save` replaces only the log at its position, stamps `updatedAt`, and keeps the collection valid |
| UserModel.NewUser | backend/models/User.js:10-47 | a new user is active and unverified, has its email stored lower-cased, holds the generated key and secret, and has no callback URL and no OTP state |
| UserModel.IndexOfId | backend/models/User.js:3-73 | the position found holds the id, and no position holds it when none is found |
| UserModel.FindById | backend/middleware/authMiddleware.js:32 | `findById` gives a stored user with that id, or nothing when no user has it |
| UserModel.FindByEmail | backend/models/User.js:10-15 | the lookup by email lower-cases the query, as the schema's `lowercase` setter does, and finds a user exactly when one holds that lower-cased email |
| UserModel.SaveUser | backend/models/User.js:10-43 | saving succeeds exactly when the document exists and no other document has its email, API key or webhook secret; it then replaces that one document |
| UserModel.SaveKeepsValid | backend/models/User.js:10-43 | a successful save keeps ids distinct, emails lower-cased, and email, API key and webhook secret unique |
| UserModel.Replaced | backend/models/User.js:3-73 | replacing a document keeps the length and every other document |
| UserModel.ReplacedTwice | backend/models/User.js:3-73 | saving the same document twice leaves only the second version |
| UserModel.ClashSymmetric | backend/models/User.js:13-42 | two documents clash on a unique field in either order alike |
| UserModel.SaveKeepingKeys | backend/models/User.js:13-42 | saving a stored user whose email, key and secret are unchanged always succeeds and keeps the invariants |
| UserModel.FindByEmailUnique | backend/models/User.js:13 | emails are unique, so the lookup by email finds the one user holding it |
| UserModel.UserCollection.constructor | backend/models/User.js:75 | the user collection starts empty and valid |
| UserModel.UserCollection.Create | backend/models/User.js:10-43 | `create` appends the new user with a fresh id exactly when no unique index refuses it; otherwise nothing changes and a duplicate-key error is returned |
| UserModel.UserCollection.Save | backend/models/User.js:10-43 | `save` stores the result of the save rule above, or leaves the collection unchanged and returns its error |
| PaymentOrderModel.OrderStatusNameInjective | backend/models/PaymentOrder.js:38-43 | the three order statuses are stored as three different strings |
| PaymentOrderModel.NewOrder | backend/models/PaymentOrder.js:5-54 | a new order is `pending` (not terminal), has no utr, txnTime or provider response, and both timestamps are the creation time |
| PaymentOrderModel.IndexOfRef | backend/models/PaymentOrder.js:17-21 | the position found holds the `internalRef`, and none holds it when none is found |
| PaymentOrderModel.FindByClientRef | backend/models/PaymentOrder.js:57 | the lookup by (user, clientRef) finds a stored match, or nothing when no order matches |
| PaymentOrderModel.InsertOrder | backend/models/PaymentOrder.js:17-57 | `create` succeeds exactly when `internalRef` and `clientRef` are non-empty and neither unique index is violated; it then appends the order |
| PaymentOrderModel.InsertKeepsValid | backend/models/PaymentOrder.js:17-57 | a successful insert with a fresh id keeps ids distinct, `internalRef` unique and (user, clientRef) unique |
| PaymentOrderModel.ReplaceKeepsValid | backend/models/PaymentOrder.js:17-57 | saving an order whose id, internalRef, user and clientRef are unchanged keeps the invariants |
| PaymentOrderModel.OrderCollection.constructor | backend/models/PaymentOrder.js:62 | the order collection starts empty and valid |
| PaymentOrderModel.OrderCollection.Create | backend/models/PaymentOrder.js:5-57 | `create` appends a fresh pending order when it may be inserted; otherwise nothing changes and the error is returned |
| PaymentOrderModel.OrderCollection.Save | backend/models/PaymentOrder.js:54 | `save` replaces only that order, stamps `updatedAt`, and keeps the collection valid |
| ProviderAccountModel.AtMostOneDefault | backend/models/UserProviderAccount.js:42-45 | in a valid table two default accounts of one user are the same account |
| ProviderAccountModel.CountForUser | backend/services/providerAccountService.js:13 | the user's count is zero exactly when the user has no account |
| ProviderAccountModel.FindDefault | backend/services/orderService.js:28-31 | the lookup gives a default account of the user, or nothing when the user has none |
| ProviderAccountModel.FindByProvider | backend/services/providerAccountService.js:7-10 | the lookup gives the user's account for that provider, or nothing when the user has none |
| ProviderAccountModel.IndexOfOwned | backend/services/providerAccountService.js:40 | the position found holds that id and belongs to the user; none does when none is found |
| ProviderAccountModel.ClearDefaults | backend/services/providerAccountService.js:17-20 | `updateMany` sets `isDefault` false on exactly the user's accounts other than the excepted one, and changes nothing else |
| ProviderAccountModel.ClearDefaultsKeepsValid | backend/models/UserProviderAccount.js:39-45 | clearing defaults keeps the table's invariants |
| ProviderAccountModel.InsertAccount | backend/models/UserProviderAccount.js:18-45 | `create` succeeds exactly when `merchantId` and `vpa` are present and no unique index is violated; it then appends the account; a missing field is a validation error and a clash a duplicate-key error |
| ProviderAccountModel.ReplaceAccount | backend/models/UserProviderAccount.js:18-45 | writing back an account succeeds on the same two conditions, and then changes only that position |
| ProviderAccountModel.RemoveAccount | backend/services/providerAccountService.js:78 | deleting removes exactly that account and keeps the order of the rest |
| ProviderAccountModel.InsertKeepsValid | backend/models/UserProviderAccount.js:39-45 | a successful insert with a fresh id keeps the invariants |
| ProviderAccountModel.ReplaceKeepsValid | backend/models/UserProviderAccount.js:39-45 | a successful write-back keeps the invariants |
| ProviderAccountModel.RemoveKeepsValid | backend/models/UserProviderAccount.js:39-45 | a delete keeps the invariants |
| ProviderAccountModel.AccountCollection.constructor | backend/models/UserProviderAccount.js:47 | the account table starts empty and valid |
| ProviderAccountModel.AccountCollection.UpdateManyClearDefault | backend/services/providerAccountService.js:17-20 | the table becomes the cleared table and stays valid |
| ProviderAccountModel.AccountCollection.Create | backend/models/UserProviderAccount.js:18-45 | the table becomes the insert's result, or stays unchanged when the insert is refused |
| ProviderAccountModel.AccountCollection.Replace | backend/models/UserProviderAccount.js:18-45 | the table becomes the write-back's result, or stays unchanged when it is refused |
| ProviderAccountModel.AccountCollection.Remove | backend/services/providerAccountService.js:78 | the table becomes the table without that account and stays valid |
| ProviderAccountService.ApplyUpdate | backend/services/providerAccountService.js:64-68 | the updated document takes each field the body carries and keeps every other field and its id |
| ProviderAccountService.CreateRejectsSameProvider | backend/services/providerAccountService.js:7-10 | a second account for the same (user, provider) gives 400 and leaves the table unchanged |
| ProviderAccountService.CreateSucceeds | backend/services/providerAccountService.js:4-33 | with no account for that provider yet, creation succeeds exactly when `merchantId` and `vpa` are non-empty, and the table stays valid |
| ProviderAccountService.CreateFirstIsDefault | backend/services/providerAccountService.js:13-14 | a user's first account is default whatever `isDefault` asked for |
| ProviderAccountService.CreateDefaultIsOnlyDefault | backend/services/providerAccountService.js:16-30 | a new default account is appended and none of the user's other accounts is default afterwards |
| ProviderAccountService.CreateNonDefaultAppends | backend/services/providerAccountService.js:14-30 | a create that is not default only appends the new account |
| ProviderAccountService.CreateAccount | backend/services/providerAccountService.js:4-33 | the method's result and new table are those of the create rule above, and the table stays valid |
| ProviderAccountService.GetAccounts | backend/services/providerAccountService.js:35-37 | exactly the user's accounts, each once positionally and each with its populated provider |
| ProviderAccountService.GetAccountById | backend/services/providerAccountService.js:39-45 | an account is returned only under both its id and its owner, with its provider; otherwise 404 "Account not found" |
| ProviderAccountService.ClearDefaultsKeepsOwned | backend/services/providerAccountService.js:57-68 | clearing defaults does not move which document the (id, user) lookup finds |
| ProviderAccountService.UpdateKeepsLastAccountDefault | backend/services/providerAccountService.js:49-54 | un-defaulting when the user has at most one account gives 400 and nothing changes |
| ProviderAccountService.UpdateSetDefaultClearsOthers | backend/services/providerAccountService.js:57-62 | after an update with `isDefault` true none of the user's other accounts is default, whether the write then succeeds, fails or finds nothing |
| ProviderAccountService.UpdateScopedToOwner | backend/services/providerAccountService.js:64-72 | an update of an account the user does not own fails, with 404 once the last-default check has passed |
| ProviderAccountService.UpdateKeepsValid | backend/services/providerAccountService.js:47-75 | the table stays valid after any update |
| ProviderAccountService.UpdateAccount | backend/services/providerAccountService.js:47-75 | the method's result and new table are those of the update rule, and the table stays valid |
| ProviderAccountService.UndefaultLeavesNoDefault | backend/services/providerAccountService.js:49-54 | a user with two accounts can un-default the default one and is left with no default account |
| ProviderAccountService.SetDefaultOnUnknownIdClearsDefault | backend/services/providerAccountService.js:57-72 | setting as default an id the user does not own answers 404, yet the user's existing default has been cleared |
| ProviderAccountService.UpdateCanReassignOwner | backend/services/providerAccountService.js:64-68 | a `user` field in the update body moves the account to another user |
| ProviderAccountService.AsUpdate | backend/validations/providerAccountSchema.js:13-19 | a body cut down to the schema's fields never carries `user` or `provider` |
| ProviderAccountService.CorrectedUpdateKeepsDefault | backend/services/providerAccountService.js:47-75 | the corrected update keeps the account's owner and provider, changes nothing when it fails, never leaves a user that had a default without one, and keeps the table valid |
| ProviderAccountService.DeleteAccountSpec | backend/services/providerAccountService.js:77-83 | delete fails with 404 and no change exactly when the user owns no account with that id; otherwise it removes one document and adds none |
| ProviderAccountService.DeleteRemovesOnlyTarget | backend/services/providerAccountService.js:77-83 | a delete removes only the document with that id; every other document stays as it was, `isDefault` included, so no default is reassigned |
| ProviderAccountService.DeleteAccount | backend/services/providerAccountService.js:77-83 | the method's result and new table are those of the delete rule, and the table stays valid |
| AuthService.GenerateOtp | backend/services/authService.js:9-11 | the OTP is six decimal digits without a leading zero, denoting a number from 100000 to 999999 |
| AuthService.SecondsLeft | backend/services/authService.js:21-23 | the wait is the whole seconds that cover the rest of the minute, from 1 to 60 |
| AuthService.WithOtp | backend/services/authService.js:30-33 | storing an OTP sets it, its expiry ten minutes on and the send time, and nothing else |
| AuthService.WithdrawOtp | backend/services/authService.js:45-46 | withdrawing clears the OTP and its expiry, keeps the send time, and changes nothing else |
| AuthService.SendOtpUnknownEmail | backend/services/authService.js:14-17 | an unknown email gives 404 "User not found" and changes nothing |
| AuthService.SendOtpCooldown | backend/services/authService.js:19-28 | within a minute of the last send the answer is 429 naming a wait of 1 to 60 seconds, and nothing changes |
| AuthService.SendOtpIssues | backend/services/authService.js:30-51 | out of cooldown and with the mail delivered, only that user changes: OTP stored, expiry ten minutes on, send time now |
| AuthService.SendOtpMailFailure | backend/services/authService.js:38-49 | when the mail fails the answer is 500, the user holds no OTP, the send time stays recorded and the store stays valid |
| AuthService.ResendWithinMinuteRefused | backend/services/authService.js:19-34 | a second request within a minute of a send that passed the cooldown is refused with 429, even when the mail of the first failed |
| AuthService.SentUser | backend/services/authService.js:30-33 | a send past the cooldown keeps the user's id and email and records the send time |
| AuthService.SentUserStored | backend/services/authService.js:30-49 | after a send past the cooldown the store is valid and holds that user, whether or not the mail went out |
| AuthService.Verified | backend/services/authService.js:65-67 | a verified user is marked verified, holds no OTP, and nothing else changes |
| AuthService.VerifyOtpIff | backend/services/authService.js:54-71 | verification succeeds exactly when a user with the email holds that OTP with an expiry strictly after now; that user alone becomes verified; otherwise 400 "Invalid or expired OTP" and no change |
| AuthService.OtpSingleUse | backend/services/authService.js:55-67 | after a successful verification the same OTP is refused at any later time |
| AuthService.NoOtpAfterVerify | backend/services/authService.js:65-67 | after the holder of an email is verified nobody holds a usable OTP for that email |
| AuthService.PublicView | backend/services/authService.js:98-104 | the returned user is the id, name, email and verified flag of the stored user |
| AuthService.RegisterIff | backend/services/authService.js:73-107 | registration succeeds exactly when no user has the email and no user has the new key or secret; a known email gives 400 and no change; success appends the new unverified user and returns it with its lower-cased email |
| AuthService.Login | backend/services/authService.js:109-134 | login succeeds exactly when the email's user exists and the password matches; both failures give the same 401 "Invalid email or password"; the token is signed over the user's id and email |
| AuthService.LoginAfterRegister | backend/services/authService.js:73-134 | a user just registered can log in with the same password and receives the same session |
| AuthService.SendOtp | backend/services/authService.js:13-52 | the method's answer and new users are those of the send-OTP rule, and the store stays valid |
| AuthService.VerifyOtp | backend/services/authService.js:54-71 | the method's answer and new users are those of the verify rule, and the store stays valid |
| AuthService.Register | backend/services/authService.js:73-107 | the method's answer and new users are those of the register rule, and the store stays valid |
| UserService.GetUserProfile | backend/services/userService.js:3-13 | the profile is the id, name, email, status, verified flag and creation time, and nothing else |
| UserService.GetDetailedProfile | backend/services/userService.js:15-27 | the detailed profile adds the API key, the webhook secret and the callback URL |
| UserService.ProfileHidesSecrets | backend/services/userService.js:3-27 | users that differ only in key, secret, callback URL or other fields have the same plain profile, and the detailed profile is the plain one plus those three |
| UserService.ProfileUpdate | backend/services/userService.js:29-34 | a non-empty name replaces the name; any callback URL supplied, "" included, replaces the callback URL; nothing else changes |
| UserService.UpdateProfileSaves | backend/services/userService.js:29-37 | the update always saves, changes only this user and keeps the store valid |
| UserService.CallbackUrlGatesWebhooks | backend/services/userService.js:33 | after an update with a callback URL the user is sent webhooks exactly when that URL is non-empty |
| UserService.SaveWithNewKey | backend/services/userService.js:39-49 | saving a user with a new key or secret succeeds exactly when no other user holds it, and then replaces only that user and keeps the store valid |
| UserService.RotateApiKeyIff | backend/services/userService.js:39-43 | the new key is stored and returned exactly when no other user holds it; only the key changes; afterwards nobody holds the old key; a refused save changes nothing |
| UserService.RotateWebhookSecretIff | backend/services/userService.js:45-49 | the new secret is stored and returned exactly when no other user holds it; only the secret changes; a refused save changes nothing |
| UserService.OldKeyGone | backend/services/userService.js:39-43 | once a user's key is replaced nobody holds the old key |
| UserService.UpdateProfile | backend/services/userService.js:29-37 | the method's answer and new users are those of the update rule, and the store stays valid |
| UserService.GenerateNewApiKey | backend/services/userService.js:39-43 | the method's answer and new users are those of the key rotation rule, and the store stays valid |
| UserService.GenerateNewWebhookSecret | backend/services/userService.js:45-49 | the method's answer and new users are those of the secret rotation rule, and the store stays valid |
| AuthMiddleware.SecondField | backend/middleware/authMiddleware.js:14 | `split(" ")[1]` is undefined exactly when the header has no space, and otherwise has no space |
| AuthMiddleware.ExtractToken | backend/middleware/authMiddleware.js:10-19 | a header starting with "Bearer" gives its second field and the cookie is ignored; otherwise the cookie token, when non-empty |
| AuthMiddleware.BearerTokenRoundTrip | backend/middleware/authMiddleware.js:10-15 | "Bearer t" gives t whatever cookie is sent |
| AuthMiddleware.BareBearerIgnoresCookie | backend/middleware/authMiddleware.js:10-23 | a bare "Bearer" header gives 401 "Authentication required" even with a cookie |
| AuthMiddleware.IdentifyUser | backend/middleware/authMiddleware.js:21-35 | a user is identified exactly when the token is present, verifies, and names a stored user; each failure is a 401 |
| AuthMiddleware.Authenticate | backend/middleware/authMiddleware.js:5-52 | an admitted user is stored, active and verified |
| AuthMiddleware.AuthenticateUnverified | backend/middleware/authMiddleware.js:55-87 | an admitted user is stored, with no status or verification check |
| AuthMiddleware.StrictRefinesLenient | backend/middleware/authMiddleware.js:37-45 | the strict gate refuses whatever the lenient one refuses with the same error; of what the lenient one admits it refuses a blocked user with 403 "Account is blocked" before checking verification, and an active unverified one with 403 "Account not verified" |
| AuthMiddleware.AuthenticateIff | backend/middleware/authMiddleware.js:5-52 | the strict gate admits exactly an identified active verified user, and otherwise answers 401 or 403 |
| AuthMiddleware.ErrorMiddleware | backend/middleware/authMiddleware.js:89-96 | the response carries the error's message and its status code, or 500 when that is missing or 0 |
| AuthMiddleware.GateErrorsKeepTheirStatus | backend/middleware/authMiddleware.js:89-96 | every refusal of the gate reaches the client as 401 or 403 |
| ApiKeyMiddleware.FieldAfterSpace | backend/middleware/apiKeyMiddleware.js:10 | the field after the first space contains no space |
| ApiKeyMiddleware.KeyOf | backend/middleware/apiKeyMiddleware.js:6-11 | the key is a non-empty `x-api-key`, else a non-empty `api-key`; only when neither is given is the field after "Bearer " used |
| ApiKeyMiddleware.BearerKeyRoundTrip | backend/middleware/apiKeyMiddleware.js:9-11 | with no key header, "Bearer k" gives k |
| ApiKeyMiddleware.FindActiveByKey | backend/middleware/apiKeyMiddleware.js:17 | the lookup gives a stored active user with that key, or nothing when no active user has it |
| ApiKeyMiddleware.AuthenticateKey | backend/middleware/apiKeyMiddleware.js:4-32 | an admitted user is stored, active, verified and holds the presented key; every refusal is 401 or 403 |
| ApiKeyMiddleware.AuthenticateKeyCases | backend/middleware/apiKeyMiddleware.js:13-28 | given the key's holder: a blocked holder gives 401 "Invalid or inactive API Key", an active unverified one 403, and an active verified one is admitted |
| ApiKeyMiddleware.UnknownKeyRefused | backend/middleware/apiKeyMiddleware.js:17-21 | a key nobody holds gives 401 "Invalid or inactive API Key" |
| ApiKeyMiddleware.RotatedKeyRevoked | backend/middleware/apiKeyMiddleware.js:17-21 | after a successful rotation the old key gives 401 "Invalid or inactive API Key" |
| WebhookService.BuildPayload | backend/services/webhookService.js:24-31 | the payload has the order's status, clientRef as `ref` and amount; `utr` is the order's utr when truthy, else null; `txnTime` is the order's txnTime, else its `updatedAt`; `provider` is the provider's name when truthy, else "Unknown" |
| WebhookService.Signature | backend/services/webhookService.js:34-36 | there is no signature exactly when the user has no webhook secret; otherwise it is the HMAC under the secret of the serialised payload |
| WebhookService.AfterSuccess | backend/services/webhookService.js:58-61 | a 2xx response marks the log `success` with one more attempt and changes nothing else |
| WebhookService.AfterFailure | backend/services/webhookService.js:62-81 | a failed response adds one attempt; up to 4 attempts the log is `retry` with the next try after 5 min, 30 min, 12 h or 24 h; past that it is `failed` with no next try; nothing else changes |
| WebhookService.RetryIntervalsIncrease | backend/services/webhookService.js:66-71 | each retry waits longer than the one before |
| WebhookService.FailureSchedule | backend/services/webhookService.js:62-81 | from a fresh log, n failed responses leave n attempts: `retry` with the n-th interval after the last failure for n up to 4, `failed` with no next try after that |
| WebhookService.FailuresFrom | backend/services/webhookService.js:62-81 | each failed response in a series is one more application of the failure step |
| WebhookService.NoCallbackNoLog | backend/services/webhookService.js:20-21 | with no user or no callback URL nothing is sent, nothing is returned and no log is created |
| WebhookService.EveryCallAppendsOneLog | backend/services/webhookService.js:38-55 | when `CallbackLog.create` is rejected nothing is sent, stored or returned; otherwise the call appends exactly one new log for that user, order, callback URL and payload, never looking up an existing one, and posts the serialised payload to that URL |
| WebhookService.SignatureCoversBody | backend/services/webhookService.js:34-55 | the signature header is the HMAC under the user's secret of exactly the body sent; without a secret the header is the text "null" |
| WebhookService.NullHeaderIsNotASignature | backend/services/webhookService.js:7-12 | a 64-digit hex signature never equals the "null" header |
| WebhookService.FirstDeliveryOutcome | backend/services/webhookService.js:48-87 | the new log ends `success` with 1 attempt on a 2xx; `retry` with 1 attempt and the next try 5 minutes on after a failure; `pending` with 0 attempts and nothing returned when the request throws or when the `log.save()` after either answer is rejected |
| WebhookService.SendWebhookKeepsValid | backend/services/webhookService.js:17-88 | the log store stays valid |
| WebhookService.SendWebhook | backend/services/webhookService.js:17-88 | the method's request, return value and new logs are those of the webhook rule, including a rejected `create` or `save` swallowed by the `catch`, and the store stays valid |
| WebhookController.PopulateOrder | backend/controllers/webhookController.js:20 | populating `order` finds the order of that id exactly when there is one |
| WebhookController.MatchingLogs | backend/controllers/webhookController.js:14-21 | the user's logs with the requested status, as many as the filter counts |
| WebhookController.GetWebhookLogs | backend/controllers/webhookController.js:10-39 | refused (a 500) exactly when the skip is negative; otherwise at most as many entries as the limit's absolute value (any number for limit 0), each a log of the user with the requested status and its populated order; `total` counts the matching logs, `page` is the requested page and `pages` is `Math.ceil(total / limit)` as a JavaScript number |
| WebhookController.UnboundedAndRefusedQueries | backend/controllers/webhookController.js:12-31 | limit 0 lists every matching log with `pages` `Infinity`, or `NaN` when none matches; page 0 or less with a positive limit is refused |
| WebhookController.EmptyStatusListsAll | backend/controllers/webhookController.js:15-17 | an empty status filter lists the same as no filter |
| WebhookController.FindOwnedLog | backend/controllers/webhookController.js:48-51 | the lookup gives the caller's log with that id, or nothing when the caller has none |
| WebhookController.RetryGuard | backend/controllers/webhookController.js:53-67 | only the caller's own log in status `retry` passes the guard |
| WebhookController.RetryWebhookLog | backend/controllers/webhookController.js:46-78 | the request reaches the manual retry exactly when the guard passes, and its answer is what the manual retry returns; otherwise the guard's error |
| WebhookController.RetryGuardCases | backend/controllers/webhookController.js:48-69 | another user's log gives 404; the caller's log gives 400 with its own message when `success`, `pending` or `failed`, and passes only when `retry` |
| WebhookController.RefusedRetryIgnoresManualRetry | backend/controllers/webhookController.js:53-69 | a refused request does not depend on what the manual retry would do |
| OrderService.FormatOrderId | backend/services/orderService.js:20-22 | the id is "PAYPING" and then the number's decimal digits, zero-padded to at least 6 and never truncated, and those digits read back as the number |
| OrderService.FormatOrderIdInjective | backend/services/orderService.js:20-22 | different numbers give different ids |
| OrderService.FormatOrderIdLength | backend/services/orderService.js:20-22 | numbers below a million give 13-character ids, seven-digit numbers 14-character ids |
| OrderService.CounterStore.constructor | backend/services/orderService.js:11-18 | the counters start empty |
| OrderService.CounterStore.GetNextSequence | backend/services/orderService.js:11-18 | the result is 1 on the first use of a key and one more than the previous value afterwards, and it is what the counter now holds |
| OrderService.UpiLink | backend/services/orderService.js:56-57 | the link is the frontend URL (the local default when unset) followed by "/payment/" and the internal reference |
| OrderService.FinalClientRef | backend/services/orderService.js:42 | the stored reference is the client's when non-empty, else the internal reference |
| OrderService.DraftOrder | backend/services/orderService.js:50-69 | the stored order is pending, belongs to the user and the default account, carries the formatted id, the final client reference, the amount, the note, the link and the UPI intent, and was created now |
| OrderService.CreateOrderNeedsDefault | backend/services/orderService.js:28-35 | without a default provider account the answer is 400, no order is stored and no number is drawn |
| OrderService.CreateOrderDuplicateRef | backend/services/orderService.js:38-48 | a reference the user already used gives 400 naming it, no order is stored, but the sequence number is consumed |
| OrderService.NextIdIsFresh | backend/services/orderService.js:11-22 | while every stored id came from the counter, the next number's id is not yet stored |
| OrderService.IssueKeepsIdsIssued | backend/services/orderService.js:11-22 | storing an order under the next number's id keeps every stored id issued by the counter |
| OrderService.InsertIssuedOrder | backend/services/orderService.js:38-69 | an order under the next number's id with a reference the user has not used is inserted, the store stays valid and every id stays issued |
| OrderService.CreateOrderStores | backend/services/orderService.js:24-77 | a request with a default account and an unused reference stores exactly one new order, advances the counter by one, returns the amount, note, link and UPI intent, and keeps the store valid |
| OrderService.CreateOrderInserts | backend/services/orderService.js:24-77 | a request that passes both checks and whose order the store accepts appends that order and returns its details |
| OrderService.CreateOrder | backend/services/orderService.js:24-77 | the method's answer, new orders and new counter are those of the create rule, and the store stays valid |
| OrderService.FindAccount | backend/services/orderService.js:82-85 | populating the provider account gives the account of that id, or nothing when it is gone |
| OrderService.BuildStatusResponse | backend/services/orderService.js:91-101 | the response has the order's status, internal reference, amount, client reference and txnTime, the utr when truthy else null, and the provider's name; a missing provider account throws a TypeError |
| OrderService.Expired | backend/services/orderService.js:111-113 | the expired order is `failed` with the provider response cleared, and nothing else changes but `updatedAt` |
| OrderService.Settled | backend/services/orderService.js:132-136 | the settled order is `success` with the provider's utr and raw response and its txnTime (else now), and nothing else changes but `updatedAt` |
| OrderService.CheckUnknownOrder | backend/services/orderService.js:80-89 | an unknown reference gives 404 "Order not found", changes nothing and sends no webhook |
| OrderService.CheckTerminalUnchanged | backend/services/orderService.js:103-106 | a `success` or `failed` order is reported as stored, with no change and no webhook |
| OrderService.RefLocatesOrder | backend/models/PaymentOrder.js:17-21 | in a valid store an order's internal reference finds that order |
| OrderService.CheckExpiresStaleOrder | backend/services/orderService.js:108-119 | a pending order created more than 5 minutes ago becomes `failed` with its provider response cleared, exactly one webhook is sent for the saved order, and the provider's answer makes no difference |
| OrderService.CheckSettlesOnSuccess | backend/services/orderService.js:121-142 | a fresh pending order whose Paytm account reports TXN_SUCCESS is settled with the provider's data, one webhook is sent and the response says "success" |
| OrderService.CheckTransitions | backend/services/orderService.js:79-143 | a check changes at most the order with that reference, never a terminal order, only from `pending`; a webhook is sent exactly when a status changed; without one nothing changes; the store stays valid |
| OrderService.PendingCheckShape | backend/services/orderService.js:108-142 | a check of a pending order either changes nothing and sends nothing, or replaces only that order by a `failed` or `success` one with the same identity and sends a webhook |
| OrderService.SaveAndNotify | backend/services/orderService.js:113-116 | the order is saved in its place, then exactly one webhook is sent for the saved order |
| OrderService.CheckOrderStatus | backend/services/orderService.js:79-143 | the method's answer, new orders and webhook run are those of the check rule, and both stores stay valid |
| OrderService.CheckPending | backend/services/orderService.js:108-142 | from a pending order the method's answer, new orders and webhook run are those of the pending branch of the check rule |
| OrderService.Matching | backend/services/orderService.js:163-171 | the candidate list holds exactly the user's orders with the requested status, newest first, as many as `countDocuments` counts |
| OrderService.FetchOrders | backend/services/orderService.js:161-185 | refused (a 500) exactly when the skip is negative; otherwise at most as many summaries as the limit's absolute value (any number for limit 0), each of a matching order; `total` counts the matching orders, `page` is the requested page and `pages` is `Math.ceil(total / limit)` as a JavaScript number |
| OrderService.EveryListedOrderOnSomePage | backend/services/orderService.js:161-185 | with a positive limit, every matching order appears on some page numbered from 1 to `pages` |
| OrderService.FetchedSummaries | backend/services/orderService.js:169-173 | the listing succeeds exactly when the window exists, and is then the summaries of the matching orders' window, in order |
| OrderService.ZeroLimitListsAll | backend/services/orderService.js:169-182 | limit 0 lists every matching order, newest first, on any page, with `pages` `Infinity`, or `NaN` when none matches |
| OrderService.NonPositivePageRefused | backend/services/orderService.js:172 | page 0 or less with a positive limit is refused with an error that has no status code, so the client gets a 500 |
| OrderCleanup.StaleIndices | backend/cron/orderCleanup.js:8-14 | the query finds exactly the positions of the orders that are pending and created strictly before now minus ten minutes, each once and in store order |
| OrderCleanup.Swept | backend/cron/orderCleanup.js:26-27 | the saved order is `failed`, stamped with `updatedAt`, keeps its provider response and is otherwise unchanged |
| OrderCleanup.SweepStep | backend/cron/orderCleanup.js:24-32 | one pass saves that order as swept and adds at most one log, keeping the earlier logs and numbering the new one next |
| OrderCleanup.SweepSteps | backend/cron/orderCleanup.js:24-32 | after n passes the orders are the first n sweeps, at most n logs were added and the earlier logs are kept |
| OrderCleanup.SweptOrders | backend/cron/orderCleanup.js:24-32 | the sweeps keep the number of orders |
| OrderCleanup.SweptOrdersAre | backend/cron/orderCleanup.js:24-32 | after n sweeps exactly the first n found orders are swept, each once, and every other order is as it was |
| OrderCleanup.SweepStepsOrders | backend/cron/orderCleanup.js:24-32 | after n passes of the loop exactly the first n found orders are swept and every other order is as it was |
| OrderCleanup.Processed | backend/cron/orderCleanup.js:24-36 | the tick gets through every found order, or stops at the one whose save throws |
| OrderCleanup.CleanupExpiresExactlyStale | backend/cron/orderCleanup.js:8-32 | a tick without errors fails exactly the stale orders, keeping their provider response, leaves every other order as it was, and leaves no stale order behind |
| OrderCleanup.CleanupAbortedTick | backend/cron/orderCleanup.js:24-36 | when the k-th save throws, the first k found orders are swept, the later ones and every order that was not stale are unchanged |
| OrderCleanup.ExpireAndNotify | backend/cron/orderCleanup.js:26-31 | the loop body saves the order as `failed` and then sends one webhook for the saved order, as one sweep step |
| OrderCleanup.NextSweepStep | backend/cron/orderCleanup.js:24-32 | before a pass its order is still as the query found it, and the pass extends the sweep by one step |
| OrderCleanup.SweepNext | backend/cron/orderCleanup.js:24-32 | one pass of the loop takes the stores from n to n + 1 sweep steps |
| OrderCleanup.Documents | backend/cron/orderCleanup.js:11-19 | the query's documents are the stored orders at the found positions, in order |
| OrderCleanup.CleanupTick | backend/cron/orderCleanup.js:6-37 | the tick processes as many orders as `Processed` says, and its new orders and logs are those of the cleanup rule |
| DashboardStats.AgreeingFilters | backend/services/orderService.js:211-214 | filters that agree on every order give the same count and amount sum |
| DashboardStats.SumOfNothing | backend/services/orderService.js:213 | a filter matching no order sums to 0 |
| DashboardStats.GroupByStatus | backend/services/orderService.js:211-214 | the grouping is a correct aggregation: one row per status that occurs among the user's orders, with its count and amount sum |
| DashboardStats.GroupsAggregate | backend/services/orderService.js:211-214 | dropping the empty rows of the per-status totals gives a correct aggregation |
| DashboardStats.LastGroup | backend/services/orderService.js:223-232 | the row `forEach` leaves in effect for a status is a row of that status, and there is none only when no row has it |
| DashboardStats.TallyStatus | backend/services/orderService.js:216-232 | the `forEach` loop gives the totals read off the rows, with 0 for a status that has no row |
| DashboardStats.StatsOfAggregation | backend/services/orderService.js:211-232 | for any row order, `totalCollection` is the sum of the user's successful amounts and the three counts are the user's order counts per status |
| DashboardStats.UniqueDays | backend/services/orderService.js:248-249 | the group keys are the days that occur, each once |
| DashboardStats.GroupByDay | backend/services/orderService.js:239-255 | one row for each day on which the user has a successful order in the window, holding that day's count and amount sum |
| DashboardStats.FillChart | backend/services/orderService.js:258-270 | the loop gives seven entries, oldest first, the last one for today, each the day's row or zeros |
| DashboardStats.PointForAggregation | backend/services/orderService.js:264-269 | a day's entry holds the amount and count of the user's successful orders in the window on that day, and 0 when there are none |
| DashboardStats.WindowCoversChart | backend/services/orderService.js:235-244 | the window from midnight seven days ago holds every order of the seven charted days |
| DashboardStats.ChartOfAggregation | backend/services/orderService.js:235-270 | each chart entry is the amount and count of the user's successful orders created that day |
| DashboardStats.WeekPoints | backend/services/orderService.js:258-262 | the week has seven consecutive days ending today |
| DashboardStats.ChartOfOrders | backend/services/orderService.js:235-270 | the chart filled from the week's aggregation is the week of per-day successful totals |
| DashboardStats.StatusStats | backend/services/orderService.js:210-232 | the stats are the user's successful total and the user's order count per status |
| DashboardStats.WeekChart | backend/services/orderService.js:234-270 | the chart is the week of per-day successful totals ending today |
| DashboardStats.GetDashboardStats | backend/services/orderService.js:207-283 | the stats, the seven-day chart, and the user's default account with its provider, or none when there is no default account |
| ListMerge.Keys | frontend/src/pages/PaymentOrders.jsx:71 | the keys of a list, position by position |
| ListMerge.Unseen | frontend/src/pages/PaymentOrders.jsx:71 | exactly the fetched entries whose key is not among the shown ones are kept, never more than were fetched |
| ListMerge.MergePage | frontend/src/pages/PaymentOrders.jsx:68-73 | a replacing fetch or page 1 shows just the fetched page; any other page appends the unseen part of it |
| ListMerge.AppendKeepsPrefix | frontend/src/pages/WebhookLogs.jsx:107-113 | an appended page keeps the shown list as a prefix, shows every fetched key, and adds only entries with new keys |
| ListMerge.MergeKeepsDistinct | frontend/src/pages/PaymentOrders.jsx:68-73 | when the shown list and the fetched page each have distinct keys, so does the merged list |
| ListMerge.UnseenDistinct | frontend/src/pages/PaymentOrders.jsx:71 | filtering a page with distinct keys keeps them distinct |
| ListMerge.DistinctTail | frontend/src/pages/PaymentOrders.jsx:71 | the tail of a list with distinct keys has distinct keys, none equal to the head's |
| ListMerge.DistinctCons | frontend/src/pages/PaymentOrders.jsx:71 | putting in front an entry whose key the rest lacks keeps the keys distinct |
| ListMerge.UnseenAllNew | frontend/src/pages/PaymentOrders.jsx:71 | a page whose keys are all new is appended whole |
| ListMerge.PageIsSlice | backend/services/orderService.js:161-185 | page n is the slice of the listing between (n - 1) * limit and n * limit, both cut at its length |
| ListMerge.LaterKeysAreNew | frontend/src/pages/PaymentOrders.jsx:71 | in a listing with distinct keys, entries past position m have keys not among the first m |
| ListMerge.ScrollShowsPrefix | frontend/src/pages/PaymentOrders.jsx:58-96 | after the initial load and n - 1 scroll fetches of an unchanged listing, the page shows exactly its first n * limit entries, in order and each once |
| ListMerge.ScrollStep | frontend/src/pages/PaymentOrders.jsx:68-73 | appending the next page to a shown prefix gives the longer prefix |
| ListMerge.AdjacentSlices | frontend/src/pages/PaymentOrders.jsx:72 | adjacent slices join into the prefix |
| ListMerge.ScrollToEndShowsAll | frontend/src/pages/PaymentOrders.jsx:75 | once the last page is loaded (`hasMore` false) every entry of the listing is shown |
| ListMerge.FirstPageShows | frontend/src/pages/PaymentOrders.jsx:87-89 | the initial load shows the first page, whatever was shown before |
| ListMerge.NextPageExtends | frontend/src/pages/PaymentOrders.jsx:91-96 | a scroll fetch of the next page of an unchanged listing with distinct keys shows exactly one more page |
| ListMerge.AtEndAllShown | frontend/src/pages/WebhookLogs.jsx:115 | once `hasMore` is false the whole listing is shown |
| ListMerge.FilterKeepsDistinct | backend/controllers/webhookController.js:14-17 | selecting entries keeps the keys distinct |
| ListMerge.ReverseKeepsDistinct | backend/services/orderService.js:161-185 | reversing (newest first) keeps the keys distinct |
| ListMerge.ReplaceByKey | frontend/src/pages/WebhookLogs.jsx:154-156 | the list keeps its length; an entry with the updated key becomes the updated one and every other entry stays |
| ListMerge.ReplaceByKeyKeepsKeys | frontend/src/pages/WebhookLogs.jsx:154-156 | replacing keeps the keys in place, so distinct keys stay distinct, and the updated entry is shown when its key was |
| PaymentOrdersPage.Listing | backend/services/orderService.js:161-185 | the listing has one entry per order of the user |
| PaymentOrdersPage.ServerAnswersPage | frontend/src/pages/PaymentOrders.jsx:66 | the list endpoint answers the page's request with exactly page n of the user's listing |
| PaymentOrdersPage.ListingHasDistinctIds | frontend/src/pages/PaymentOrders.jsx:71 | order ids are distinct in the store, so they are distinct in the listing |
| PaymentOrdersPage.OrdersPage.constructor | frontend/src/pages/PaymentOrders.jsx:26-30 | the page starts empty, loading, at page 1, with `hasMore` set |
| PaymentOrdersPage.OrdersPage.FetchOrders | frontend/src/pages/PaymentOrders.jsx:58-84 | an answer merges the page into the list and sets `hasMore` from its pagination; a failed request changes neither; both loading flags end false |
| PaymentOrdersPage.OrdersPage.InitialLoad | frontend/src/pages/PaymentOrders.jsx:87-89 | the initial load shows just the answered page, and page 1 of a listing when answered with it |
| PaymentOrdersPage.OrdersPage.ReachLastRow | frontend/src/pages/PaymentOrders.jsx:47-56 | the last row advances the page only when more is left and nothing is loading; the fetch then merges the next page, which extends what is shown by one page |
| PaymentOrdersPage.ScrolledToEndShowsAllOrders | frontend/src/pages/PaymentOrders.jsx:75 | scrolling to the end of an unchanged store shows every order of the user exactly once, newest first |
| PaymentOrdersPage.BlankAmountPasses | frontend/src/pages/PaymentOrders.jsx:114 | a blank amount, which `isNaN` reads as 0 but `parseFloat` cannot parse, passes the check |
| PaymentOrdersPage.PostedBody | frontend/src/pages/PaymentOrders.jsx:121-125 | the posted body has the parsed amount and the note, and a reference exactly when one was typed |
| PaymentOrdersPage.AcceptedFormIsValidBody | frontend/src/pages/PaymentOrders.jsx:114-125 | an amount accepted by the corrected check is positive and its posted body passes the dashboard schema |
| PaymentOrdersPage.RefusedAmounts | frontend/src/pages/PaymentOrders.jsx:114 | the check refuses exactly an empty, non-numeric or non-positive amount, and the corrected check is stricter |
| PaymentOrdersPage.ShortRef | frontend/src/pages/PaymentOrders.jsx:561 | a reference of at most 20 characters is shown whole; a longer one is cut to its first 20 and followed by "..." |
| PaymentOrdersPage.ShortRefDistinguishes | frontend/src/pages/PaymentOrders.jsx:561 | two short references are shown alike exactly when equal; two long ones exactly when their first 20 characters agree |
| WebhookLogsPage.LogsRequest | frontend/src/pages/WebhookLogs.jsx:100-103 | the query asks for the page with limit 20, and has a `status` exactly when the filter is not "all" |
| WebhookLogsPage.FilterSelects | frontend/src/pages/WebhookLogs.jsx:100-103 | under "all" the server lists every log of the user; under a status name, exactly the user's logs in that status |
| WebhookLogsPage.Listing | backend/controllers/webhookController.js:14-23 | every listed entry is a stored log that the filter selects |
| WebhookLogsPage.ServerAnswersPage | frontend/src/pages/WebhookLogs.jsx:105 | the log endpoint answers the page's request with exactly page n of the filtered listing |
| WebhookLogsPage.ListingHasDistinctIds | frontend/src/pages/WebhookLogs.jsx:110 | log ids are distinct in the store, so they are distinct in every listing |
| WebhookLogsPage.ConfigDistinguishesStatuses | frontend/src/pages/WebhookLogs.jsx:34-63 | each log status has its own label and icon, and every other value is shown as pending |
| WebhookLogsPage.RetryButtonMatchesGuard | frontend/src/pages/WebhookLogs.jsx:476 | the button is shown exactly for the user's logs that the server's retry guard lets through |
| WebhookLogsPage.LogsPage.constructor | frontend/src/pages/WebhookLogs.jsx:66-75 | the page starts empty, loading, at page 1, with `hasMore` set, the filter "all", and no log selected |
| WebhookLogsPage.LogsPage.FetchLogs | frontend/src/pages/WebhookLogs.jsx:92-124 | the request is the filter's query; an answer merges the page into the list and sets `hasMore`; a failed request changes neither; both loading flags end false |
| WebhookLogsPage.LogsPage.ChangeFilter | frontend/src/pages/WebhookLogs.jsx:126-130 | a new filter resets to page 1, empties the list and shows just the answered first page of the new listing |
| WebhookLogsPage.LogsPage.ReachLastRow | frontend/src/pages/WebhookLogs.jsx:78-90 | the last row advances the page only when more is left and nothing is loading; the fetch then merges the next page, which extends what is shown by one page |
| WebhookLogsPage.LogsPage.HandleRetryNow | frontend/src/pages/WebhookLogs.jsx:147-170 | an answer becomes the selected log and replaces the entry with its id; a failed request changes neither; `retrying` ends false |
| WebhookLogsPage.RetryReplacesOnlyItsEntry | frontend/src/pages/WebhookLogs.jsx:154-156 | a retry replaces only the entry with the answered id and keeps every key in place |
| WebhookLogsPage.ScrolledToEndShowsAllLogs | frontend/src/pages/WebhookLogs.jsx:115 | scrolling to the end of an unchanged store shows every log the filter selects exactly once, newest first |

## Left out

- Network I/O: the merchant webhook POST and the Paytm status fetch. Their responses or exceptions are inputs, and so is whether the two writes of a webhook's log are accepted.
- Cryptography and encodings: HMAC-SHA256, bcrypt hashing and comparison, JWT signing and verification.
- JSON and URL encoding: `JSON.stringify` and `encodeURIComponent`.
- Validation and parsing libraries: zod's email and URL checks and JavaScript number parsing. All of these, like the cryptography and encodings above, are uninterpreted parameters, so no property of them is assumed.
- `crypto.randomBytes` and `Math.random`: the random bytes or number are inputs.
- Sending OTP email (`backend/utils/sendEmail.js`): it is the `deliver` outcome parameter.
- `backend/utils/sendEmail.js`, `backend/utils/Counter.js`, `backend/utils/ErrorHandler.js` and `backend/utils/jwt.js` are not part of this model beyond that role.
- The cron schedule (every two minutes) and all concurrency. There is no modelled race between the sweep and the on-demand check.
- The un-awaited background `sendWebhook` calls in `checkOrderStatus`: each runs to completion as a sequential step.
- `manualRetryWebhook` and the retry scheduler are not part of this model. The manual retry is an abstract step of the log store, and only its guard chain is modelled.
- Mongo internals: query planning, indexes, aggregation, `populate` and sorting. Collections are sequences in insertion order, and newest first is the reverse of that order.
- Unique indexes are record invariants that saves check, not storage mechanics.
- Floating-point amounts become exact reals, and `toFixed` display formatting is left out.
- Dates and time zones: each date is an integer day number, and `toISOString` and `setHours` formatting are left out.
- `getPublicOrderDetails` and `getOrderById`: these single-document lookups with field projections are not modelled.
- Everything the two list pages render: UI, toasts, the `IntersectionObserver`, and the intermediate loading flags.
- React effects and state batching in the two list pages: explicit method calls, with the server's answer or failure as an input.
- The `STATUS_CONFIG[status] || STATUS_CONFIG.pending` lookup treats a status string naming an `Object.prototype` member (such as "constructor") as truthy, and the model does not. Such strings are never stored, because the log schema's enum excludes them.
- The unused fields `resetPasswordOTP` and `lastLoginAt`, and all console logging.
- Text.ToLower: folds only the ASCII letters A-Z. JavaScript's `toLowerCase`, which the `lowercase: true` setter of `backend/models/User.js:14` also uses, folds all of Unicode ("É" becomes "é"). So for such addresses the email lookups of the auth service and the unique-email clash check differ from the source.
- PaymentOrdersPage.ShortRef: counts Unicode scalar values, while `.length` and `substring` count UTF-16 code units. A reference of 19 letters plus one astral character such as an emoji is 21 units long, so the page cuts it and the model shows it whole. The zod `.min`, `.max` and `.length` bounds of the schemas are counted the same way, in scalar values and not in code units.
- Paging.PageParam: `page` and `limit` are modelled as integers or absent. A non-numeric, fractional or empty query string, which `Number` turns into NaN, a fraction or 0, is not modelled.
- Paging.Window: a negative limit returns at most the limit's absolute value of documents, and the database driver's own cap on a single batch is not modelled.
- The database's refusal of a negative skip is a fixed message. The model relies only on the refusal having no status code, so the error middleware answers 500.
- ProviderAccountService.UpdateAccount: the update carries only the account schema's own fields (`user`, `provider`, `merchantId`, `vpa`, `isDefault`), because Mongoose's strict mode drops any other key. `validateMiddleware` does not replace `req.body` with the parsed value, so `user` and `provider` can arrive.

## Findings

| source | as written | input that shows it | evidently intended | confidence | as-written member | corrected member |
|---|---|---|---|---|---|---|
| backend/services/providerAccountService.js:49-54 | un-defaulting is refused only when the user has at most one account, whatever the target's state | a user with two accounts, `isDefault: false` on the default one | the user keeps exactly one default account | not executed | ProviderAccountService.UndefaultLeavesNoDefault | ProviderAccountService.CorrectedUpdateKeepsDefault |
| backend/services/providerAccountService.js:57-72 | the user's other accounts lose default before the target is looked up | `isDefault: true` with an id the user does not own: 404, yet the old default is cleared | a failed update changes nothing | not executed | ProviderAccountService.SetDefaultOnUnknownIdClearsDefault | ProviderAccountService.CorrectedUpdateKeepsDefault |
| backend/services/providerAccountService.js:64-68 | every key of the request body is copied onto the account, including `user` | a body with `user` set to another user's id | the account keeps its owner | not executed | ProviderAccountService.UpdateCanReassignOwner | ProviderAccountService.CorrectedUpdateKeepsDefault |
| frontend/src/pages/PaymentOrders.jsx:114 | `isNaN(amount)` reads a blank amount as 0, so the check passes | the amount " " (posted as `parseFloat(" ")`, i.e. NaN); the form's `<Input type="number" required>` (PaymentOrders.jsx:199-209) sanitises " " to "", so only a caller other than this form, such as a direct call of `handleCreateOrder` with that state, can reach it | only an amount that `parseFloat` reads as a positive number is posted | not executed | PaymentOrdersPage.BlankAmountPasses | PaymentOrdersPage.AcceptedFormIsValidBody |
