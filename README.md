# User accounts and sessions of a media-sharing backend, in Dafny

This project models the user controller of an Express/MongoDB backend
(`src/controllers/user.controller.js`). It covers two parts of that controller:

- **Account and session handlers.** These are registration, login, logout,
  refresh-token rotation, password change, and the e-mail and full-name
  updates. They are methods of a `Store` class (`sessions.dfy`). The class
  holds the users collection as a map from `_id` to `User`, the subscriptions
  collection as a sequence, and the counters that hand out document ids and
  distinct tokens. Each handler returns `Ok(response)` or `Err(status)`, where
  `status` is the code of the `ApiError` the handler throws (400, 401, 403,
  404, 409 or 500).
- **Read-side views.** These are the channel profile (subscriber counts and
  the viewer's subscription flag) and the watch history with each video's
  owner projected. They are pure functions over the users map and the
  subscriptions sequence (`aggregation.dfy`).

A user's session state is the single `refreshToken` slot of its document:

- login fills the slot;
- logout empties it;
- refresh accepts a presented token only when it equals the slot, then
  overwrites the slot with a token never issued before.

The contracts of `LoginUser`, `LogoutUser` and `RefreshAccessToken` state the
consequence through `RefreshGuard`, the pure form of the refresh handler's
checks: a rotated or logged-out token is refused with 401. The client methods
in `scenarios.dfy` derive request sequences from those contracts alone.

Modules: `Wrappers` (Option), `ApiErrors` (statuses and results), `Text`
(`toLowerCase`, the `trim() === ""` test, truthiness), `Accounts` (documents,
tokens, password digests, collection scans), `Aggregation` (the two views),
`Sessions` (the store and its handlers), `Scenarios` (request sequences).

Collaborators that are not part of this model appear as parameters or
abstractions:

- **JWT signing.** A `Token` records which secret signed it, the user id in
  its payload and a serial. The store's `nextSerial` counter stands for
  whatever makes two signed tokens differ, so the model takes every issued
  token to be distinct (see "Left out" for when that fails). The ghost set
  `issued` records them. `jwt.verify` with
  the refresh secret is modelled by the token's kind plus a caller-supplied
  `unexpired` flag, since expiry depends on the clock.
- **bcrypt.** A `Digest` is an injective image of the plaintext, and
  `PasswordMatches` compares against it.
- **File uploads.** The uploader's results for the avatar and the cover are
  parameters of `RegisterUser`.
- **`unlink`.** Each call on a staged path is appended to the ghost log
  `unlinked`.
- **Natural order.** Ids are allocated in increasing order, so the
  collection's natural order is id order. `findOne` is therefore the least
  matching id.

## Model

| member | source | states |
|---|---|---|
| `Text.Lower` | src/controllers/user.controller.js:72 | `toLowerCase`: same length, no upper-case letter left, every other character unchanged, each letter mapped to its lower-case code |
| `Text.LowerIdempotent` | src/controllers/user.controller.js:305 | lower-casing an already lower-cased name changes nothing, so the stored username matches the lowered request parameter |
| `Accounts.HashedPasswordMatches` | src/controllers/user.controller.js:105 | the password check accepts exactly the plaintext the stored digest was made from (bcrypt's 72-byte limit is under "Left out") |
| `Accounts.PublicIgnoresSecrets` | src/controllers/user.controller.js:75-77 | `.select("-password -refreshToken")`: the returned user is the same whatever the stored password digest and refresh token are |
| `Accounts.Matching` | src/controllers/user.controller.js:96-100 | a scan returns exactly the matching ids below the bound, strictly increasing (natural order) |
| `Accounts.MatchingDependsOnFilterOnly` | src/controllers/user.controller.js:96-100 | two collections that agree on which documents pass a filter give the same scan |
| `Accounts.FindFirst` | src/controllers/user.controller.js:49-51 | `findOne` returns a matching document with no matching document before it, or nothing only when no document matches |
| `Accounts.FindByUsernameOrEmail` | src/controllers/user.controller.js:96-100 | the `$or` lookup returns a user whose username or email equals a supplied field, or nothing only when no user does |
| `Accounts.FindIgnoresOtherFields` | src/controllers/user.controller.js:96-100 | updating a token slot or a password does not change which user a username/email lookup finds |
| `Aggregation.Filter` | src/controllers/user.controller.js:309-323 | a `$lookup` into subscriptions holds exactly the documents that satisfy its join condition |
| `Aggregation.FilterCountsIndices` | src/controllers/user.controller.js:326-331 | `$size` of a lookup equals the number of positions of the subscriptions collection that satisfy its condition |
| `Aggregation.ProfileCounts` | src/controllers/user.controller.js:324-340 | `subcribersCount` counts subscriptions whose channel is the user; `channelsSubscribedToCount` counts those whose subscriber is the user; `isSubscribed` holds iff the pair (viewer, user) is a subscription |
| `Aggregation.ChannelAggregate` | src/controllers/user.controller.js:302-353 | every projected document belongs to a user with the lowered name and carries that user's profile; the result is empty iff no such user exists |
| `Aggregation.GetUserChannelProfile` | src/controllers/user.controller.js:297-362 | as written: 400 without a name; 404 exactly when a user with the lowered name exists; otherwise 200 with no data |
| `Aggregation.GetUserChannelProfileCorrected` | src/controllers/user.controller.js:355-360 | corrected: 400 without a name; 404 exactly when no user has the lowered name; otherwise the profile of a user with that name |
| `Aggregation.ChannelProfileInverted` | src/controllers/user.controller.js:355-357 | for an existing channel the code as written answers 404, while the corrected handler answers with that user's profile |
| `Aggregation.MissingChannelAnsweredEmpty` | src/controllers/user.controller.js:355-360 | for an unknown channel the code as written answers 200 with no data, while the corrected handler answers 404 |
| `Aggregation.HistoryLookup` | src/controllers/user.controller.js:372-406 | the video lookup holds a view of every video whose id is in the history, and only such views, with no more entries than videos |
| `Aggregation.GetWatchHistory` | src/controllers/user.controller.js:364-419 | fails (500) exactly when the user does not exist; otherwise returns exactly the views of the videos in the user's history |
| `Aggregation.LookupShape` | src/controllers/user.controller.js:380-395 | the inner `$lookup` on `_id` holds at most one document; exactly one when the owner exists, and then it is that owner's projection (`_id`, fullName, username, avatar) |
| `Aggregation.OwnerProjection` | src/controllers/user.controller.js:380-402 | `$first` over the owner lookup gives each video's `owner`: one projected user object, not an array, when the owner exists, and absent otherwise |
| `Sessions.RefreshGuard` | src/controllers/user.controller.js:156-171 | a presented token passes iff it is present, signed as a refresh token, unexpired, names an existing user and equals that user's stored token; every failure is 401 |
| `Sessions.ReplacedTokenRejected` | src/controllers/user.controller.js:169-171 | once a user's slot holds anything other than `t` (a newer token, or nothing), `t` is refused with 401 |
| `Sessions.OtherSessionsUnaffected` | src/controllers/user.controller.js:164-171 | changing one user's slot does not change how tokens of other users are judged |
| `Sessions.NewUser` | src/controllers/user.controller.js:66-73 | the created document has the lowered username, the given email and name, a digest of the password, the avatar URL, cover "" when the cover upload gave no URL, no token and an empty history |
| `Sessions.CreateKeepsConsistent` | src/controllers/user.controller.js:66-73 | creating a document with a fresh id and untaken lower-cased keys keeps ids bounded, keys unique and usernames lower-case |
| `Sessions.UpdateKeepsConsistent` | src/controllers/user.controller.js:223-230 | rewriting one document without a username change and with an untaken email keeps the collection consistent |
| `Sessions.Store.GenerateAccessAndRefreshToken` | src/controllers/user.controller.js:10-21 | an unknown id fails with 500 and nothing changes; otherwise a refresh and an access token about the user, neither issued before, and only that user's slot changes, to the new refresh token |
| `Sessions.Store.RegisterUser` | src/controllers/user.controller.js:23-88 | no avatar path: 400 and nothing changes; a missing or blank field: 400 with both staged paths unlinked; a username or email already present: 409 with both unlinked; a failed avatar upload: 400; a key the unique index refuses: 500; otherwise exactly one new user at a fresh id, returned without password or token |
| `Sessions.Store.LoginUser` | src/controllers/user.controller.js:89-130 | 403 with neither username nor email; 404 when no user matches; 401 on a wrong password; on each failure the store is unchanged; on success the matched user's slot holds the returned refresh token, which refresh accepts, no other user changes, and both tokens are new |
| `Sessions.Store.LogoutUser` | src/controllers/user.controller.js:132-153 | always 200; the user's slot is emptied and nothing else changes; afterwards every token of that user is refused by refresh |
| `Sessions.Store.RefreshAccessToken` | src/controllers/user.controller.js:155-192 | as written: a token refused by `RefreshGuard` gives 401 and nothing changes; otherwise only the user's slot changes, to a token never issued before, the response has a new access token and no refresh token, and the presented token is refused from then on |
| `Sessions.Store.RefreshAccessTokenCorrected` | src/controllers/user.controller.js:177-188 | corrected: the same checks and rotation, and the response carries the new refresh token, which is the slot's content and is accepted by the next refresh |
| `Sessions.Store.ChangeCurrentPassword` | src/controllers/user.controller.js:194-210 | an unknown user fails with 500; a wrong current password gives 400 and the stored password is unchanged; otherwise only the password changes, to a digest of the new one |
| `Sessions.Store.UpdateAccountEmail` | src/controllers/user.controller.js:218-232 | 400 without an email; an unknown id gives 200 with no data; an email another user has is refused (500); otherwise only the email changes and the updated public user is returned |
| `Sessions.Store.UpdateAccountFullName` | src/controllers/user.controller.js:234-248 | 400 without a name; an unknown id gives 200 with no data; otherwise only the full name changes and the updated public user is returned |
| `Scenarios.ReplayAfterRotation` | src/controllers/user.controller.js:169-177 | a refresh token accepted once is refused with 401 when presented again |
| `Scenarios.RefreshAfterLogout` | src/controllers/user.controller.js:132-141 | after logout, refresh with any token of that user fails with 401 |
| `Scenarios.SecondLoginEndsFirstSession` | src/controllers/user.controller.js:109 | a second login by the same user succeeds, and the refresh token from the first login is then refused |
| `Scenarios.RegisterThenLogin` | src/controllers/user.controller.js:66-73 | a user who registered can log in with the lower-cased username and the same password, and login answers with that user |
| `Scenarios.LoginThenRefresh` | src/controllers/user.controller.js:118-126 | the refresh token returned by login is accepted by refresh, which issues an access token for the same user |
| `Scenarios.RefreshChainAsWritten` | src/controllers/user.controller.js:177-185 | as written, the first refresh succeeds but returns no refresh token, and presenting what it returned fails with 401 |
| `Scenarios.RefreshChainCorrected` | src/controllers/user.controller.js:177-185 | with the corrected response, the token from one refresh is accepted by the next, and the original token is still refused |

## Findings

| source | as written | input that shows it | evidently intended | confidence | as-written member | corrected member |
|---|---|---|---|---|---|---|
| src/controllers/user.controller.js:177 | destructures `newRefreshToken`, which the token generator's result (line 17) does not have. The store is rotated, but the response body and the `refreshToken` cookie carry `undefined`. | any refresh that passes the checks; the client then holds no valid refresh token and its next refresh is refused | return and set the rotated refresh token, so that refreshes can be chained | high (not executed) | `Sessions.Store.RefreshAccessToken`, `Scenarios.RefreshChainAsWritten` | `Sessions.Store.RefreshAccessTokenCorrected`, `Scenarios.RefreshChainCorrected` |
| src/controllers/user.controller.js:355 | throws 404 when the aggregate is non-empty, so an existing channel is never returned, and an unknown one gets 200 with `channel[0]` undefined | `username` equal to an existing user's name (404); a name nobody has (200, no data) | 404 exactly when the aggregate is empty, otherwise `channel[0]` | high (not executed) | `Aggregation.GetUserChannelProfile`, `Aggregation.ChannelProfileInverted` | `Aggregation.GetUserChannelProfileCorrected`, `Aggregation.MissingChannelAnsweredEmpty` |

Note: a wrong current password in `changeCurrentPassword` is a 400
(user.controller.js:199). The watch history comes in the videos collection's
order, not the stored history's order: the `$lookup` at lines 373-377 matches
videos whose id is in the history array.

## Left out

- Routing (`src/routes/user.routes.js`), the MongoDB connection
  (`src/db/index.js`), cookies, the `ApiResponse` envelope and `asyncHandler`:
  transport and wiring with no logic of their own. `src/routes/user.routes.js`
  mounts neither `getUserChannelProfile` nor `getWatchHistory`. The model treats them as callable handlers whose viewer
  is the authenticated user.
- `getCurrentUser`: it only echoes the authenticated user.
- `updateAvatar` and `updateCover`: single-field updates driven by an upload.
  They are outside the modelled core.
- The upload helper, the `unlink` helper, the user schema (pre-save hashing,
  unique indexes, `lowercase` setters) and the auth middleware are not part of
  this model. The model takes four assumptions about them:
  - the uploader returns nothing for a cover that was not sent (a `requires`
    of `RegisterUser`);
  - the unique indexes on username and email exist, and a write they refuse
    surfaces as a 500;
  - passwords are hashed before they are stored;
  - no schema setter rewrites query values. So the 409 lookup at lines 49-51
    compares the raw username with the stored lower-cased one, as written.
- Sessions.Store.RegisterUser: the 500 branch at lines 79-83 is not modelled.
  In a sequential model, `findById` always finds the document that was just
  created.
- Database failures (`save`, `create` or an update rejected for I/O reasons)
  are not modelled. Nor is the MongoDB semantics of an `undefined` field in a
  filter: a clause whose field is absent matches nothing.
- Sessions.Store.LogoutUser: `$set: { refreshToken: undefined }` (line 136) is
  modelled as emptying the slot. Recent Mongoose versions are reported to drop
  undefined keys from an update, which would leave the slot unchanged and the
  token usable after logout. The Mongoose version is not part of this model.
- JWT internals: signatures, secrets, expiry times and the access token's
  payload fields. A forged token is outside the model. Verification is the
  token kind plus the caller's `unexpired` flag.
- Sessions.Store.RefreshAccessToken and Sessions.Store.LoginUser: token
  distinctness is assumed, not derived. `jwt.sign` is deterministic in its
  payload and `iat` has one-second resolution, so two refresh tokens signed
  for the same user within one second are equal unless the user model's
  token method adds a nonce (`src/models/user.model.js` is not part of this
  model). In that case a token rotated at line 15 still equals the slot and
  passes the check at line 169, and the replay refusal does not hold.
- Accounts.HashedPasswordMatches: bcrypt compares only the first 72 bytes of
  the plaintext, so two passwords that agree on those bytes both match. The
  model's digest is injective on the whole string.
- bcrypt internals. bcrypt raises an error on a missing plaintext; the model
  treats a missing plaintext as a failed check (401 in login, 400 in
  `changeCurrentPassword`).
- Sessions.Store.ChangeCurrentPassword: takes the new password as a string.
  A missing new password would make the pre-save hook raise, and that path is
  not modelled.
- Text.Lower: lower-cases ASCII letters only. Text.IsWhitespace follows the
  characters `String.prototype.trim` removes. Body fields that are not strings
  are not modelled.
- Aggregation.GetWatchHistory: does not state the order of the result. Only
  membership is stated, because the `$lookup` order is not promised by the
  code. Video fields other than `_id` and `owner` are not modelled.
- Concurrent logins or refreshes for the same user (last write wins in the
  database): not a sequential property.
