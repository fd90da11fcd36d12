/**
 * The user collection: user records, their public projection, the tokens and
 * password digests stored on them, and the collection scans (`find`,
 * `findOne`) the handlers run against it.
 */
module Accounts {
  import opened Wrappers
  import opened Text

  /** A document `_id`. Ids are handed out in increasing order, so id order is the collection's natural order. */
  type UserId = nat
  type VideoId = nat

  /** Which secret signed a JWT: the access-token secret or the refresh-token secret. */
  datatype TokenKind = Access | Refresh

  /**
   * A signed JWT. `subject` is the `_id` in its payload; `serial` stands for
   * everything else that makes one issued token differ from another.
   */
  datatype Token = Token(kind: TokenKind, subject: UserId, serial: nat)

  /** A bcrypt digest, modelled as an injective image of the plaintext. */
  datatype Digest = Digest(image: string)

  /** The hashing the user model applies to a password before it is saved. */
  function Hash(plain: string): Digest {
    Digest(plain)
  }

  /** `isPasswordCorrect`: the plaintext hashes to the stored digest; a missing plaintext never matches. */
  predicate PasswordMatches(plain: Option<string>, stored: Digest) {
    plain.Some? && Hash(plain.value) == stored
  }

  lemma HashedPasswordMatches(plain: string, other: Option<string>)
    ensures PasswordMatches(other, Hash(plain)) <==> other == Some(plain)
  {
  }

  /** A user document. `refreshToken` is the single slot holding the one refresh token currently honoured. */
  datatype User = User(
    username: string,
    email: string,
    fullName: string,
    password: Digest,
    avatar: string,
    coverImage: string,
    refreshToken: Option<Token>,
    watchHistory: seq<VideoId>)

  /** A user document read with `.select("-password -refreshToken")`. */
  datatype PublicUser = PublicUser(
    id: UserId,
    username: string,
    email: string,
    fullName: string,
    avatar: string,
    coverImage: string,
    watchHistory: seq<VideoId>)

  function Public(id: UserId, u: User): PublicUser {
    PublicUser(id, u.username, u.email, u.fullName, u.avatar, u.coverImage, u.watchHistory)
  }

  /** The response does not depend on the secret fields: whatever the stored digest and token, it is the same. */
  lemma PublicIgnoresSecrets(id: UserId, u: User, d: Digest, t: Option<Token>)
    ensures Public(id, u.(password := d, refreshToken := t)) == Public(id, u)
  {
  }

  /** The unique indexes on `username` and `email`: no two documents share either. */
  ghost predicate UniqueKeys(users: map<UserId, User>) {
    forall a, b :: a in users && b in users && a != b ==>
      users[a].username != users[b].username && users[a].email != users[b].email
  }

  /** Every id in the collection is below `bound`. */
  ghost predicate Bounded(users: map<UserId, User>, bound: nat) {
    forall id :: id in users ==> id < bound
  }

  /**
   * The ids below `bound` whose document satisfies `p`, in natural order: what a
   * scan of the collection with that filter yields.
   */
  function Matching(users: map<UserId, User>, bound: nat, p: User -> bool): (r: seq<UserId>)
    ensures forall k :: 0 <= k < |r| ==> r[k] < bound && r[k] in users && p(users[r[k]])
    ensures forall id :: id in users && id < bound && p(users[id]) ==> id in r
    ensures forall j, k :: 0 <= j < k < |r| ==> r[j] < r[k]
  {
    if bound == 0 then []
    else
      var earlier := Matching(users, bound - 1, p);
      if bound - 1 in users && p(users[bound - 1]) then earlier + [bound - 1] else earlier
  }

  /** A scan depends only on which documents pass its filter, not on their other fields. */
  lemma {:induction false} MatchingDependsOnFilterOnly(users: map<UserId, User>, users': map<UserId, User>, bound: nat, p: User -> bool)
    requires users.Keys == users'.Keys
    requires forall id :: id in users ==> p(users[id]) == p(users'[id])
    ensures Matching(users, bound, p) == Matching(users', bound, p)
  {
    if bound > 0 {
      MatchingDependsOnFilterOnly(users, users', bound - 1, p);
    }
  }

  /** `findOne`: the first document in natural order that satisfies `p`. */
  function FindFirst(users: map<UserId, User>, bound: nat, p: User -> bool): (r: Option<UserId>)
    ensures r.Some? ==> r.value in users && r.value < bound && p(users[r.value])
    ensures r.Some? ==> forall id :: id in users && id < r.value ==> !p(users[id])
    ensures r.None? ==> forall id :: id in users && id < bound ==> !p(users[id])
  {
    var m := Matching(users, bound, p);
    if m == [] then None else Some(m[0])
  }

  /**
   * The filter `{ $or: [{ username }, { email }] }`. A clause whose field is
   * `undefined` is taken to match nothing.
   */
  predicate SameUsernameOrEmail(u: User, username: Option<string>, email: Option<string>) {
    (username.Some? && u.username == username.value) || (email.Some? && u.email == email.value)
  }

  /** Changing a field other than username and email (a token slot, a password) does not change what a lookup finds. */
  lemma FindIgnoresOtherFields(users: map<UserId, User>, id: UserId, user: User, bound: nat, username: Option<string>, email: Option<string>)
    requires id in users && user.username == users[id].username && user.email == users[id].email
    ensures FindByUsernameOrEmail(users[id := user], bound, username, email) == FindByUsernameOrEmail(users, bound, username, email)
  {
    MatchingDependsOnFilterOnly(users, users[id := user], bound, u => SameUsernameOrEmail(u, username, email));
  }

  function FindByUsernameOrEmail(users: map<UserId, User>, bound: nat, username: Option<string>, email: Option<string>): (r: Option<UserId>)
    ensures r.Some? ==> r.value in users && SameUsernameOrEmail(users[r.value], username, email)
    ensures r.None? ==> forall id :: id in users && id < bound ==> !SameUsernameOrEmail(users[id], username, email)
  {
    FindFirst(users, bound, u => SameUsernameOrEmail(u, username, email))
  }
}
