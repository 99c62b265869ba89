/** The collaborators the refresh-token handler calls but does not own: the
    `User` entity and its repository (TypeORM's `User.findOne`), the token
    verifier of `jsonwebtoken`, and the token minting helpers of `utils/auth`.
    None of them is modelled in detail: the verifier and the minting helpers
    are oracles handed to the handler, the repository is a map it may only read. */
module Auth {

  datatype Option<+T> = None | Some(value: T)

  /** A signed JWT as it travels in the `jwt` cookie or in a response body. */
  type Token = string

  /** The value of `process.env.REFRESH_TOKEN_SECRET`. */
  type Secret = string

  /** The primary key of a `User` row. */
  type UserId = int

  /** The fields of a `User` row the handler reads: its key and the version
      counter that every refresh token snapshots when it is minted. */
  datatype User = User(id: UserId, tokenVersion: int)

  /** The payload a refresh token carries once its signature and expiry have
      been checked: the user it was minted for and that user's version then. */
  datatype Claims = Claims(userId: UserId, tokenVersion: int)

  /** The foreign functions the handler calls, as oracles.
      - `verify` is `jsonwebtoken.verify` at the moment of the request: `None`
        when it throws (bad signature, expired, malformed), the decoded
        payload otherwise.
      - `createAccessToken` and `createRefreshToken` mint a token for a user;
        how they sign it is not part of this model. */
  datatype Signer = Signer(
    verify: (Token, Secret) -> Option<Claims>,
    createAccessToken: User -> Token,
    createRefreshToken: User -> Token)

  /** What a sound signer guarantees for one user: the refresh token it mints
      is non-empty and verifies, under the refresh secret, to that user's id
      and current version. Expiry is ignored here: it holds right after minting. */
  ghost predicate SignerAccepts(signer: Signer, secret: Secret, u: User)
  {
    signer.createRefreshToken(u) != "" &&
    signer.verify(signer.createRefreshToken(u), secret) == Some(Claims(u.id, u.tokenVersion))
  }

  /** The persisted users, keyed by primary key. */
  type Store = map<UserId, User>

  /** Every row is stored under its own key. */
  ghost predicate WellKeyed(store: Store)
  {
    forall id :: id in store ==> store[id].id == id
  }

  /** The `User` table as the handler sees it. Only revocation (outside this
      model) ever assigns `users`; the handler merely looks rows up.
      `lookups` records, oldest first, the ids every `FindOne` asked for. */
  class UserRepository {
    var users: Store
    ghost var lookups: seq<UserId>

    ghost predicate Valid()
      reads this
    {
      WellKeyed(users)
    }

    constructor (initial: Store)
      requires WellKeyed(initial)
      ensures Valid() && users == initial && lookups == []
    {
      users := initial;
      lookups := [];
    }

    /** `User.findOne({ id })`: the row with that key, or nothing. It reads
        the table and only records that the lookup took place. */
    method FindOne(id: UserId) returns (found: Option<User>)
      requires Valid()
      modifies this`lookups
      ensures users == old(users) && lookups == old(lookups) + [id]
      ensures found.Some? <==> id in users
      ensures found.Some? ==> found.value == users[id] && found.value.id == id
    {
      lookups := lookups + [id];
      if id in users {
        found := Some(users[id]);
      } else {
        found := None;
      }
    }
  }
}
