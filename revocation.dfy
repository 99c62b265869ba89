/** What the version check of the refresh route buys over time. Revocation
    itself (incrementing a user's `tokenVersion`) happens elsewhere; here the
    user table is only observed, as a history of snapshots between which no
    user disappears and no version goes down. Against such a history a
    refresh token, once outdated, is denied by every later request. */
module Revocation {
  import opened Auth
  import opened RefreshHandler

  /** One step of the user table's history: every user is still there and
      its version has not decreased. */
  ghost predicate VersionsNeverDecrease(before: Store, after: Store)
  {
    forall id :: id in before ==> id in after && before[id].tokenVersion <= after[id].tokenVersion
  }

  /** A history of user-table snapshots, oldest first. */
  ghost predicate IsHistory(h: seq<Store>)
  {
    forall k :: 0 < k < |h| ==> VersionsNeverDecrease(h[k - 1], h[k])
  }

  /** Across any stretch of a history a user persists and its version only grows. */
  lemma {:induction false} VersionPersists(h: seq<Store>, i: nat, j: nat, id: UserId)
    requires IsHistory(h)
    requires i <= j < |h|
    requires id in h[i]
    ensures id in h[j] && h[i][id].tokenVersion <= h[j][id].tokenVersion
  {
    if i < j {
      VersionPersists(h, i, j - 1, id);
      assert VersionsNeverDecrease(h[j - 1], h[j]);
    }
  }

  /** A token whose embedded version is below the stored one at some point
      is denied for a stale version by every request from then on. */
  lemma {:induction false} OutdatedTokenStaysDenied(h: seq<Store>, i: nat, j: nat,
                                                    token: Token, secret: Secret, signer: Signer)
    requires IsHistory(h)
    requires i <= j < |h|
    requires token != ""
    requires signer.verify(token, secret).Some?
    requires signer.verify(token, secret).value.userId in h[i]
    requires signer.verify(token, secret).value.tokenVersion
               < h[i][signer.verify(token, secret).value.userId].tokenVersion
    ensures Decide(Some(token), secret, signer, h[j]) == Denied(StaleVersion)
  {
    var claims := signer.verify(token, secret).value;
    VersionPersists(h, i, j, claims.userId);
  }

  /** Revocation: a token accepted at step `i` is denied at every step `j`
      once its user's stored version has changed at some step `k` between. */
  lemma {:induction false} AcceptedTokenRevoked(h: seq<Store>, i: nat, k: nat, j: nat,
                                                token: Token, secret: Secret, signer: Signer)
    requires IsHistory(h)
    requires i <= k <= j < |h|
    requires Decide(Some(token), secret, signer, h[i]).Success?
    requires var id := signer.verify(token, secret).value.userId;
      id in h[k] && h[k][id].tokenVersion != h[i][id].tokenVersion
    ensures Decide(Some(token), secret, signer, h[j]) == Denied(StaleVersion)
  {
    var claims := signer.verify(token, secret).value;
    VersionPersists(h, i, k, claims.userId);
    OutdatedTokenStaysDenied(h, k, j, token, secret, signer);
  }

  /** A refresh token freshly minted for a user row is accepted exactly while
      the table still holds that user at the version it was minted with. */
  lemma IssuedTokenAcceptedIff(u: User, secret: Secret, signer: Signer, store: Store)
    requires SignerAccepts(signer, secret, u)
    ensures Decide(Some(signer.createRefreshToken(u)), secret, signer, store).Success?
        <==> u.id in store && store[u.id].tokenVersion == u.tokenVersion
    ensures Decide(Some(signer.createRefreshToken(u)), secret, signer, store).Success? ==>
            Decide(Some(signer.createRefreshToken(u)), secret, signer, store).user == store[u.id]
  {
  }

  /** Rotation closes the loop: after a successful refresh, the cookie it set
      is itself accepted by the next request as long as the table is unchanged,
      every row sits under its own key, and the signer is sound for the user. */
  lemma RotatedCookieAccepted(cookie: Option<Token>, secret: Secret, signer: Signer, store: Store)
    requires WellKeyed(store)
    requires Decide(cookie, secret, signer, store).Success?
    requires SignerAccepts(signer, secret, Decide(cookie, secret, signer, store).user)
    ensures Decide(Some(Decide(cookie, secret, signer, store).refreshToken), secret, signer, store).Success?
  {
    var d := Decide(cookie, secret, signer, store);
    var id := signer.verify(cookie.value, secret).value.userId;
    assert d.user.id == id;
    IssuedTokenAcceptedIff(d.user, secret, signer, store);
  }

  /** Logging out everywhere: user 1 at version 0 refreshes with the token it
      was issued and receives a rotated one (here the very same token, since
      minting depends on the user row alone); once its stored version becomes
      1, presenting that rotated token is denied. */
  lemma LogoutEverywhereScenario(secret: Secret, signer: Signer)
    requires SignerAccepts(signer, secret, User(1, 0))
    ensures var before := map[1 := User(1, 0)];
            var after := map[1 := User(1, 1)];
            var first := Decide(Some(signer.createRefreshToken(User(1, 0))), secret, signer, before);
            && first.Success?
            && Decide(Some(first.refreshToken), secret, signer, after) == Denied(StaleVersion)
  {
  }
}
