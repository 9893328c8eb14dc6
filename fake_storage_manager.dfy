/**
 * FakeStorageManager: the test double for the storage manager's user key
 * authentication. Each user has a list of secrets, created lazily as `[null]`
 * (no secret); adding appends, clearing swaps one secret for a null entry,
 * fixating keeps only the newest. Unlocking demands a single entry whose
 * content matches the secret, unless bad unlocks are ignored.
 *
 * Secrets are byte arrays compared by reference when a list removes one and
 * by content when a user is unlocked.
 */
module FakeStorage {
  import opened JavaTypes

  type Secret = array?<bv8>

  /** The per-user lists of secrets (the ArrayMap of ArrayLists). */
  type AuthMap = map<Int32, seq<Secret>>

  /** The AssertionFailedErrors and the NullPointerException the fake can throw. */
  datatype Failure = MoreThanOneSecret | InvalidSecret(userId: Int32) | NullPointer

  datatype Result<+T> = Ok(value: T) | Err(error: Failure)

  /** Every stored list holds at least one entry. */
  predicate NonEmptyLists(m: AuthMap) {
    forall u :: u in m ==> |m[u]| > 0
  }

  /** getUserAuth's view of a user: the stored list, or `[null]` for a user not seen yet. */
  function AuthOf(m: AuthMap, userId: Int32): (auths: seq<Secret>)
    ensures userId in m ==> auths == m[userId]
    ensures userId !in m ==> auths == [null]
  {
    if userId in m then m[userId] else [null]
  }

  /** The position of the first reference-equal occurrence. */
  function FirstIndex(s: seq<Secret>, x: Secret): (i: nat)
    requires x in s
    ensures i < |s| && s[i] == x && x !in s[..i]
  {
    if s[0] == x then 0
    else
      assert s == [s[0]] + s[1..];
      var i := FirstIndex(s[1..], x);
      assert s[..i + 1] == [s[0]] + s[1..][..i];
      i + 1
  }

  /** ArrayList.remove(Object): drops the first reference-equal occurrence, if any. */
  function RemoveFirst(s: seq<Secret>, x: Secret): (r: seq<Secret>)
    ensures x in s ==> r == s[..FirstIndex(s, x)] + s[FirstIndex(s, x) + 1..]
    ensures x !in s ==> r == s
    ensures multiset(r) + (if x in s then multiset{x} else multiset{}) == multiset(s)
  {
    if x in s then
      var i := FirstIndex(s, x);
      assert s == s[..i] + [s[i]] + s[i + 1..];
      s[..i] + s[i + 1..]
    else s
  }

  /** The map after addUserKeyAuth. */
  function AddedAuth(m: AuthMap, userId: Int32, secret: Secret): AuthMap {
    m[userId := AuthOf(m, userId) + [secret]]
  }

  /** The map after clearUserKeyAuth. */
  function ClearedAuth(m: AuthMap, userId: Int32, secret: Secret): AuthMap {
    if secret == null then m[userId := AuthOf(m, userId)]
    else m[userId := RemoveFirst(AuthOf(m, userId), secret) + [null]]
  }

  /** The map after fixateNewestUserKeyAuth for a user that has a list. */
  function FixatedAuth(m: AuthMap, userId: Int32): AuthMap
    requires userId in m && |m[userId]| > 0
  {
    m[userId := [m[userId][|m[userId]| - 1]]]
  }

  /** Arrays.equals on byte arrays: both null, or both non-null with the same contents. */
  predicate ArraysEqual(a: Secret, b: Secret)
    reads a, b
  {
    if a == b then true
    else if a == null || b == null then false
    else a.Length == b.Length && forall k :: 0 <= k < a.Length ==> a[k] == b[k]
  }

  lemma ArraysEqualByContent(a: Secret, b: Secret)
    ensures ArraysEqual(a, b) <==> (a == null && b == null) || (a != null && b != null && a[..] == b[..])
  {
    if a != null && b != null && a != b && a.Length == b.Length && (forall k :: 0 <= k < a.Length ==> a[k] == b[k]) {
      assert a[..] == b[..];
    }
  }

  /** Every operation keeps each stored list non-empty. */
  lemma OperationsKeepListsNonEmpty(m: AuthMap, userId: Int32, secret: Secret)
    requires NonEmptyLists(m)
    ensures NonEmptyLists(m[userId := AuthOf(m, userId)])
    ensures NonEmptyLists(AddedAuth(m, userId, secret))
    ensures NonEmptyLists(ClearedAuth(m, userId, secret))
    ensures userId in m ==> NonEmptyLists(FixatedAuth(m, userId))
  {
  }

  /** Only the named user's list changes; other users are neither added nor altered. */
  lemma OtherUsersUntouched(m: AuthMap, userId: Int32, other: Int32, secret: Secret)
    requires other != userId
    ensures (other in AddedAuth(m, userId, secret)) == (other in m)
    ensures (other in ClearedAuth(m, userId, secret)) == (other in m)
    ensures other in m ==> AddedAuth(m, userId, secret)[other] == m[other]
                           && ClearedAuth(m, userId, secret)[other] == m[other]
  {
  }

  /**
   * Clearing a non-null secret keeps the list's length when the secret was
   * there (it becomes a null entry, moved to the end) and grows it otherwise.
   */
  lemma ClearKeepsSizeWhenPresent(m: AuthMap, userId: Int32, secret: Secret)
    requires secret != null
    ensures var before, after := AuthOf(m, userId), ClearedAuth(m, userId, secret)[userId];
            && |after| == (if secret in before then |before| else |before| + 1)
            && after[|after| - 1] == null
            && multiset(after) == multiset(before) - multiset{secret} + multiset{null}
  {
    var before := AuthOf(m, userId);
    var removed := RemoveFirst(before, secret);
    assert |multiset(removed)| == |removed|;
    assert |multiset(before)| == |before|;
  }

  /** After a secret is added and fixated it is the user's only entry. */
  lemma AddThenFixate(m: AuthMap, userId: Int32, secret: Secret)
    ensures FixatedAuth(AddedAuth(m, userId, secret), userId)[userId] == [secret]
  {
  }

  class FakeStorageManager {
    var auth: AuthMap
    var ignoreBadUnlock: bool

    constructor ()
      ensures auth == map[] && !ignoreBadUnlock && Valid()
    {
      auth := map[];
      ignoreBadUnlock := false;
    }

    predicate Valid()
      reads this
    {
      NonEmptyLists(auth)
    }

    /** getUserAuth: creates `[null]` for an unknown user, then returns the user's list. */
    method GetUserAuth(userId: Int32) returns (auths: seq<Secret>)
      requires Valid()
      modifies this`auth
      ensures Valid()
      ensures auth == old(auth)[userId := AuthOf(old(auth), userId)]
      ensures userId in old(auth) ==> auth == old(auth)
      ensures auths == auth[userId] == AuthOf(old(auth), userId)
    {
      if userId !in auth {
        auth := auth[userId := [null]];
      }
      auths := auth[userId];
    }

    /** addUserKeyAuth: appends the secret to the user's list. */
    method AddUserKeyAuth(userId: Int32, serialNumber: Int32, secret: Secret)
      requires Valid()
      modifies this`auth
      ensures Valid()
      ensures auth == AddedAuth(old(auth), userId, secret)
    {
      var auths := GetUserAuth(userId);
      auth := auth[userId := auths + [secret]];
    }

    /** clearUserKeyAuth: for a non-null secret, removes its first occurrence and appends a null entry. */
    method ClearUserKeyAuth(userId: Int32, serialNumber: Int32, secret: Secret)
      requires Valid()
      modifies this`auth
      ensures Valid()
      ensures auth == ClearedAuth(old(auth), userId, secret)
    {
      var auths := GetUserAuth(userId);
      if secret == null {
        return;
      }
      auths := RemoveFirst(auths, secret);
      auths := auths + [null];
      auth := auth[userId := auths];
    }

    /** fixateNewestUserKeyAuth: keeps only the newest entry; a user without a list is a NullPointerException. */
    method FixateNewestUserKeyAuth(userId: Int32) returns (failure: Option<Failure>)
      requires Valid()
      modifies this`auth
      ensures Valid()
      ensures userId !in old(auth) ==> failure == Some(NullPointer) && auth == old(auth)
      ensures userId in old(auth) ==> failure == None && auth == FixatedAuth(old(auth), userId)
    {
      if userId !in auth {
        return Some(NullPointer);
      }
      var auths := auth[userId];
      var latest := auths[|auths| - 1];
      auths := [];
      auths := auths + [latest];
      assert auths == [latest];
      auth := auth[userId := auths];
      failure := None;
    }

    /** getUserUnlockToken: the user's single entry; more than one is an assertion failure. */
    method GetUserUnlockToken(userId: Int32) returns (token: Result<Secret>)
      requires Valid()
      modifies this`auth
      ensures Valid()
      ensures auth == old(auth)[userId := AuthOf(old(auth), userId)]
      ensures token.Err? <==> |AuthOf(old(auth), userId)| != 1
      ensures token.Err? ==> token.error == MoreThanOneSecret
      ensures token.Ok? ==> AuthOf(old(auth), userId) == [token.value]
    {
      var auths := GetUserAuth(userId);
      if |auths| != 1 {
        return Err(MoreThanOneSecret);
      }
      token := Ok(auths[0]);
    }

    /**
     * unlockUser: fails when the user has more than one entry, or when the
     * secret's content differs from the single entry and bad unlocks are not
     * ignored. The progress listener is not modelled.
     */
    method UnlockUser(userId: Int32, secret: Secret) returns (failure: Option<Failure>)
      requires Valid()
      modifies this`auth
      ensures Valid()
      ensures auth == old(auth)[userId := AuthOf(old(auth), userId)]
      ensures var auths := AuthOf(old(auth), userId);
              && (|auths| > 1 ==> failure == Some(MoreThanOneSecret))
              && (|auths| == 1 && ArraysEqual(secret, auths[0]) ==> failure == None)
              && (|auths| == 1 && !ArraysEqual(secret, auths[0]) ==>
                    failure == (if ignoreBadUnlock then None else Some(InvalidSecret(userId))))
    {
      var auths := GetUserAuth(userId);
      if |auths| > 1 {
        return Some(MoreThanOneSecret);
      }
      var stored := auths[0];
      if !ArraysEqual(secret, stored) {
        if !ignoreBadUnlock {
          return Some(InvalidSecret(userId));
        }
      }
      failure := None;
    }

    method SetIgnoreBadUnlock(ignore: bool)
      modifies this`ignoreBadUnlock
      ensures ignoreBadUnlock == ignore
    {
      ignoreBadUnlock := ignore;
    }
  }
}
