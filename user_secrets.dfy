/**
 * The in-memory store of SnapTrade user secrets, kept by all three backend
 * copies as one process-wide dictionary from user id to secret.  The
 * dictionary is the field of a single `SecretStore` object standing for the
 * static (or module-level) variable.
 */
module UserSecrets {
  import opened Wrappers

  /** `TryGetValue` / `dict.get`: the secret stored for the user, if any. */
  function Lookup(secrets: map<string, string>, userId: string): (s: Option<string>)
    ensures s.Some? <==> userId in secrets
    ensures s.Some? ==> s.value == secrets[userId]
  {
    if userId in secrets then Some(secrets[userId]) else None
  }

  /** A store is visible to the next lookup of that user and invisible to every other user's. */
  lemma LookupAfterStore(secrets: map<string, string>, userId: string, secret: string, other: string)
    ensures Lookup(secrets[userId := secret], userId) == Some(secret)
    ensures other != userId ==> Lookup(secrets[userId := secret], other) == Lookup(secrets, other)
  {
  }

  /** A second store for the same user overwrites the first. */
  lemma StoreOverwrites(secrets: map<string, string>, userId: string, first: string, second: string)
    ensures secrets[userId := first][userId := second] == secrets[userId := second]
  {
  }

  /** The dictionary built from an empty one by a sequence of stores `(userId, secret)`. */
  function Replay(stores: seq<(string, string)>): map<string, string> {
    if |stores| == 0 then map[]
    else Replay(stores[..|stores| - 1])[stores[|stores| - 1].0 := stores[|stores| - 1].1]
  }

  /** The secret of the last store for `userId` in the sequence, if there is one. */
  function LastStored(stores: seq<(string, string)>, userId: string): Option<string> {
    if |stores| == 0 then None
    else if stores[|stores| - 1].0 == userId then Some(stores[|stores| - 1].1)
    else LastStored(stores[..|stores| - 1], userId)
  }

  /** `LastStored` is nothing exactly when the user was never stored, and otherwise the latest store's secret. */
  lemma {:induction false} LastStoredIsLatest(stores: seq<(string, string)>, userId: string)
    ensures LastStored(stores, userId).None? <==> forall i | 0 <= i < |stores| :: stores[i].0 != userId
    ensures LastStored(stores, userId).Some? ==>
      exists i :: 0 <= i < |stores| && stores[i] == (userId, LastStored(stores, userId).value) &&
                  forall j | i < j < |stores| :: stores[j].0 != userId
  {
    if |stores| > 0 {
      var n := |stores| - 1;
      if stores[n].0 == userId {
        assert stores[n] == (userId, stores[n].1);
      } else {
        var init := stores[..n];
        LastStoredIsLatest(init, userId);
        assert forall i | 0 <= i < n :: init[i] == stores[i];
        if LastStored(init, userId).Some? {
          var i :| 0 <= i < n && init[i] == (userId, LastStored(init, userId).value) &&
                   forall j | i < j < n :: init[j].0 != userId;
          assert stores[i] == init[i];
        }
      }
    }
  }

  /**
   * After any sequence of stores, a user's lookup yields the secret of the last store for
   * that user, and nothing for a user who was never stored.
   */
  lemma {:induction false} ReplayLookup(stores: seq<(string, string)>, userId: string)
    ensures Lookup(Replay(stores), userId) == LastStored(stores, userId)
    ensures (forall i | 0 <= i < |stores| :: stores[i].0 != userId) ==> Lookup(Replay(stores), userId) == None
  {
    if |stores| > 0 {
      ReplayLookup(stores[..|stores| - 1], userId);
    }
    LastStoredIsLatest(stores, userId);
  }

  /** The static dictionary. */
  class SecretStore {
    var secrets: map<string, string>

    /** The dictionary starts empty when the process starts. */
    constructor ()
      ensures secrets == map[]
    {
      secrets := map[];
    }

    /** `GetUserSecretAsync` / `get_user_secret`. */
    function GetUserSecret(userId: string): (s: Option<string>)
      reads this
      ensures s.Some? <==> userId in secrets
      ensures s.Some? ==> s.value == secrets[userId]
    {
      Lookup(secrets, userId)
    }

    /** `StoreUserSecretAsync` / `store_user_secret`: insert or overwrite. */
    method StoreUserSecret(userId: string, userSecret: string)
      modifies this
      ensures secrets == old(secrets)[userId := userSecret]
      ensures GetUserSecret(userId) == Some(userSecret)
      ensures forall other | other != userId :: GetUserSecret(other) == old(GetUserSecret(other))
    {
      secrets := secrets[userId := userSecret];
    }

    /** `UserExistsAsync` (only in the API project's copy). */
    function UserExists(userId: string): (b: bool)
      reads this
      ensures b <==> GetUserSecret(userId).Some?
    {
      userId in secrets
    }
  }
}
