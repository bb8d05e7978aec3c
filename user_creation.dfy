/**
 * `UserCreationService.create_user`: the uniqueness guards before a profile
 * is created. The repository is the snapshot of profile rows it reads; the
 * service reads it and never writes it.
 */
module UserCreation {
  import opened Wrappers
  import opened Errors
  import opened Externals
  import opened ValueObjects

  /** A profile row: the user id, its account and its name. */
  datatype UserRecord = UserRecord(id: Uuid, accountId: Uuid, username: Username)

  predicate UsernameTaken(repo: seq<UserRecord>, username: Username) {
    exists i :: 0 <= i < |repo| && repo[i].username == username
  }

  /** `get_by_id(x)` finds a row. */
  predicate HasUserId(repo: seq<UserRecord>, id: Uuid) {
    exists i :: 0 <= i < |repo| && repo[i].id == id
  }

  /** `get_by_account_id(x)` finds a row. */
  predicate HasProfileFor(repo: seq<UserRecord>, accountId: Uuid) {
    exists i :: 0 <= i < |repo| && repo[i].accountId == accountId
  }

  /**
   * `create_user` as written: the second guard looks the account id up
   * among user ids, so it only fires when some user's id happens to equal
   * the account id.
   */
  function CreateUserAsWritten(repo: seq<UserRecord>, userId: Uuid, accountId: Uuid, username: Username): (r: Result<UserRecord, Error>)
    ensures UsernameTaken(repo, username) ==> r == Failure(UsernameIsAlreadyTaken)
    ensures !UsernameTaken(repo, username) && HasUserId(repo, accountId) ==> r == Failure(UserAlreadyExistsForAccount)
    ensures r.Success? <==> !UsernameTaken(repo, username) && !HasUserId(repo, accountId)
    ensures r.Success? ==> r.value == UserRecord(userId, accountId, username)
  {
    if UsernameTaken(repo, username) then Failure(UsernameIsAlreadyTaken)
    else if HasUserId(repo, accountId) then Failure(UserAlreadyExistsForAccount)
    else Success(UserRecord(userId, accountId, username))
  }

  /** `create_user` as intended: the second guard asks whether the account already has a profile. */
  function CreateUser(repo: seq<UserRecord>, userId: Uuid, accountId: Uuid, username: Username): (r: Result<UserRecord, Error>)
    ensures UsernameTaken(repo, username) ==> r == Failure(UsernameIsAlreadyTaken)
    ensures !UsernameTaken(repo, username) && HasProfileFor(repo, accountId) ==> r == Failure(UserAlreadyExistsForAccount)
    ensures r.Success? <==> !UsernameTaken(repo, username) && !HasProfileFor(repo, accountId)
    ensures r.Success? ==> r.value == UserRecord(userId, accountId, username)
  {
    if UsernameTaken(repo, username) then Failure(UsernameIsAlreadyTaken)
    else if HasProfileFor(repo, accountId) then Failure(UserAlreadyExistsForAccount)
    else Success(UserRecord(userId, accountId, username))
  }

  /** The rule the service exists to keep: one profile per account, one profile per name. */
  ghost predicate ProfilesUnique(repo: seq<UserRecord>) {
    && (forall i, j :: 0 <= i < j < |repo| ==> repo[i].accountId != repo[j].accountId)
    && (forall i, j :: 0 <= i < j < |repo| ==> repo[i].username != repo[j].username)
  }

  /** Adding what the corrected service creates keeps profiles unique. */
  lemma CreateUserKeepsProfilesUnique(repo: seq<UserRecord>, userId: Uuid, accountId: Uuid, username: Username)
    requires ProfilesUnique(repo)
    requires CreateUser(repo, userId, accountId, username).Success?
    ensures ProfilesUnique(repo + [CreateUser(repo, userId, accountId, username).value])
  {
    var added := repo + [CreateUser(repo, userId, accountId, username).value];
    forall i, j | 0 <= i < j < |added|
      ensures added[i].accountId != added[j].accountId && added[i].username != added[j].username
    {
      if j == |repo| {
        assert added[i] == repo[i];
      }
    }
  }

  /**
   * The code as written lets a second profile through for an account that
   * already has one, whenever the new user id differs from the account id,
   * as a fresh `uuid4` user id does. The service's guard therefore lets a
   * redelivered `AccountRegistered` event through; only the database's
   * unique `account_id` column then refuses the row, at commit, with an
   * `IntegrityError` instead of `UserAlreadyExistsForAccountException`.
   * The corrected service refuses it with the intended error.
   */
  lemma AsWrittenCreatesSecondProfile()
    ensures var alice: Username := UsernameText("alice");
            var bob: Username := UsernameText("bob");
            var repo := [UserRecord(1, 2, alice)];
            && CreateUserAsWritten(repo, 3, 2, bob) == Success(UserRecord(3, 2, bob))
            && !ProfilesUnique(repo + [UserRecord(3, 2, bob)])
            && CreateUser(repo, 3, 2, bob) == Failure(UserAlreadyExistsForAccount)
  {
    var alice: Username := UsernameText("alice");
    var bob: Username := UsernameText("bob");
    var repo := [UserRecord(1, 2, alice)];
    assert !UsernameTaken(repo, bob) by {
      assert repo[0].username != bob;
    }
    assert !HasUserId(repo, 2);
    assert HasProfileFor(repo, 2) by {
      assert repo[0].accountId == 2;
    }
    var added := repo + [UserRecord(3, 2, bob)];
    assert added[0].accountId == added[1].accountId;
  }
}
