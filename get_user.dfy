/**
 * `GetUserHandler.handle`: reads a profile, either the actor's own or, for
 * a superuser, any user's. The repository is the snapshot of profile rows.
 */
module GetUser {
  import opened Wrappers
  import opened Errors
  import opened Externals
  import opened UserCreation

  datatype GetUserQuery = GetUserQuery(actorAccountId: Uuid, targetUserId: Option<Uuid>, isSuperuser: bool)

  datatype UserDto = UserDto(id: Uuid, username: string)

  /** The first row matching `matches`, as a query returning one row yields it. */
  function FindFirst(repo: seq<UserRecord>, matches: UserRecord -> bool): (r: Option<UserRecord>)
    ensures r.None? <==> forall i :: 0 <= i < |repo| ==> !matches(repo[i])
    ensures r.Some? ==> r.value in repo && matches(r.value)
  {
    if repo == [] then None
    else if matches(repo[0]) then Some(repo[0])
    else
      var r := FindFirst(repo[1..], matches);
      assert forall i :: 0 <= i < |repo| - 1 ==> repo[1..][i] == repo[i + 1];
      r
  }

  /**
   * `handle`: a target id without superuser rights is refused before any
   * lookup; a target id is looked up among user ids, its absence among
   * account ids; a missing profile is an error.
   */
  function Handle(query: GetUserQuery, repo: seq<UserRecord>): (r: Result<UserDto, Error>)
    ensures query.targetUserId.Some? && !query.isSuperuser ==> r == Failure(PermissionDenied)
    ensures r.Failure? ==> r.error == PermissionDenied || r.error == UserProfileNotFound
    ensures r.Success? ==>
              exists u :: u in repo && r.value == UserDto(u.id, u.username.value)
                && (if query.targetUserId.Some? then u.id == query.targetUserId.value
                    else u.accountId == query.actorAccountId)
  {
    if query.targetUserId.Some? && !query.isSuperuser then Failure(PermissionDenied)
    else
      var user :=
        if query.targetUserId.Some? then FindFirst(repo, (u: UserRecord) => u.id == query.targetUserId.value)
        else FindFirst(repo, (u: UserRecord) => u.accountId == query.actorAccountId);
      if user.None? then Failure(UserProfileNotFound)
      else Success(UserDto(user.value.id, user.value.username.value))
  }

  /** A non-superuser asking for another user is refused whatever the repository holds. */
  lemma PermissionCheckPrecedesLookup(query: GetUserQuery, repo1: seq<UserRecord>, repo2: seq<UserRecord>)
    requires query.targetUserId.Some? && !query.isSuperuser
    ensures Handle(query, repo1) == Handle(query, repo2) == Failure(PermissionDenied)
  {
  }

  /** A self read needs no rights and succeeds exactly when the actor's account has a profile, which it returns. */
  lemma SelfReadFindsOwnProfile(query: GetUserQuery, repo: seq<UserRecord>)
    requires query.targetUserId.None?
    ensures Handle(query, repo).Success? <==> HasProfileFor(repo, query.actorAccountId)
    ensures Handle(query, repo).Failure? ==> Handle(query, repo).error == UserProfileNotFound
    ensures Handle(query, repo).Success? ==>
              exists u :: u in repo && u.accountId == query.actorAccountId
                && Handle(query, repo).value == UserDto(u.id, u.username.value)
  {
    var found := FindFirst(repo, (u: UserRecord) => u.accountId == query.actorAccountId);
    if found.None? {
      assert forall i :: 0 <= i < |repo| ==> repo[i].accountId != query.actorAccountId;
    } else {
      var i :| 0 <= i < |repo| && repo[i] == found.value;
    }
  }

  /** A superuser's targeted read returns the profile with that user id, or reports it missing. */
  lemma SuperuserReadsTarget(query: GetUserQuery, repo: seq<UserRecord>)
    requires query.targetUserId.Some? && query.isSuperuser
    ensures Handle(query, repo).Success? <==> HasUserId(repo, query.targetUserId.value)
    ensures Handle(query, repo).Success? ==> Handle(query, repo).value.id == query.targetUserId.value
    ensures Handle(query, repo).Success? ==>
              exists u :: u in repo && u.id == query.targetUserId.value
                && Handle(query, repo).value == UserDto(u.id, u.username.value)
  {
    var found := FindFirst(repo, (u: UserRecord) => u.id == query.targetUserId.value);
    if found.None? {
      assert forall i :: 0 <= i < |repo| ==> repo[i].id != query.targetUserId.value;
    } else {
      var i :| 0 <= i < |repo| && repo[i] == found.value;
    }
  }
}
