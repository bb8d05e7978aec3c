/** The users module's `User` aggregate: a profile tied to one account. */
module Users {
  import opened Externals
  import opened ValueObjects
  import opened Primitives

  class User {
    const root: AggregateRoot
    const accountId: Uuid
    var username: Username

    ghost predicate Valid()
      reads this
    {
      root.identity.kind == UserEntity
    }

    function Id(): Uuid {
      root.identity.id
    }

    /** `create`: exactly the given id, account and name, with no event queued. */
    constructor Create(id: Uuid, accountId: Uuid, username: Username)
      ensures Valid() && fresh(root) && Id() == id
      ensures this.accountId == accountId && this.username == username
      ensures root.events == []
    {
      root := new AggregateRoot(Identity(UserEntity, id));
      this.accountId := accountId;
      this.username := username;
    }

    /** `change_username`: replaces the name; id, account and queue stay as they were. */
    method ChangeUsername(newUsername: Username)
      modifies this
      ensures username == newUsername
    {
      username := newUsername;
    }
  }

  /** Users are equal when they are the same entity: a rename changes neither equality nor hash. */
  lemma RenameKeepsIdentity(a: Identity, b: Identity)
    requires a.kind == UserEntity && b.kind == UserEntity
    ensures SameEntity(a, b) <==> a.id == b.id
    ensures SameEntity(a, b) ==> EntityHash(a) == EntityHash(b)
  {
  }
}
