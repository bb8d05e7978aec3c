/**
 * The auth module's `Account` aggregate. The Python dataclass inherits from
 * `AggregateRoot`; here the account owns its root, which carries the id and
 * the queue of pending domain events.
 */
module Accounts {
  import opened Wrappers
  import opened Errors
  import opened Externals
  import opened ValueObjects
  import opened DomainEvents
  import opened Primitives

  /** The password check `login` and `change_password` make against the stored hash. */
  predicate Accepts(hasher: Hasher, password: PlainPassword, passwordHash: string) {
    hasher.verify(password.value, passwordHash)
  }

  /** `login`'s verdict: a wrong password is reported before an unverified account. */
  function LoginVerdict(hasher: Hasher, password: PlainPassword, passwordHash: string, isVerified: bool): (r: Outcome<Error>)
    ensures r == Fail(InvalidPassword) <==> !Accepts(hasher, password, passwordHash)
    ensures r == Fail(AccountNotVerified) <==> Accepts(hasher, password, passwordHash) && !isVerified
    ensures r == Pass <==> Accepts(hasher, password, passwordHash) && isVerified
  {
    if !Accepts(hasher, password, passwordHash) then Fail(InvalidPassword)
    else if !isVerified then Fail(AccountNotVerified)
    else Pass
  }

  /** With a sound hasher, a password just set is the one `login` accepts. */
  lemma NewPasswordLogsIn(hasher: Hasher, password: PlainPassword, isVerified: bool)
    requires Sound(hasher)
    ensures LoginVerdict(hasher, password, hasher.hash(password.value), isVerified)
         == (if isVerified then Pass else Fail(AccountNotVerified))
  {
    assert hasher.verify(password.value, hasher.hash(password.value));
  }

  class Account {
    const root: AggregateRoot
    const email: Email
    var passwordHash: string
    var isVerified: bool
    const isSuperuser: bool

    ghost predicate Valid()
      reads this
    {
      root.identity.kind == AccountEntity
    }

    function Id(): Uuid {
      root.identity.id
    }

    /** The dataclass constructor: no pending events. */
    constructor (id: Uuid, email: Email, passwordHash: string, isVerified: bool, isSuperuser: bool)
      ensures Valid() && fresh(root) && Id() == id && this.email == email
      ensures this.passwordHash == passwordHash && this.isVerified == isVerified
      ensures this.isSuperuser == isSuperuser && root.events == []
    {
      root := new AggregateRoot(Identity(AccountEntity, id));
      this.email := email;
      this.passwordHash := passwordHash;
      this.isVerified := isVerified;
      this.isSuperuser := isSuperuser;
    }

    /**
     * `create`: an unverified, ordinary account holding the hash of the
     * password, with exactly one `AccountRegistered` event queued.
     */
    static method Create(id: Uuid, email: Email, password: PlainPassword, hasher: Hasher) returns (a: Account)
      ensures fresh(a) && fresh(a.root) && a.Valid()
      ensures a.Id() == id && a.email == email && a.passwordHash == hasher.hash(password.value)
      ensures !a.isVerified && !a.isSuperuser
      ensures a.root.events == [AccountRegistered(id, email)]
    {
      a := new Account(id, email, "", false, false);
      a.SetPassword(password, hasher);
      a.root.AddEvent(AccountRegistered(a.Id(), a.email));
    }

    /** `set_password`: stores the hash of the password and nothing else. */
    method SetPassword(password: PlainPassword, hasher: Hasher)
      modifies this
      ensures passwordHash == hasher.hash(password.value) && isVerified == old(isVerified)
    {
      passwordHash := hasher.hash(password.value);
    }

    /**
     * `login`: checks only, never changes the account; a wrong password is
     * refused whether or not the account is verified, and a verified
     * account accepts the password it was last given, under a sound hasher.
     */
    function Login(password: PlainPassword, hasher: Hasher): (r: Outcome<Error>)
      reads this
      ensures r == Fail(InvalidPassword) <==> !hasher.verify(password.value, passwordHash)
      ensures r == Pass <==> hasher.verify(password.value, passwordHash) && isVerified
      ensures Sound(hasher) && passwordHash == hasher.hash(password.value) ==>
                r == (if isVerified then Pass else Fail(AccountNotVerified))
    {
      LoginVerdict(hasher, password, passwordHash, isVerified)
    }

    /** `verify_email`: refused once verified; otherwise marks the account verified, queuing nothing. */
    method VerifyEmail() returns (r: Outcome<Error>)
      modifies this
      ensures old(isVerified) ==> r == Fail(AccountAlreadyVerified)
      ensures !old(isVerified) ==> r == Pass
      ensures isVerified && passwordHash == old(passwordHash)
    {
      if isVerified {
        return Fail(AccountAlreadyVerified);
      }
      isVerified := true;
      r := Pass;
    }

    /** `request_verification`: refused once verified; otherwise queues the token for the account's email. */
    method RequestVerification(token: string) returns (r: Outcome<Error>)
      modifies root
      ensures isVerified ==> r == Fail(AccountAlreadyVerified) && root.events == old(root.events)
      ensures !isVerified ==> r == Pass && root.events == old(root.events) + [VerificationRequested(Id(), email, token)]
    {
      if isVerified {
        return Fail(AccountAlreadyVerified);
      }
      root.AddEvent(VerificationRequested(Id(), email, token));
      r := Pass;
    }

    /** `request_password_reset`: always queues the reset token; nothing else changes. */
    method RequestPasswordReset(token: string)
      modifies root
      ensures root.events == old(root.events) + [PasswordResetRequested(Id(), email, token)]
    {
      root.AddEvent(PasswordResetRequested(Id(), email, token));
    }

    /** `reset_password`: sets the new hash without checking the old one and queues the completion. */
    method ResetPassword(password: PlainPassword, hasher: Hasher)
      modifies this, root
      ensures passwordHash == hasher.hash(password.value) && isVerified == old(isVerified)
      ensures root.events == old(root.events) + [PasswordResetCompleted(Id())]
    {
      SetPassword(password, hasher);
      root.AddEvent(PasswordResetCompleted(Id()));
    }

    /**
     * `change_password`: a wrong old password is refused with nothing
     * changed; otherwise the new hash is stored and `PasswordChanged` queued.
     */
    method ChangePassword(oldPassword: PlainPassword, newPassword: PlainPassword, hasher: Hasher) returns (r: Outcome<Error>)
      modifies this, root
      ensures isVerified == old(isVerified)
      ensures !Accepts(hasher, oldPassword, old(passwordHash)) ==>
                r == Fail(InvalidPassword) && passwordHash == old(passwordHash) && root.events == old(root.events)
      ensures Accepts(hasher, oldPassword, old(passwordHash)) ==>
                r == Pass && passwordHash == hasher.hash(newPassword.value)
                && root.events == old(root.events) + [PasswordChanged(Id())]
    {
      if !hasher.verify(oldPassword.value, passwordHash) {
        return Fail(InvalidPassword);
      }
      SetPassword(newPassword, hasher);
      root.AddEvent(PasswordChanged(Id()));
      r := Pass;
    }
  }
}
