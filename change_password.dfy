/**
 * `ChangePasswordHandler.handle`: the command's guards, then, inside the
 * auth unit of work, fetch the account, change its password, update it and
 * commit, so that the account's `PasswordChanged` event reaches the outbox.
 */
module ChangePassword {
  import opened Wrappers
  import opened Errors
  import opened Externals
  import opened ValueObjects
  import opened DomainEvents
  import opened AggregateRegistry
  import opened Primitives
  import opened OutboxRecords
  import opened UnitOfWork
  import opened Accounts

  /** An account table row. */
  datatype AccountRow = AccountRow(email: Email, passwordHash: string, isVerified: bool, isSuperuser: bool)

  /** `_to_model`: the row an account is stored as. */
  function RowOf(a: Account): AccountRow
    reads a
  {
    AccountRow(a.email, a.passwordHash, a.isVerified, a.isSuperuser)
  }

  /** The auth unit of work's account repository. */
  class AccountRepository {
    const aggregates: AggregateRegistry
    var rows: map<Uuid, AccountRow>

    constructor (aggregates: AggregateRegistry, rows: map<Uuid, AccountRow>)
      ensures this.aggregates == aggregates && this.rows == rows
    {
      this.aggregates := aggregates;
      this.rows := rows;
    }

    /** `get_by_id`: a fresh aggregate rebuilt from the row, with no pending events, or `None`. */
    method GetById(id: Uuid) returns (a: Account?)
      ensures id !in rows ==> a == null
      ensures id in rows ==> a != null && fresh(a) && fresh(a.root) && a.Valid()
                             && a.Id() == id && RowOf(a) == rows[id] && a.root.events == []
    {
      if id !in rows {
        return null;
      }
      var row := rows[id];
      a := new Account(id, row.email, row.passwordHash, row.isVerified, row.isSuperuser);
    }

    /** `update`: writes the account's row and enrols the aggregate for the next commit. */
    method Update(a: Account)
      requires aggregates.Valid()
      modifies this, aggregates
      ensures aggregates.Valid()
      ensures rows == old(rows)[a.Id() := RowOf(a)]
      ensures aggregates.aggregates == Added(old(aggregates.aggregates), a.root)
    {
      aggregates.Register(a.root);
      rows := rows[a.Id() := RowOf(a)];
    }
  }

  datatype ChangePasswordCommand = ChangePasswordCommand(
    accountId: Uuid, oldPassword: string, newPassword: string, confirmNewPassword: string)

  /** The command passes every check made before the unit of work is opened. */
  predicate PassesGuards(cmd: ChangePasswordCommand) {
    && cmd.oldPassword != cmd.newPassword
    && cmd.newPassword == cmd.confirmNewPassword
    && |cmd.oldPassword| >= MinPasswordLength
    && |cmd.newPassword| >= MinPasswordLength
  }

  class ChangePasswordHandler {
    const uow: SqlAlchemyUnitOfWork
    const accounts: AccountRepository
    const hasher: Hasher

    ghost predicate Valid()
      reads this, uow, uow.aggregates, uow.registry, accounts
    {
      uow.Valid() && accounts.aggregates == uow.aggregates
    }

    constructor (uow: SqlAlchemyUnitOfWork, accounts: AccountRepository, hasher: Hasher)
      requires uow.Valid() && accounts.aggregates == uow.aggregates
      ensures Valid() && this.uow == uow && this.accounts == accounts && this.hasher == hasher
    {
      this.uow := uow;
      this.accounts := accounts;
      this.hasher := hasher;
    }

    /**
     * `handle`. Failed guards change nothing and are reported in order:
     * equal passwords, a mismatched confirmation, then a weak password.
     */
    method Handle(cmd: ChangePasswordCommand, now: int, sessionCommit: Outcome<Error>) returns (r: Outcome<Error>)
      requires Valid()
      modifies uow, uow.store, uow.aggregates, uow.aggregates.aggregates, accounts
      ensures Valid()
      ensures cmd.oldPassword == cmd.newPassword ==> r == Fail(PasswordMustBeDifferent)
      ensures cmd.oldPassword != cmd.newPassword && cmd.newPassword != cmd.confirmNewPassword ==>
                r == Fail(PasswordsDoNotMatch)
      ensures (cmd.oldPassword != cmd.newPassword && cmd.newPassword == cmd.confirmNewPassword
               && !PassesGuards(cmd)) ==> r == Fail(PasswordTooWeak)
      ensures !PassesGuards(cmd) ==>
                && uow.hasSession == old(uow.hasSession) && uow.added == old(uow.added)
                && uow.store.rows == old(uow.store.rows) && accounts.rows == old(accounts.rows)
                && uow.aggregates.aggregates == old(uow.aggregates.aggregates)
      ensures PassesGuards(cmd) ==> Changed(cmd.accountId, cmd.oldPassword, cmd.newPassword, now, sessionCommit, r)
    {
      if cmd.oldPassword == cmd.newPassword {
        return Fail(PasswordMustBeDifferent);
      }
      if cmd.newPassword != cmd.confirmNewPassword {
        return Fail(PasswordsDoNotMatch);
      }
      var oldPassword := NewPlainPassword(cmd.oldPassword);
      if oldPassword.Failure? {
        return Fail(oldPassword.error);
      }
      var newPassword := NewPlainPassword(cmd.newPassword);
      if newPassword.Failure? {
        return Fail(newPassword.error);
      }
      r := ChangeWithinUnitOfWork(cmd.accountId, oldPassword.value, newPassword.value, now, sessionCommit);
    }

    /**
     * What the unit-of-work block of `handle` does, as a relation between
     * the state before it and after it: a missing account or a wrong old
     * password fail with nothing stored; otherwise the new hash is stored
     * and the commit's outcome is the result, and when the aggregate
     * registry started empty a successful commit appends exactly the
     * account's `PasswordChanged` row to the outbox.
     */
    twostate predicate Changed(accountId: Uuid, oldPassword: string, newPassword: string, now: int,
                               sessionCommit: Outcome<Error>, new r: Outcome<Error>)
      reads this, uow, uow.store, uow.aggregates, uow.registry, accounts
    {
      var rows := old(accounts.rows);
      var accepted := accountId in rows && hasher.verify(oldPassword, rows[accountId].passwordHash);
      && (accountId !in rows ==> r == Fail(AccountDoesNotExist))
      && (accountId in rows && !accepted ==> r == Fail(InvalidPassword))
      && (!accepted ==> accounts.rows == rows)
      && (r.Fail? ==> uow.store.rows == old(uow.store.rows))
      && (accepted ==>
            && r == sessionCommit
            && accounts.rows == rows[accountId := rows[accountId].(passwordHash := hasher.hash(newPassword))])
      && (r.Pass? && old(uow.aggregates.aggregates) == {} ==>
            uow.store.rows == old(uow.store.rows)
              + [NewRecord(uow.registry.nameOf(PasswordChangedClass), ToDict(PasswordChanged(accountId), uow.codecs), now)])
    }

    /** The `async with self._uow:` block of `handle`. */
    method ChangeWithinUnitOfWork(accountId: Uuid, oldPassword: PlainPassword, newPassword: PlainPassword,
                                  now: int, sessionCommit: Outcome<Error>) returns (r: Outcome<Error>)
      requires Valid()
      modifies uow, uow.store, uow.aggregates, uow.aggregates.aggregates, accounts
      ensures Valid()
      ensures Changed(accountId, oldPassword.value, newPassword.value, now, sessionCommit, r)
    {
      uow.Enter();
      var account := accounts.GetById(accountId);
      if account == null {
        var _ := uow.Exit(true);
        return Fail(AccountDoesNotExist);
      }
      r := account.ChangePassword(oldPassword, newPassword, hasher);
      if r.Fail? {
        var _ := uow.Exit(true);
        return r;
      }
      accounts.Update(account);
      ghost var lone := old(uow.aggregates.aggregates) == {};
      if lone {
        assert uow.aggregates.aggregates == {account.root};
      }
      r := CommitAndExit(account.root, lone, now, sessionCommit);
      if r.Pass? && lone {
        assert uow.store.rows == old(uow.store.rows)
          + OutboxRows([PasswordChanged(accountId)], uow.registry.nameOf, uow.codecs, now);
      }
    }

    /**
     * The end of the `async with` block: `commit`, then `__aexit__`, which
     * rolls back only when the commit raised. When `root` is the only
     * registered aggregate, a successful commit appends exactly the rows of
     * the events it held.
     */
    method CommitAndExit(ghost root: AggregateRoot, ghost lone: bool, now: int, sessionCommit: Outcome<Error>)
      returns (r: Outcome<Error>)
      requires Valid() && uow.hasSession
      requires lone ==> uow.aggregates.aggregates == {root}
      modifies uow, uow.store, uow.aggregates, uow.aggregates.aggregates
      ensures Valid()
      ensures r == sessionCommit
      ensures r.Fail? ==> uow.store.rows == old(uow.store.rows)
      ensures r.Pass? && lone ==>
                uow.store.rows == old(uow.store.rows) + old(uow.added)
                  + OutboxRows(old(root.events), uow.registry.nameOf, uow.codecs, now)
    {
      ghost var drained, order, queues;
      r, drained, order, queues := uow.Commit(now, sessionCommit);
      if r.Fail? {
        var _ := uow.Exit(true);
        return;
      }
      if lone {
        DrainOfOneAggregate(order, root, queues);
      }
      var _ := uow.Exit(false);
    }
  }
}
