/**
 * The user controller's actions over the `users` table. `accounts` holds the
 * live rows and `trashed` the soft-deleted ones: route model binding and
 * `User::where` see only live rows, while the `unique` validation rule
 * queries the whole table.
 */
module UserController {
  import opened Accounts
  import opened Validation
  import Retry

  const TOKEN_RESENT := "The verification token has been resend"

  class AccountStore {
    var accounts: map<Id, Account>
    var trashed: map<Id, Account>
    var nextId: nat

    /** Every row of the table, live or soft-deleted. */
    function Rows(): map<Id, Account>
      reads this
    {
      accounts + trashed
    }

    ghost predicate Valid()
      reads this
    {
      && accounts.Keys !! trashed.Keys
      && (forall i :: i in accounts ==> i < nextId)
      && (forall i :: i in trashed ==> i < nextId)
      && WellFormed(Rows())
    }

    /** Emails are unique among the live accounts (indeed among all rows). */
    lemma LiveEmailsUnique()
      requires Valid()
      ensures EmailsUnique(accounts)
      ensures forall i :: i in accounts ==> TokenMatchesStatus(accounts[i])
    {
      forall i, j | i in accounts && j in accounts && i != j
        ensures accounts[i].email != accounts[j].email
      {
        assert Rows()[i] == accounts[i] && Rows()[j] == accounts[j];
      }
      forall i | i in accounts
        ensures TokenMatchesStatus(accounts[i])
      {
        assert Rows()[i] == accounts[i];
      }
    }

    constructor ()
      ensures Valid()
      ensures accounts == map[] && trashed == map[] && nextId == 0
    {
      accounts := map[];
      trashed := map[];
      nextId := 0;
    }

    /** `index`: only an administrator may list the live accounts. */
    method Index(callerIsAdmin: bool) returns (r: Result<map<Id, Account>, Error>)
      ensures r.Success? <==> callerIsAdmin
      ensures r.Success? ==> r.value == accounts
      ensures r.Failure? ==> r.error == Forbidden
    {
      if !callerIsAdmin {
        return Failure(Forbidden);
      }
      r := Success(accounts);
    }

    /** `show`: the bound live account, or 404. */
    method Show(id: Id) returns (r: Result<Account, Error>)
      ensures r.Success? <==> id in accounts
      ensures r.Success? ==> r.value == accounts[id]
      ensures r.Failure? ==> r.error == NotFound
    {
      if id !in accounts {
        return Failure(NotFound);
      }
      r := Success(accounts[id]);
    }

    /** `me`: the authenticated caller's own account, whatever the path says. */
    method Me(caller: Id, pathId: Id) returns (a: Account)
      requires caller in accounts
      ensures a == accounts[caller]
    {
      a := accounts[caller];
    }

    /**
     * `store`: validate, then create an unverified, non-administrator account
     * with a fresh token and the hashed password, whatever `verified` and
     * `admin` the request carried. A rejected request changes nothing.
     */
    method Store(req: CreateRequest, token: string, hash: string -> Digest, isEmail: string -> bool)
      returns (r: Result<Id, Error>)
      requires Valid()
      requires TokenUnused(Rows(), token)
      modifies this
      ensures Valid()
      ensures r.Success? <==> StoreErrors(req, old(Rows()), isEmail) == {}
      ensures r.Failure? ==>
        r.error == Invalid(StoreErrors(req, old(Rows()), isEmail))
        && accounts == old(accounts) && trashed == old(trashed) && nextId == old(nextId)
      ensures r.Failure? ==> Status(r.error) == 422
      ensures r.Success? ==>
        && r.value == old(nextId) && r.value !in old(Rows())
        && req.name.Some? && req.email.Some? && req.password.Some?
        && accounts == old(accounts)[r.value := Account(
             name := req.name.value,
             email := req.email.value,
             passwordHash := hash(req.password.value),
             verified := false,
             verificationToken := Some(token),
             admin := false)]
        && trashed == old(trashed) && nextId == old(nextId) + 1
    {
      var errs := StoreErrors(req, Rows(), isEmail);
      if errs != {} {
        return Failure(Invalid(errs));
      }
      StoreValidation(req, Rows(), isEmail);
      var user := Account(
        name := req.name.value,
        email := req.email.value,
        passwordHash := hash(req.password.value),
        verified := false,
        verificationToken := Some(token),
        admin := false);
      var id := nextId;
      assert id !in Rows();
      InsertKeepsWellFormed(Rows(), id, user);
      assert (accounts + trashed)[id := user] == accounts[id := user] + trashed;
      accounts := accounts[id := user];
      nextId := nextId + 1;
      r := Success(id);
    }

    /**
     * `update`: validate; assign name and password; an `admin` value needs an
     * administrator caller (403) and a verified target (409); a new email makes
     * the account unverified with a new token. Any early return skips `save`,
     * so a rejected request leaves every row as it was.
     */
    method Update(id: Id, req: UpdateRequest, callerIsAdmin: bool, token: string,
                  hash: string -> Digest, isEmail: string -> bool)
      returns (r: Result<Account, Error>)
      requires Valid()
      requires TokenUnused(Rows(), token)
      modifies this
      ensures Valid()
      ensures trashed == old(trashed) && nextId == old(nextId)
      ensures r.Failure? ==> accounts == old(accounts)
      ensures r.Failure? ==>
        Status(r.error) ==
          if id !in old(accounts) then 404
          else if UpdateErrors(req, id, old(Rows()), isEmail) != {} then 422
          else if !callerIsAdmin then 403
          else 409
      ensures id !in old(accounts) ==> r == Failure(NotFound)
      ensures id in old(accounts) ==>
        var errs := UpdateErrors(req, id, old(Rows()), isEmail);
        var before := old(accounts)[id];
        && (errs != {} ==> r == Failure(Invalid(errs)))
        && (errs == {} && req.admin.Some? && !callerIsAdmin ==> r == Failure(Forbidden))
        && (errs == {} && req.admin.Some? && callerIsAdmin && !before.verified ==>
              r == Failure(Conflict(ADMIN_NEEDS_VERIFIED)))
        && (r.Success? <==> errs == {} && (req.admin.None? || (callerIsAdmin && before.verified)))
      ensures r.Success? ==>
        var before := old(accounts)[id];
        var after := r.value;
        && id in old(accounts)
        && accounts == old(accounts)[id := after]
        && req.name == Some(after.name)
        && req.email == Some(after.email)
        && req.password.Some? && after.passwordHash == hash(req.password.value)
        && after.admin == (if req.admin.Some? then req.admin.value else before.admin)
        && (after.email != before.email ==> !after.verified && after.verificationToken == Some(token))
        && (after.email == before.email ==>
              after.verified == before.verified && after.verificationToken == before.verificationToken)
      ensures r.Success? && r.value.admin != old(accounts)[id].admin ==> old(accounts)[id].verified
    {
      if id !in accounts {
        return Failure(NotFound);
      }
      var errs := UpdateErrors(req, id, Rows(), isEmail);
      if errs != {} {
        return Failure(Invalid(errs));
      }
      UpdateValidation(req, id, Rows(), isEmail);
      var user := accounts[id];
      user := user.(name := req.name.value);
      user := user.(passwordHash := hash(req.password.value));
      if req.admin.Some? {
        if !callerIsAdmin {
          return Failure(Forbidden);
        }
        if !user.verified {
          return Failure(Conflict(ADMIN_NEEDS_VERIFIED));
        }
        user := user.(admin := req.admin.value);
      }
      if user.email != req.email.value {
        user := user.(verified := false);
        user := user.(verificationToken := Some(token));
        user := user.(email := req.email.value);
      }
      ReplaceKeepsWellFormed(Rows(), id, user, token);
      assert (accounts + trashed)[id := user] == accounts[id := user] + trashed;
      accounts := accounts[id := user];
      r := Success(user);
    }

    /**
     * `verify`: the live account holding `token` becomes verified and loses
     * its token; with no such account, 404 and nothing changes. Afterwards no
     * live account holds `token`, so the same token cannot verify twice.
     */
    method Verify(token: string) returns (r: Result<Id, Error>)
      requires Valid()
      modifies this
      ensures Valid()
      ensures trashed == old(trashed) && nextId == old(nextId)
      ensures r.Success? <==>
        exists i :: i in old(accounts) && old(accounts)[i].verificationToken == Some(token)
      ensures r.Failure? ==> r.error == NotFound && accounts == old(accounts)
      ensures r.Success? ==>
        && r.value in old(accounts)
        && old(accounts)[r.value].verificationToken == Some(token)
        && accounts == old(accounts)[r.value := old(accounts)[r.value].(verified := true, verificationToken := None)]
      ensures forall i :: i in accounts ==> accounts[i].verificationToken != Some(token)
    {
      if !exists i :: i in accounts && accounts[i].verificationToken == Some(token) {
        return Failure(NotFound);
      }
      var id :| id in accounts && accounts[id].verificationToken == Some(token);
      ghost var rows := Rows();
      var user := accounts[id];
      user := user.(verified := true);
      user := user.(verificationToken := None);
      assert rows[id] == accounts[id];
      VerifyKeepsWellFormed(rows, id, token);
      assert rows[id := user] == accounts[id := user] + trashed;
      accounts := accounts[id := user];
      assert Rows() == rows[id := user];
      forall i | i in accounts
        ensures accounts[i].verificationToken != Some(token)
      {
        assert Rows()[i] == accounts[i];
      }
      r := Success(id);
    }

    /** `destroy`: move the bound live account to the soft-deleted rows, or 404. */
    method Destroy(id: Id) returns (r: Result<(), Error>)
      requires Valid()
      modifies this
      ensures Valid()
      ensures nextId == old(nextId) && Rows() == old(Rows())
      ensures id !in old(accounts) ==>
        r == Failure(NotFound) && accounts == old(accounts) && trashed == old(trashed)
      ensures id in old(accounts) ==>
        && r == Success(())
        && accounts == old(accounts) - {id}
        && trashed == old(trashed)[id := old(accounts)[id]]
    {
      if id !in accounts {
        return Failure(NotFound);
      }
      var user := accounts[id];
      assert (accounts - {id}) + trashed[id := user] == accounts + trashed;
      accounts := accounts - {id};
      trashed := trashed[id := user];
      r := Success(());
    }

    /**
     * `resend`: 409 and no mail for a verified account; otherwise the mail is
     * tried at most five times, and only when all five fail is the outcome an
     * error. No row changes.
     */
    method Resend(id: Id, delivers: nat -> bool) returns (r: Result<string, Error>, attempts: nat)
      ensures id !in accounts ==> r == Failure(NotFound) && attempts == 0
      ensures id in accounts && accounts[id].verified ==>
        r == Failure(Conflict(ALREADY_VERIFIED)) && attempts == 0
      ensures id in accounts && !accounts[id].verified ==>
        && 1 <= attempts <= Retry.RESEND_ATTEMPTS
        && (forall k :: 1 <= k < attempts ==> !delivers(k))
        && (r.Success? <==> delivers(attempts))
        && (r.Success? ==> r.value == TOKEN_RESENT)
        && (r.Failure? ==> r.error == DispatchFailed && attempts == Retry.RESEND_ATTEMPTS)
      ensures r.Failure? ==>
        Status(r.error) == if id !in accounts then 404 else if accounts[id].verified then 409 else 500
    {
      if id !in accounts {
        return Failure(NotFound), 0;
      }
      if accounts[id].verified {
        return Failure(Conflict(ALREADY_VERIFIED)), 0;
      }
      var sent;
      sent, attempts := Retry.SendWithRetry(Retry.RESEND_ATTEMPTS, delivers);
      if !sent {
        return Failure(DispatchFailed), attempts;
      }
      r := Success(TOKEN_RESENT);
    }
  }

  /** Adding a row with an unused id, email and token keeps the table well formed. */
  lemma InsertKeepsWellFormed(rows: map<Id, Account>, id: Id, a: Account)
    requires WellFormed(rows) && id !in rows
    requires !EmailTaken(rows, a.email, None)
    requires a.verificationToken.Some? ==> TokenUnused(rows, a.verificationToken.value)
    requires TokenMatchesStatus(a)
    ensures WellFormed(rows[id := a])
  {
    var rows' := rows[id := a];
    forall i, j | i in rows' && j in rows' && i != j
      ensures rows'[i].email != rows'[j].email
    {
      if i == id {
        assert rows[j].email != a.email;
      } else if j == id {
        assert rows[i].email != a.email;
      }
    }
  }

  /**
   * Replacing the row `id` by an update's result keeps the table well formed,
   * given that the new email is not on another row and that the account
   * either keeps its email, status and token or gets a fresh token.
   */
  lemma ReplaceKeepsWellFormed(rows: map<Id, Account>, id: Id, a: Account, token: string)
    requires WellFormed(rows) && id in rows
    requires !EmailTaken(rows, a.email, Some(id))
    requires TokenUnused(rows, token)
    requires
      || (a.verified == rows[id].verified && a.verificationToken == rows[id].verificationToken)
      || (!a.verified && a.verificationToken == Some(token))
    ensures WellFormed(rows[id := a])
  {
    var rows' := rows[id := a];
    forall i, j | i in rows' && j in rows' && i != j
      ensures rows'[i].email != rows'[j].email
    {
      if i == id {
        assert rows[j].email != a.email;
      } else if j == id {
        assert rows[i].email != a.email;
      }
    }
    forall i, j | i in rows' && j in rows' && i != j && rows'[i].verificationToken.Some?
      ensures rows'[i].verificationToken != rows'[j].verificationToken
    {
      if i == id && a.verificationToken != rows[id].verificationToken {
        assert rows[j].verificationToken != Some(token);
      } else if j == id && a.verificationToken != rows[id].verificationToken {
        assert rows[i].verificationToken != Some(token);
      }
    }
  }

  /**
   * Marking the row that holds `token` verified and clearing its token keeps
   * the table well formed, and leaves no row holding `token`.
   */
  lemma VerifyKeepsWellFormed(rows: map<Id, Account>, id: Id, token: string)
    requires WellFormed(rows) && id in rows && rows[id].verificationToken == Some(token)
    ensures WellFormed(rows[id := rows[id].(verified := true, verificationToken := None)])
    ensures TokenUnused(rows[id := rows[id].(verified := true, verificationToken := None)], token)
  {
    var rows' := rows[id := rows[id].(verified := true, verificationToken := None)];
    forall i | i in rows'
      ensures rows'[i].verificationToken != Some(token)
    {
      if i != id {
        assert rows[i].verificationToken != rows[id].verificationToken;
      }
    }
  }

  /** A verification token is single-use: the second `verify` with it fails with 404. */
  method VerifyIsSingleUse(store: AccountStore, token: string) returns (first: Result<Id, Error>, second: Result<Id, Error>)
    requires store.Valid()
    modifies store
    ensures store.Valid()
    ensures second == Failure(NotFound)
  {
    first := store.Verify(token);
    second := store.Verify(token);
  }
}
