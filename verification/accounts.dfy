/**
 * The account record of the `users` table, the error outcomes of the user
 * controller, and the invariants that every table state reached through the
 * controller keeps.
 */
module Accounts {

  /** Primary key of a row of the `users` table (auto-increment). */
  type Id = nat

  /** A stored password hash; the hashing algorithm itself is not modelled. */
  type Digest = string

  datatype Option<+T> = None | Some(value: T)

  datatype Result<+R, +E> = Success(value: R) | Failure(error: E)

  /** One row of the `users` table, as far as the account lifecycle uses it. */
  datatype Account = Account(
    name: string,
    email: string,
    passwordHash: Digest,
    verified: bool,
    verificationToken: Option<string>,
    admin: bool)

  /** The request fields that the controller validates. */
  datatype Field = NameField | EmailField | PasswordField

  /** The error responses the controller produces, with their HTTP status. */
  datatype Error =
    | Invalid(fields: set<Field>)   // 422, the fields whose rules failed
    | Unauthenticated               // 401
    | Forbidden                     // 403
    | NotFound                      // 404
    | Conflict(message: string)     // 409
    | DispatchFailed                // 500, every mail attempt failed

  function Status(e: Error): nat
  {
    match e
    case Invalid(_) => 422
    case Unauthenticated => 401
    case Forbidden => 403
    case NotFound => 404
    case Conflict(_) => 409
    case DispatchFailed => 500
  }

  const ADMIN_NEEDS_VERIFIED := "Only verified users can modify the admin field."
  const ALREADY_VERIFIED := "This user is already verified"

  /** A token is stored exactly while the account is unverified. */
  predicate TokenMatchesStatus(a: Account)
  {
    a.verificationToken.Some? <==> !a.verified
  }

  /** No two rows share an email. */
  ghost predicate EmailsUnique(rows: map<Id, Account>)
  {
    forall i, j :: i in rows && j in rows && i != j ==> rows[i].email != rows[j].email
  }

  /** No two rows hold the same verification token. */
  ghost predicate TokensUnique(rows: map<Id, Account>)
  {
    forall i, j :: i in rows && j in rows && i != j && rows[i].verificationToken.Some? ==>
      rows[i].verificationToken != rows[j].verificationToken
  }

  /** No row holds `token`: what a freshly generated verification code must satisfy. */
  ghost predicate TokenUnused(rows: map<Id, Account>, token: string)
  {
    forall i :: i in rows ==> rows[i].verificationToken != Some(token)
  }

  /** The invariants every table state reached through the controller keeps. */
  ghost predicate WellFormed(rows: map<Id, Account>)
  {
    && EmailsUnique(rows)
    && TokensUnique(rows)
    && (forall i :: i in rows ==> TokenMatchesStatus(rows[i]))
  }
}
