# User account lifecycle of a Laravel REST API, in Dafny

This project models the user controller of a Laravel REST API. The controller
creates accounts, updates them, verifies them by emailed token, resends the
verification mail with retries, and deletes them. Access to each action is
fixed by a table of route middleware.

The model has five modules:

- `Accounts` (accounts.dfy): the account row, the error responses with their
  HTTP status, and the table invariants. The invariants are: a verification
  token is stored exactly while the account is unverified, no two rows share
  an email, and no two rows share a token.
- `Validation` (validation.dfy): the rule lists that `store` and `update`
  pass to the validator, kept as data, with a rule evaluator. `required`
  fails on an absent or blank value; every other rule is skipped on an absent
  value. The framework also skips those rules on a blank value; the model
  evaluates them there, and the reported fields are the same, because
  `required` already fails. Lemmas state, field by field, exactly which inputs
  each list rejects.
- `Guards` (guards.dfy): the middleware registrations of the constructor,
  each with its `only`/`except` list. A request runs the guards that apply
  to its action in registration order, and the first refusal decides.
  `AuthorizeMatchesAccessRule` proves this equal to a per-action access table.
- `Retry` (retry.dfy): the framework's `retry` helper as `resend` calls it,
  as a loop with an attempt counter over an oracle `delivers(k)`. The oracle
  says whether mail attempt k succeeds.
- `UserController` (user_controller.dfy): class `AccountStore` holds the live
  rows `accounts`, the soft-deleted rows `trashed` and the next
  auto-increment id. It has one method per controller action. Each
  state-changing method keeps `Valid()` and states the whole new state; on
  every rejection the state is unchanged.

External collaborators are parameters:

- bcrypt is `hash: string -> Digest`.
- The `email` syntax rule is `isEmail: string -> bool`.
- `User::generateVerificationCode()` is a `token` argument, required to be
  unused by every row.
- `allowedAdminAction()` is the flag `callerIsAdmin`; its refusal is 403.
- Passport tokens, scopes and policy abilities are the fields of `Caller`.
- Mail delivery is the `delivers` oracle.

Two behaviours of `update` are stated as the code has them:

- `update` requires `name`, `email` and `password`
  (app/Http/Controllers/User/UserController.php:448-463), as its OpenAPI
  block also lists them as required (line 341).
- `update` saves a request even when it changes nothing (line 496); there is
  no check that some field differs.

## Model

| member | source | states |
|---|---|---|
| Validation.NameRules | app/Http/Controllers/User/UserController.php:222-226 | the name rules (`string`, `required`, `max:255`, in either order) fail exactly on an absent, blank or longer-than-255 value |
| Validation.EmailRules | app/Http/Controllers/User/UserController.php:227-232 | the email rules fail exactly on an absent, blank, over-long or malformed value, or one some row other than the ignored one holds |
| Validation.PasswordRules | app/Http/Controllers/User/UserController.php:233-237 | the password rules fail exactly on an absent, blank or shorter-than-6 value, or, with `confirmed`, one its confirmation does not equal |
| Validation.StoreValidation | app/Http/Controllers/User/UserController.php:221-238 | `store` reports the name, email and password fields exactly under those conditions, with uniqueness against every row; an accepted request has all three fields |
| Validation.UpdateValidation | app/Http/Controllers/User/UserController.php:448-467 | `update` reports each field exactly when it is absent, blank, over-long, malformed or too short, or when its email is held by a row other than the target; no confirmation is needed, and an accepted request has all three fields |
| Validation.UpdateAcceptsOwnEmail | app/Http/Controllers/User/UserController.php:454-459 | re-submitting the target's own well-formed email passes `update`'s email rules, because the uniqueness rule ignores the target |
| Validation.StoreRefusesStoredEmail | app/Http/Controllers/User/UserController.php:227-232 | `store` rejects an email that any row, live or soft-deleted, already holds |
| Guards.PipelineOf | app/Http/Controllers/User/UserController.php:18-25 | the guards each action runs, in order, as selected by the `only`/`except` lists |
| Guards.AuthorizeMatchesAccessRule | app/Http/Controllers/User/UserController.php:16-26 | `verify` is public; `store` and `resend` need any valid token; every other action needs a user token (else 401), then `manage-account` for show/update/me, `read-general` for index, and the view/update/delete ability for show/update/destroy (else 403) |
| Retry.SendWithRetry | app/Http/Controllers/User/UserController.php:717-719 | makes at least 1 and at most `times` attempts (1 when `times` < 1); stops at the first attempt that delivers; fails only after every allowed attempt failed |
| UserController.AccountStore.LiveEmailsUnique | app/Http/Controllers/User/UserController.php:227-232 | in every valid state, emails are unique among live accounts, and each live account has a token exactly when it is unverified |
| UserController.AccountStore.Index | app/Http/Controllers/User/UserController.php:117-124 | a non-admin caller gets 403; an admin gets every live account and no soft-deleted one |
| UserController.AccountStore.Show | app/Http/Controllers/User/UserController.php:311-314 | returns the bound live account, or 404 when the id is not live |
| UserController.AccountStore.Me | app/Http/Controllers/User/UserController.php:602-605 | returns the authenticated caller's own account, ignoring the path |
| UserController.AccountStore.Store | app/Http/Controllers/User/UserController.php:219-248 | succeeds exactly when validation reports nothing; then inserts, under a new id, an account with the given name and email, the hashed password, unverified, non-admin and holding the fresh token, whatever `verified`/`admin` was sent; otherwise returns 422 (`Accounts.Status`) with the failing fields and changes nothing; keeps the invariants |
| UserController.AccountStore.Update | app/Http/Controllers/User/UserController.php:446-499 | 404 for an id that is not live, then 422, then 403 for an `admin` value from a non-admin caller, then 409 for an `admin` value on an unverified target, each leaving every row unchanged; on success the target gets the new name, hashed password and, if sent, `admin`; a different email makes it unverified with the new token, the same email keeps status and token; `admin` changes only on a target that was verified; keeps the invariants |
| UserController.AccountStore.Verify | app/Http/Controllers/User/UserController.php:649-659 | succeeds exactly when a live account holds the token; that account alone becomes verified with no token; otherwise 404 and nothing changes; afterwards no live account holds the token |
| UserController.AccountStore.Destroy | app/Http/Controllers/User/UserController.php:559-564 | moves a live account to the soft-deleted rows, so the table's rows are unchanged; 404 and no change when the id is not live |
| UserController.AccountStore.Resend | app/Http/Controllers/User/UserController.php:711-722 | 404 for an id that is not live; 409 and no attempt for a verified account; otherwise 1 to 5 attempts that stop at the first delivery; failure only when all 5 fail; no row changes |
| UserController.InsertKeepsWellFormed | app/Http/Controllers/User/UserController.php:240-245 | adding a row with an unused id, email and token, whose token matches its status, keeps the table invariants |
| UserController.ReplaceKeepsWellFormed | app/Http/Controllers/User/UserController.php:469-496 | replacing a row by an update result keeps the table invariants, given that the email is not on another row and the row either keeps status and token or gets a fresh token while unverified |
| UserController.VerifyKeepsWellFormed | app/Http/Controllers/User/UserController.php:653-656 | verifying the row that holds a token and clearing that token keeps the table invariants and leaves no row holding the token |
| UserController.VerifyIsSingleUse | app/Http/Controllers/User/UserController.php:651-656 | a second `verify` with the same token fails with 404 |

## Left out

- The OpenAPI annotation blocks are left out: they are documentation.
- Response shaping is left out because `ApiController` is not part of this
  model. This covers `showOne`, `showAll`, `showMessage` and the error
  envelope. Actions return the row, id or message, or an `Error` whose HTTP
  status is `Accounts.Status`.
- `UserController.AccountStore.Verify` returns the verified account's id
  rather than the confirmation message.
- `transform.input` is a guard that never refuses. The field renaming it
  does is not modelled.
- The global input middleware (string trimming, empty string to null) is not
  part of this model. Blank values are handled by the `required` rule itself.
- The `string` rule always passes, because request values are strings here.
  Non-string JSON values are not modelled.
- A present `admin` key with a null value is not modelled: the request's
  `admin` is absent or a boolean.
- bcrypt's algorithm and salting are left out. Each request gets one `hash`
  function.
- The syntax of the `email` rule is left out. It is the `isEmail` parameter.
- `User::generateVerificationCode()` does not guarantee unused tokens. The
  model assumes one, through a precondition on the `token` argument.
- How Passport validates tokens and scopes and how the policy answers `can:`
  are inputs.
- The framework reorders middleware by priority. Route model binding runs
  between `auth:api` and `can:`. The model checks guards separately
  (`Guards.Authorize`) and decides 404 inside each action. So which error a
  request that fails both a guard and the binding gets is not modelled.
- Emails are compared exactly. A case-insensitive database collation would
  make the `unique` rule case-insensitive; that is not modelled.
- PHP's loose `!=` compares numeric strings numerically. Valid emails are
  never numeric, so the model uses exact comparison.
- The 100 ms wait between mail attempts, the mail's contents and its
  recipient are left out.
- Timestamps (`created_at`, `updated_at`, `deleted_at`) are left out.
  Soft-deleted rows are the `trashed` map.
- tests/Feature/Http/Controllers/Buyer/BuyerControllerTests.php tests a
  Buyer endpoint whose controller is not part of this model.
