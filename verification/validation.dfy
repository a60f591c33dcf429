/**
 * Request validation of `store` and `update`: each field has a list of
 * rules, a rule other than `required` is skipped when the field is absent,
 * and a field is reported when any of its rules fails. The rule lists are
 * data, as in the controller; the lemmas say what they accept.
 */
module Validation {
  import opened Accounts

  /** Body of `POST /users`. `verified` and `admin` may be sent but are never used. */
  datatype CreateRequest = CreateRequest(
    name: Option<string>,
    email: Option<string>,
    password: Option<string>,
    passwordConfirmation: Option<string>,
    verified: Option<bool>,
    admin: Option<bool>)
  {
    function Input(f: Field): Option<string>
    {
      match f
      case NameField => name
      case EmailField => email
      case PasswordField => password
    }
  }

  /** Body of `PUT /users/{user}`; `admin` is None when the key is absent. */
  datatype UpdateRequest = UpdateRequest(
    name: Option<string>,
    email: Option<string>,
    password: Option<string>,
    admin: Option<bool>)
  {
    function Input(f: Field): Option<string>
    {
      match f
      case NameField => name
      case EmailField => email
      case PasswordField => password
    }
  }

  /** The validation rules the controller uses. */
  datatype Rule =
    | Required                       // 'required'
    | Text                           // 'string'
    | MaxChars(n: nat)               // 'max:n' on a string
    | MinChars(n: nat)               // 'min:n' on a string
    | EmailSyntax                    // 'email'
    | UniqueEmail(ignore: Option<Id>) // 'unique:users', optionally ignoring one row
    | Confirmed                      // 'confirmed'

  /** What rules may look at besides the field's own value. */
  datatype Context = Context(
    rows: map<Id, Account>,
    isEmail: string -> bool,
    confirmation: Option<string>)

  /** The characters PHP's `trim` removes. */
  predicate Trimmed(c: char)
  {
    c == ' ' || c == '\t' || c == '\n' || c == '\r' || c == '\0' || c == '\U{B}'
  }

  predicate Blank(s: string)
  {
    forall i :: 0 <= i < |s| ==> Trimmed(s[i])
  }

  /** A value that passes 'required': present and not blank. */
  predicate Filled(v: Option<string>)
  {
    v.Some? && !Blank(v.value)
  }

  /** Some row other than `ignore` already has `email`. */
  predicate EmailTaken(rows: map<Id, Account>, email: string, ignore: Option<Id>)
  {
    exists i :: i in rows && Some(i) != ignore && rows[i].email == email
  }

  predicate Passes(rule: Rule, v: Option<string>, ctx: Context)
  {
    if v.None? then !rule.Required?
    else
      var s := v.value;
      match rule
      case Required => !Blank(s)
      case Text => true
      case MaxChars(n) => |s| <= n
      case MinChars(n) => |s| >= n
      case EmailSyntax => ctx.isEmail(s)
      case UniqueEmail(ignore) => !EmailTaken(ctx.rows, s, ignore)
      case Confirmed => ctx.confirmation == Some(s)
  }

  /** Some rule of `rules` fails on `v`. */
  predicate Failing(rules: seq<Rule>, v: Option<string>, ctx: Context)
  {
    if rules == [] then false else !Passes(rules[0], v, ctx) || Failing(rules[1..], v, ctx)
  }

  function StoreRules(): map<Field, seq<Rule>>
  {
    map[
      NameField := [Text, Required, MaxChars(255)],
      EmailField := [Required, MaxChars(255), EmailSyntax, UniqueEmail(None)],
      PasswordField := [Required, MinChars(6), Confirmed]
    ]
  }

  /** The 'admin' => ['nullable'] entry imposes nothing and is left out. */
  function UpdateRules(target: Id): map<Field, seq<Rule>>
  {
    map[
      NameField := [Required, Text, MaxChars(255)],
      EmailField := [Required, MaxChars(255), EmailSyntax, UniqueEmail(Some(target))],
      PasswordField := [Required, MinChars(6)]
    ]
  }

  function StoreErrors(req: CreateRequest, rows: map<Id, Account>, isEmail: string -> bool): set<Field>
  {
    var ctx := Context(rows, isEmail, req.passwordConfirmation);
    set f | f in StoreRules() && Failing(StoreRules()[f], req.Input(f), ctx)
  }

  function UpdateErrors(req: UpdateRequest, target: Id, rows: map<Id, Account>, isEmail: string -> bool): set<Field>
  {
    var ctx := Context(rows, isEmail, None);
    set f | f in UpdateRules(target) && Failing(UpdateRules(target)[f], req.Input(f), ctx)
  }

  lemma {:induction false} FailingCons(r: Rule, rest: seq<Rule>, v: Option<string>, ctx: Context)
    ensures Failing([r] + rest, v, ctx) == (!Passes(r, v, ctx) || Failing(rest, v, ctx))
  {
    assert ([r] + rest)[1..] == rest;
  }

  /** A name fails `[..., Required, ..., MaxChars(255)]` when absent, blank or too long. */
  lemma {:induction false} NameRules(rules: seq<Rule>, v: Option<string>, ctx: Context)
    requires rules == [Text, Required, MaxChars(255)] || rules == [Required, Text, MaxChars(255)]
    ensures Failing(rules, v, ctx) <==> !Filled(v) || |v.value| > 255
  {
    FailingCons(rules[0], rules[1..], v, ctx);
    assert [rules[0]] + rules[1..] == rules;
    FailingCons(rules[1], rules[2..], v, ctx);
    assert [rules[1]] + rules[2..] == rules[1..];
    FailingCons(rules[2], [], v, ctx);
    assert [rules[2]] + [] == rules[2..];
  }

  lemma {:induction false} EmailRules(ignore: Option<Id>, v: Option<string>, ctx: Context)
    ensures Failing([Required, MaxChars(255), EmailSyntax, UniqueEmail(ignore)], v, ctx) <==>
      !Filled(v) || |v.value| > 255 || !ctx.isEmail(v.value) || EmailTaken(ctx.rows, v.value, ignore)
  {
    FailingCons(Required, [MaxChars(255), EmailSyntax, UniqueEmail(ignore)], v, ctx);
    FailingCons(MaxChars(255), [EmailSyntax, UniqueEmail(ignore)], v, ctx);
    FailingCons(EmailSyntax, [UniqueEmail(ignore)], v, ctx);
    FailingCons(UniqueEmail(ignore), [], v, ctx);
  }

  lemma {:induction false} PasswordRules(confirmed: bool, v: Option<string>, ctx: Context)
    ensures Failing(if confirmed then [Required, MinChars(6), Confirmed] else [Required, MinChars(6)], v, ctx) <==>
      !Filled(v) || |v.value| < 6 || (confirmed && ctx.confirmation != v)
  {
    FailingCons(Required, [MinChars(6), Confirmed], v, ctx);
    FailingCons(Required, [MinChars(6)], v, ctx);
    FailingCons(MinChars(6), [Confirmed], v, ctx);
    FailingCons(MinChars(6), [], v, ctx);
    FailingCons(Confirmed, [], v, ctx);
  }

  /**
   * `store` reports exactly these fields: a missing, blank or over-long name;
   * a missing, blank, over-long, malformed or already stored email; and a
   * missing, blank or short password or one its confirmation does not match.
   */
  lemma StoreValidation(req: CreateRequest, rows: map<Id, Account>, isEmail: string -> bool)
    ensures NameField in StoreErrors(req, rows, isEmail) <==>
      !Filled(req.name) || |req.name.value| > 255
    ensures EmailField in StoreErrors(req, rows, isEmail) <==>
      !Filled(req.email) || |req.email.value| > 255 || !isEmail(req.email.value)
      || EmailTaken(rows, req.email.value, None)
    ensures PasswordField in StoreErrors(req, rows, isEmail) <==>
      !Filled(req.password) || |req.password.value| < 6
      || req.passwordConfirmation != req.password
    ensures StoreErrors(req, rows, isEmail) == {} ==>
      req.name.Some? && req.email.Some? && req.password.Some?
  {
    var ctx := Context(rows, isEmail, req.passwordConfirmation);
    NameRules(StoreRules()[NameField], req.name, ctx);
    EmailRules(None, req.email, ctx);
    PasswordRules(true, req.password, ctx);
    if StoreErrors(req, rows, isEmail) == {} {
      assert NameField !in StoreErrors(req, rows, isEmail);
      assert EmailField !in StoreErrors(req, rows, isEmail);
      assert PasswordField !in StoreErrors(req, rows, isEmail);
    }
  }

  /**
   * `update` reports exactly these fields: a missing, blank or over-long name;
   * a missing, blank, over-long or malformed email, or one stored on a row
   * other than the target; and a missing, blank or short password.
   */
  lemma UpdateValidation(req: UpdateRequest, target: Id, rows: map<Id, Account>, isEmail: string -> bool)
    ensures NameField in UpdateErrors(req, target, rows, isEmail) <==>
      !Filled(req.name) || |req.name.value| > 255
    ensures EmailField in UpdateErrors(req, target, rows, isEmail) <==>
      !Filled(req.email) || |req.email.value| > 255 || !isEmail(req.email.value)
      || EmailTaken(rows, req.email.value, Some(target))
    ensures PasswordField in UpdateErrors(req, target, rows, isEmail) <==>
      !Filled(req.password) || |req.password.value| < 6
    ensures UpdateErrors(req, target, rows, isEmail) == {} ==>
      req.name.Some? && req.email.Some? && req.password.Some?
  {
    var ctx := Context(rows, isEmail, None);
    NameRules(UpdateRules(target)[NameField], req.name, ctx);
    EmailRules(Some(target), req.email, ctx);
    PasswordRules(false, req.password, ctx);
    if UpdateErrors(req, target, rows, isEmail) == {} {
      assert NameField !in UpdateErrors(req, target, rows, isEmail);
      assert EmailField !in UpdateErrors(req, target, rows, isEmail);
      assert PasswordField !in UpdateErrors(req, target, rows, isEmail);
    }
  }

  /** Re-submitting the target's own, well-formed email passes `update`'s email rules. */
  lemma UpdateAcceptsOwnEmail(req: UpdateRequest, target: Id, rows: map<Id, Account>, isEmail: string -> bool)
    requires EmailsUnique(rows)
    requires target in rows && req.email == Some(rows[target].email)
    requires !Blank(rows[target].email) && |rows[target].email| <= 255 && isEmail(rows[target].email)
    ensures EmailField !in UpdateErrors(req, target, rows, isEmail)
  {
    UpdateValidation(req, target, rows, isEmail);
  }

  /** By contrast, `store` refuses an email that any row, live or soft-deleted, holds. */
  lemma StoreRefusesStoredEmail(req: CreateRequest, rows: map<Id, Account>, isEmail: string -> bool, holder: Id)
    requires holder in rows && req.email == Some(rows[holder].email)
    ensures EmailField in StoreErrors(req, rows, isEmail)
  {
    StoreValidation(req, rows, isEmail);
  }
}
