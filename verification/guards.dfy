/**
 * The route middleware the controller's constructor registers: each entry is
 * a guard with an `only` or `except` list of actions. A request to an action
 * runs, in registration order, the guards whose list admits the action; the
 * first guard that refuses decides the response.
 */
module Guards {
  import opened Accounts

  /** The controller's actions, named after its public methods. */
  datatype Action = Index | Store | Show | Update | Destroy | Me | Verify | Resend

  /** The policy abilities checked by `can:view,user`, `can:update,user`, `can:delete,user`. */
  datatype Ability = View | Edit | Delete

  datatype Guard =
    | ClientCredentials     // 'client.credentials'
    | AuthApi               // 'auth:api'
    | TransformInput        // 'transform.input:...', renames input fields, never refuses
    | Scope(name: string)   // 'scope:<name>'
    | Can(ability: Ability) // 'can:<ability>,user'

  datatype Filter = Only(actions: set<Action>) | Except(actions: set<Action>)

  datatype Registration = Registration(guard: Guard, filter: Filter)

  const MANAGE_ACCOUNT := "manage-account"
  const READ_GENERAL := "read-general"

  /** The registrations of the constructor, in order. */
  function Registrations(): seq<Registration>
  {
    [
      Registration(ClientCredentials, Only({Store, Resend})),
      Registration(AuthApi, Except({Store, Resend, Verify})),
      Registration(TransformInput, Only({Store, Update})),
      Registration(Scope(MANAGE_ACCOUNT), Only({Show, Update, Me})),
      Registration(Scope(READ_GENERAL), Only({Index})),
      Registration(Can(View), Only({Show})),
      Registration(Can(Edit), Only({Update})),
      Registration(Can(Delete), Only({Destroy}))
    ]
  }

  predicate Applies(f: Filter, a: Action)
  {
    match f
    case Only(s) => a in s
    case Except(s) => a !in s
  }

  /** The guards that run for `a`, in registration order. */
  function Pipeline(regs: seq<Registration>, a: Action): seq<Guard>
  {
    if regs == [] then []
    else (if Applies(regs[0].filter, a) then [regs[0].guard] else []) + Pipeline(regs[1..], a)
  }

  /** The bearer token on the request, if any. */
  datatype Token =
    | NoToken
    | ClientToken                               // client-credentials grant, no user
    /**
     * Issued to a user. `scopes` is every scope the token can use, as Passport's
     * `tokenCan` answers it: a token granted the wildcard `*` is given here with
     * every scope the routes name.
     */
    | UserToken(user: Id, scopes: set<string>)

  /** What the guards know about a request: its token and the policy's answers on the target. */
  datatype Caller = Caller(token: Token, abilities: set<Ability>)

  datatype Decision = Allow | Deny(error: Error)

  function Check(g: Guard, c: Caller): Decision
  {
    match g
    case ClientCredentials => if c.token.NoToken? then Deny(Unauthenticated) else Allow
    case AuthApi => if c.token.UserToken? then Allow else Deny(Unauthenticated)
    case TransformInput => Allow
    case Scope(s) =>
      if !c.token.UserToken? then Deny(Unauthenticated)
      else if s in c.token.scopes then Allow
      else Deny(Forbidden)
    case Can(ab) => if ab in c.abilities then Allow else Deny(Forbidden)
  }

  function RunGuards(gs: seq<Guard>, c: Caller): Decision
  {
    if gs == [] then Allow
    else match Check(gs[0], c)
      case Allow => RunGuards(gs[1..], c)
      case Deny(e) => Deny(e)
  }

  function Authorize(a: Action, c: Caller): Decision
  {
    RunGuards(Pipeline(Registrations(), a), c)
  }

  /** The access rules, stated per action. */
  function AccessRule(a: Action, c: Caller): Decision
  {
    var user := c.token.UserToken?;
    match a
    case Verify => Allow
    case Store | Resend => if c.token.NoToken? then Deny(Unauthenticated) else Allow
    case Index =>
      if !user then Deny(Unauthenticated)
      else if READ_GENERAL !in c.token.scopes then Deny(Forbidden)
      else Allow
    case Me =>
      if !user then Deny(Unauthenticated)
      else if MANAGE_ACCOUNT !in c.token.scopes then Deny(Forbidden)
      else Allow
    case Show =>
      if !user then Deny(Unauthenticated)
      else if MANAGE_ACCOUNT !in c.token.scopes || View !in c.abilities then Deny(Forbidden)
      else Allow
    case Update =>
      if !user then Deny(Unauthenticated)
      else if MANAGE_ACCOUNT !in c.token.scopes || Edit !in c.abilities then Deny(Forbidden)
      else Allow
    case Destroy =>
      if !user then Deny(Unauthenticated)
      else if Delete !in c.abilities then Deny(Forbidden)
      else Allow
  }

  lemma {:induction false} RunGuardsStep(gs: seq<Guard>, i: nat, c: Caller)
    requires i < |gs|
    ensures RunGuards(gs[i..], c) ==
      (if Check(gs[i], c).Allow? then RunGuards(gs[i + 1..], c) else Check(gs[i], c))
  {
    assert gs[i..][1..] == gs[i + 1..];
  }

  /** The guards each action runs, in order, read off the registrations. */
  function GuardsFor(a: Action): seq<Guard>
  {
    match a
    case Index => [AuthApi, Scope(READ_GENERAL)]
    case Store => [ClientCredentials, TransformInput]
    case Show => [AuthApi, Scope(MANAGE_ACCOUNT), Can(View)]
    case Update => [AuthApi, TransformInput, Scope(MANAGE_ACCOUNT), Can(Edit)]
    case Destroy => [AuthApi, Can(Delete)]
    case Me => [AuthApi, Scope(MANAGE_ACCOUNT)]
    case Verify => []
    case Resend => [ClientCredentials]
  }

  /** Filtering the registrations by their `only`/`except` lists yields `GuardsFor(a)`. */
  lemma PipelineOf(a: Action)
    ensures Pipeline(Registrations(), a) == GuardsFor(a)
  {
    if a.Index? || a.Show? || a.Me? || a.Verify? {
      PipelineOfReads(a);
    } else {
      PipelineOfWrites(a);
    }
  }

  lemma PipelineOfReads(a: Action)
    requires a.Index? || a.Show? || a.Me? || a.Verify?
    ensures Pipeline(Registrations(), a) == GuardsFor(a)
  {
    match a
    case Index => assert Pipeline(Registrations(), Index) == GuardsFor(Index);
    case Show => assert Pipeline(Registrations(), Show) == GuardsFor(Show);
    case Me => assert Pipeline(Registrations(), Me) == GuardsFor(Me);
    case Verify => assert Pipeline(Registrations(), Verify) == GuardsFor(Verify);
  }

  lemma PipelineOfWrites(a: Action)
    requires a.Store? || a.Update? || a.Destroy? || a.Resend?
    ensures Pipeline(Registrations(), a) == GuardsFor(a)
  {
    match a
    case Store => assert Pipeline(Registrations(), Store) == GuardsFor(Store);
    case Update => assert Pipeline(Registrations(), Update) == GuardsFor(Update);
    case Destroy => assert Pipeline(Registrations(), Destroy) == GuardsFor(Destroy);
    case Resend => assert Pipeline(Registrations(), Resend) == GuardsFor(Resend);
  }

  /** Running each action's guards gives the decision of the per-action rules. */
  lemma {:induction false} RunGuardsFor(a: Action, c: Caller)
    ensures RunGuards(GuardsFor(a), c) == AccessRule(a, c)
  {
    match a
    case Verify =>
    case _ => RunGuardsOf(GuardsFor(a), c);
  }

  /**
   * Authorization through the registered middleware agrees with the per-action
   * rules: `verify` is public, `store` and `resend` accept any valid token,
   * every other action needs a user token (401 otherwise) and then the scope
   * and policy ability registered for it (403 otherwise).
   */
  lemma AuthorizeMatchesAccessRule(a: Action, c: Caller)
    ensures Authorize(a, c) == AccessRule(a, c)
  {
    PipelineOf(a);
    RunGuardsFor(a, c);
  }

  /** The guards of a short pipeline, run one after the other. */
  lemma {:induction false} RunGuardsOf(gs: seq<Guard>, c: Caller)
    requires 1 <= |gs| <= 4
    ensures RunGuards(gs, c) ==
      if !Check(gs[0], c).Allow? then Check(gs[0], c)
      else if |gs| == 1 then Allow
      else if !Check(gs[1], c).Allow? then Check(gs[1], c)
      else if |gs| == 2 then Allow
      else if !Check(gs[2], c).Allow? then Check(gs[2], c)
      else if |gs| == 3 then Allow
      else Check(gs[3], c)
  {
    assert gs[0..] == gs;
    RunGuardsStep(gs, 0, c);
    if |gs| > 1 { RunGuardsStep(gs, 1, c); }
    if |gs| > 2 { RunGuardsStep(gs, 2, c); }
    if |gs| > 3 { RunGuardsStep(gs, 3, c); }
    assert gs[|gs|..] == [];
  }
}
