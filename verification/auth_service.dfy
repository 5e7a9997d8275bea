/** The token authority: a user table (username |-> password, role) and an
    in-process session map (token |-> identity). Registration inserts users,
    a successful login mints a token, validation looks a token up. Nothing
    ever removes a user or a session. */
module AuthService {
  import opened Wrappers
  import opened Wire

  /** A session token, the string form of a random UUID. */
  type Token = string

  /** Column default of `users.role`; registration never sets a role. */
  const DefaultRole: string := "user"

  const DashboardUrl: string := "http://localhost:5001/dashboard"
  const LoginPath: string := "/login"

  const AccountCreated: string := "Account created. You can log in now."
  const UsernameTaken: string := "Username already exists."
  const InvalidCredentials: string := "Invalid credentials"

  /** One row of the `users` table; the username is the map key, which
      makes it unique exactly as the UNIQUE constraint does. */
  datatype UserRow = UserRow(password: string, role: string)

  type Users = map<string, UserRow>

  /** What a session stores: `{"name": ..., "role": ...}`. */
  datatype Identity = Identity(name: string, role: string)

  datatype State = State(users: Users, sessions: map<Token, Identity>)

  /** A request to /login or /register: a GET shows the form, a POST
      submits it. */
  datatype Form = Show | Submit(username: string, password: string)

  datatype Response =
    | Page(template: string, flash: Option<string>)
    | Redirect(location: string, flash: Option<string>, setCookies: map<string, string>)
    | Api(reply: JsonResponse)

  datatype Step = Step(state: State, response: Response)

  /** `m'` keeps every entry of `m` unchanged (and may add more). */
  predicate Extends<K, V(==)>(m: map<K, V>, m': map<K, V>)
  {
    forall k :: k in m ==> k in m' && m'[k] == m[k]
  }

  /** Every session names a registered user and carries that user's role. */
  predicate Consistent(st: State)
  {
    forall t :: t in st.sessions ==>
      st.sessions[t].name in st.users && st.users[st.sessions[t].name].role == st.sessions[t].role
  }

  /** Process start: the table is created if it does not exist (otherwise
      the rows on disk are kept) and the session map is empty. */
  function Start(table: Option<Users>): State
  {
    State(if table.Some? then table.value else map[], map[])
  }

  lemma StartIsConsistent(table: Option<Users>)
    ensures Start(table).sessions == map[]
    ensures Consistent(Start(table))
    ensures table.None? ==> Start(table).users == map[]
  {
  }

  /** The `SELECT ... WHERE username=? AND password=?` lookup: plaintext
      equality on both columns. */
  predicate Matches(users: Users, username: string, password: string)
  {
    username in users && users[username].password == password
  }

  /** POST /register inserts `(username, password)` with the default role;
      a taken username raises IntegrityError and nothing is written. */
  function Register(st: State, form: Form): (r: Step)
    ensures r.state.sessions == st.sessions
    ensures Extends(st.users, r.state.users)
    ensures form.Show? ==> r == Step(st, Page("register.html", None))
    ensures form.Submit? && form.username in st.users ==>
      r == Step(st, Page("register.html", Some(UsernameTaken)))
    ensures form.Submit? && form.username !in st.users ==>
      && r.state.users.Keys == st.users.Keys + {form.username}
      && r.state.users[form.username] == UserRow(form.password, DefaultRole)
      && r.response == Redirect(LoginPath, Some(AccountCreated), map[])
  {
    match form
    case Show => Step(st, Page("register.html", None))
    case Submit(username, password) =>
      if username in st.users then
        Step(st, Page("register.html", Some(UsernameTaken)))
      else
        Step(st.(users := st.users[username := UserRow(password, DefaultRole)]),
             Redirect(LoginPath, Some(AccountCreated), map[]))
  }

  /** POST /login: on a credential match, store the identity under the
      freshly generated token and redirect to the dashboard with the token
      in the query string (no cookie is set). `minted` stands for uuid4(). */
  function Login(st: State, form: Form, minted: Token): (r: Step)
    requires minted !in st.sessions
    ensures r.state.users == st.users
    ensures Extends(st.sessions, r.state.sessions)
    ensures form.Show? ==> r == Step(st, Page("login.html", None))
    ensures form.Submit? && !Matches(st.users, form.username, form.password) ==>
      r == Step(st, Page("login.html", Some(InvalidCredentials)))
    ensures form.Submit? && Matches(st.users, form.username, form.password) ==>
      && r.state.sessions.Keys == st.sessions.Keys + {minted}
      && r.state.sessions[minted] == Identity(form.username, st.users[form.username].role)
      && r.response == Redirect(DashboardUrl + "?token=" + minted, None, map[])
  {
    match form
    case Show => Step(st, Page("login.html", None))
    case Submit(username, password) =>
      if Matches(st.users, username, password) then
        Step(st.(sessions := st.sessions[minted := Identity(username, st.users[username].role)]),
             Redirect(DashboardUrl + "?token=" + minted, None, map[]))
      else
        Step(st, Page("login.html", Some(InvalidCredentials)))
  }

  /** The ok body of a validation: status "ok" plus the stored name and
      role. */
  function IdentityBody(id: Identity): Object
  {
    map["status" := JStr("ok"), "name" := JStr(id.name), "role" := JStr(id.role)]
  }

  const ErrorBody: Object := map["status" := JStr("error")]

  /** GET /api/validate reads the token from the query argument `token`
      only; cookies are ignored. It never changes the state. */
  function Validate(st: State, req: Request): (r: JsonResponse)
    ensures r.status == 200 <==> "token" in req.args && req.args["token"] in st.sessions
    ensures r.status == 200 ==> r.body == IdentityBody(st.sessions[req.args["token"]])
    ensures r.status != 200 ==> r == JsonResponse(403, ErrorBody)
  {
    var token := Get(req.args, "token");
    if token.Some? && token.value in st.sessions then
      JsonResponse(200, IdentityBody(st.sessions[token.value]))
    else
      JsonResponse(403, ErrorBody)
  }

  /** One request to the authority. */
  datatype Op =
    | RegisterOp(form: Form)
    | LoginOp(form: Form, minted: Token)
    | ValidateOp(req: Request)

  /** The generated token is new (what uuid4 is relied on for). */
  predicate Enabled(st: State, op: Op)
  {
    op.LoginOp? ==> op.minted !in st.sessions
  }

  /** `op` is a login that succeeds in `st` and so mints `op.minted`. */
  predicate Issues(st: State, op: Op)
  {
    op.LoginOp? && op.form.Submit? && Matches(st.users, op.form.username, op.form.password)
  }

  function Apply(st: State, op: Op): (r: Step)
    requires Enabled(st, op)
    ensures Extends(st.users, r.state.users)
    ensures Extends(st.sessions, r.state.sessions)
    ensures r.state.sessions.Keys == st.sessions.Keys + (if Issues(st, op) then {op.minted} else {})
    ensures Consistent(st) ==> Consistent(r.state)
    ensures op.ValidateOp? ==> r.state == st
  {
    match op
    case RegisterOp(form) => Register(st, form)
    case LoginOp(form, minted) => Login(st, form, minted)
    case ValidateOp(req) => Step(st, Api(Validate(st, req)))
  }

  /** Every login in `ops` draws a token that is new at that point. */
  predicate ValidRun(st: State, ops: seq<Op>)
    decreases |ops|
  {
    |ops| == 0 || (Enabled(st, ops[0]) && ValidRun(Apply(st, ops[0]).state, ops[1..]))
  }

  /** The state after serving `ops` one after another. */
  function Run(st: State, ops: seq<Op>): State
    requires ValidRun(st, ops)
    decreases |ops|
  {
    if |ops| == 0 then st else Run(Apply(st, ops[0]).state, ops[1..])
  }

  /** The tokens minted by the successful logins of `ops`. */
  function Issued(st: State, ops: seq<Op>): set<Token>
    requires ValidRun(st, ops)
    decreases |ops|
  {
    if |ops| == 0 then {}
    else (if Issues(st, ops[0]) then {ops[0].minted} else {}) + Issued(Apply(st, ops[0]).state, ops[1..])
  }

  /** The number of successful logins in `ops`. */
  function LoginCount(st: State, ops: seq<Op>): nat
    requires ValidRun(st, ops)
    decreases |ops|
  {
    if |ops| == 0 then 0
    else (if Issues(st, ops[0]) then 1 else 0) + LoginCount(Apply(st, ops[0]).state, ops[1..])
  }

  lemma ExtendsTransitive<K, V>(a: map<K, V>, b: map<K, V>, c: map<K, V>)
    requires Extends(a, b) && Extends(b, c)
    ensures Extends(a, c)
  {
  }

  /** Sessions and users only ever grow: no request removes or rewrites an
      entry. */
  lemma {:induction false} RunExtends(st: State, ops: seq<Op>)
    requires ValidRun(st, ops)
    ensures Extends(st.sessions, Run(st, ops).sessions)
    ensures Extends(st.users, Run(st, ops).users)
    decreases |ops|
  {
    if |ops| > 0 {
      var s1 := Apply(st, ops[0]).state;
      RunExtends(s1, ops[1..]);
      ExtendsTransitive(st.sessions, s1.sessions, Run(s1, ops[1..]).sessions);
      ExtendsTransitive(st.users, s1.users, Run(s1, ops[1..]).users);
    }
  }

  /** Every session names a registered user with that user's role, in every
      reachable state. */
  lemma {:induction false} RunPreservesConsistent(st: State, ops: seq<Op>)
    requires ValidRun(st, ops)
    requires Consistent(st)
    ensures Consistent(Run(st, ops))
    decreases |ops|
  {
    if |ops| > 0 {
      RunPreservesConsistent(Apply(st, ops[0]).state, ops[1..]);
    }
  }

  /** The live tokens are exactly the initial ones plus those minted by
      successful logins. */
  lemma {:induction false} RunSessions(st: State, ops: seq<Op>)
    requires ValidRun(st, ops)
    ensures Run(st, ops).sessions.Keys == st.sessions.Keys + Issued(st, ops)
    decreases |ops|
  {
    if |ops| > 0 {
      RunSessions(Apply(st, ops[0]).state, ops[1..]);
    }
  }

  /** One request adds one session if it is a successful login, none
      otherwise. */
  lemma ApplySessionCount(st: State, op: Op)
    requires Enabled(st, op)
    ensures |Apply(st, op).state.sessions| == |st.sessions| + (if Issues(st, op) then 1 else 0)
  {
  }

  /** N successful logins yield N distinct live tokens. */
  lemma {:induction false} RunSessionCount(st: State, ops: seq<Op>)
    requires ValidRun(st, ops)
    ensures |Run(st, ops).sessions| == |st.sessions| + LoginCount(st, ops)
    decreases |ops|
  {
    if |ops| > 0 {
      ApplySessionCount(st, ops[0]);
      RunSessionCount(Apply(st, ops[0]).state, ops[1..]);
    }
  }

  /** A token that was neither live at the start nor minted by a login in
      `ops` (a forged or random string) is refused with 403. */
  lemma ForgedTokenRejected(st: State, ops: seq<Op>, t: Token, cookies: map<string, string>)
    requires ValidRun(st, ops)
    requires t !in st.sessions && t !in Issued(st, ops)
    ensures Validate(Run(st, ops), Request(map["token" := t], cookies)) == JsonResponse(403, ErrorBody)
  {
    RunSessions(st, ops);
  }

  /** Round trip: after a successful login mints `minted`, validating
      `?token=minted` returns ok with the user's name and stored role, and
      keeps doing so after any later requests. */
  lemma LoginThenValidate(st: State, username: string, password: string, minted: Token, ops: seq<Op>)
    requires Matches(st.users, username, password)
    requires minted !in st.sessions
    requires ValidRun(Login(st, Submit(username, password), minted).state, ops)
    ensures var s := Run(Login(st, Submit(username, password), minted).state, ops);
      Validate(s, Request(map["token" := minted], map[]))
        == JsonResponse(200, IdentityBody(Identity(username, st.users[username].role)))
  {
    var s1 := Login(st, Submit(username, password), minted).state;
    RunExtends(s1, ops);
  }

  /** Whether the username is unknown or the password wrong, a failed login
      produces the same state and the same page. */
  lemma LoginFailureUniform(st: State, u1: string, p1: string, t1: Token, u2: string, p2: string, t2: Token)
    requires t1 !in st.sessions && t2 !in st.sessions
    requires u1 !in st.users
    requires u2 in st.users && st.users[u2].password != p2
    ensures Login(st, Submit(u1, p1), t1) == Login(st, Submit(u2, p2), t2)
    ensures Login(st, Submit(u1, p1), t1).state == st
  {
  }

}
