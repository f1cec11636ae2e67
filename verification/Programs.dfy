/** Every RPC as a program: between two calls to the stores a request is at one of the points below.
    `Issue` gives the call made at a point and `Resume` the point its answer leads to. */
module Programs {
  import opened Wrappers
  import opened Text
  import opened Slugs
  import opened Stores
  import B = Builders
  import T = Templates
  import Scopes
  import opened Sessions
  import Bearer
  import ApiKeys

  // ---- Requests and replies ----

  datatype SpecArg = NoSpec(kind: Kind) | ForBuilder(b: B.BuilderSpec) | ForTemplate(t: T.TemplateSpec)

  function KindOf(arg: SpecArg): Kind {
    match arg case NoSpec(k) => k case ForBuilder(_) => BuilderKind case ForTemplate(_) => TemplateKind
  }

  /** A request on builder or template objects of a namespace. */
  datatype Act =
    | List(kind: Kind, ns: string)
    | Get(kind: Kind, ns: string, name: string)
    | Create(ns: string, name: string, arg: SpecArg)
    | Update(ns: string, name: string, arg: SpecArg)
    | Delete(kind: Kind, ns: string, name: string)
    | Wake(ns: string, name: string)

  function KeyOf(act: Act): Key {
    match act
    case List(kind, ns) => Key(kind, ns, "")
    case Get(kind, ns, name) => Key(kind, ns, name)
    case Create(ns, name, arg) => Key(KindOf(arg), ns, name)
    case Update(ns, name, arg) => Key(KindOf(arg), ns, name)
    case Delete(kind, ns, name) => Key(kind, ns, name)
    case Wake(ns, name) => Key(BuilderKind, ns, name)
  }

  datatype Op =
    | Register(email: string, password: string, name: string)
    | Login(email: string, password: string)
    | RefreshToken(token: string)
    | HealthCheck
    | GetMe
    | UpdateProfile(name: string)
    | CreateUserApiKey(name: string, scopes: seq<string>, expiresInDays: B.int32, secret: seq<ApiKeys.byte>)
    | ListUserApiKeys
    | RevokeUserApiKey(id: string)
    | ListOrganizations
    | GetOrganization(id: string)
    | CreateOrganization(name: string, slug: string, plan: string)
    | UpdateOrganization(id: string, name: string, slug: string, plan: string)
    | DeleteOrganization(id: string)
    | ListOrganizationMembers(id: string)
    | OnObjects(act: Act)

  function MethodOf(op: Op): Scopes.Method {
    match op
    case Register(_, _, _) => Scopes.Register
    case Login(_, _) => Scopes.Login
    case RefreshToken(_) => Scopes.RefreshToken
    case HealthCheck => Scopes.HealthCheck
    case GetMe => Scopes.GetMe
    case UpdateProfile(_) => Scopes.UpdateProfile
    case CreateUserApiKey(_, _, _, _) => Scopes.CreateUserApiKey
    case ListUserApiKeys => Scopes.ListUserApiKeys
    case RevokeUserApiKey(_) => Scopes.RevokeUserApiKey
    case ListOrganizations => Scopes.ListOrganizations
    case GetOrganization(_) => Scopes.GetOrganization
    case CreateOrganization(_, _, _) => Scopes.CreateOrganization
    case UpdateOrganization(_, _, _, _) => Scopes.UpdateOrganization
    case DeleteOrganization(_) => Scopes.DeleteOrganization
    case ListOrganizationMembers(_) => Scopes.ListOrganizationMembers
    case OnObjects(act) =>
      var builder := KeyOf(act).kind.BuilderKind?;
      match act
      case List(_, _) => if builder then Scopes.ListBuilders else Scopes.ListTemplates
      case Get(_, _, _) => if builder then Scopes.GetBuilder else Scopes.GetTemplate
      case Create(_, _, _) => if builder then Scopes.CreateBuilder else Scopes.CreateTemplate
      case Update(_, _, _) => if builder then Scopes.UpdateBuilder else Scopes.UpdateTemplate
      case Delete(_, _, _) => if builder then Scopes.DeleteBuilder else Scopes.DeleteTemplate
      case Wake(_, _) => Scopes.WakeBuilder
  }

  /** A request with the values of its `authorization` metadata, or none without incoming metadata. */
  datatype Request = Request(op: Op, authorization: Option<seq<string>>)

  datatype Code = Unauthenticated | InvalidArgument | PermissionDenied | NotFound | AlreadyExists | Internal

  datatype View = BuilderView(b: B.BuilderSpec, status: B.BuilderStatus) | TemplateView(t: T.TemplateSpec)

  datatype Reply =
    | Rejected(code: Code)
    | Healthy
    | SessionReply(user: string, access: Claims, refresh: Claims)
    | Refreshed(access: Claims)
    | ProfileReply(rows: map<string, UserRow>)
    | KeyIssued(row: KeyRow, token: string)
    | KeysReply(keys: map<string, KeyRow>)
    | OrgReply(id: string, org: OrgRow, memberCount: nat)
    | OrgsReply(orgs: map<string, (OrgRow, nat)>)
    | MembersReply(members: set<MemberRow>)
    | ObjectReply(key: Key, view: View)
    | ObjectsReply(views: map<Key, View>)
    | Deleted

  // ---- Outside functions ----

  /** What the service takes from libraries: hashing, password hashing, which fails for a password that is too
      long, password checks, signature checks, how the database reads the text of an identifier, the text of a
      time in whole seconds, and quantity parsing and printing. */
  datatype Env = Env(hash: string -> string, hashPassword: string -> Option<string>,
                     checkPassword: (string, string) -> bool, verify: string -> Option<Claims>,
                     uuid: string -> RowId, stamp: nat -> string, parse: T.Parser, show: T.Printer)

  /** The text is the one the database itself writes for the identifier. */
  predicate Normal(env: Env, id: string) {
    env.uuid(id) == Some(id)
  }

  /** The text is one of the spellings of the identifier `n`. */
  predicate Spells(env: Env, text: string, n: string) {
    env.uuid(text) == Some(n)
  }

  // ---- Mappings ----

  const LAST_USED := "builder.builder-hub.dev/last-used"
  const NO_STATUS := B.BuilderStatus("", 0, "")
  const DAY: nat := 86400 * SECOND

  function NewBody(env: Env, arg: SpecArg, status: B.BuilderStatus): Body {
    match arg
    case ForBuilder(b) => BuilderBody(B.Write(b), status)
    case ForTemplate(t) => TemplateBody(T.Write(env.parse, t))
    case NoSpec(_) => BuilderBody(B.BuilderResource(None, "", None, None, map[]), status)
  }

  /** Only the spec is replaced; status and annotations stay. */
  function WithSpec(env: Env, c: Content, arg: SpecArg): Content {
    c.(body := NewBody(env, arg, if c.body.BuilderBody? then c.body.status else NO_STATUS))
  }

  function ViewOf(env: Env, c: Content): View {
    match c.body
    case BuilderBody(b, status) => BuilderView(B.Read(b), status)
    case TemplateBody(t) => TemplateView(T.Read(env.show, t))
  }

  /** The merge patch between an object and its copy with a new stamp, on the annotations. */
  function WakePatch(annotations: map<string, string>, stamp: string): map<string, string> {
    if LAST_USED in annotations && annotations[LAST_USED] == stamp then map[] else map[LAST_USED := stamp]
  }

  // ---- Program points ----

  datatype GatePc =
    | KeyLookup(op: Op, hash: string)
    | KeyTouch(op: Op, keyId: string, who: Scopes.Principal)

  datatype AccountPc =
    | UserInsert(email: string, passwordHash: string, name: string)
    | LoginSelect(email: string, password: string)
    | ProfileWrite(user: string, name: string)
    | ProfileRead(user: string)
    | ProfileConfirm(user: string, name: string)
    | KeyInsert(hash: string, row: KeyRow, token: string)
    | KeysRead(user: string)
    | KeyDelete(user: string, id: string)

  datatype OrgPc =
    | CreateInsert(user: string, org: OrgRow)
    | CreateOwner(user: string, id: string, org: OrgRow)
    | CreateEnsure(id: string, org: OrgRow)
    | CreateUndo(id: string)
    | UpdateRole(user: string, id: string, name: string, slug: string, plan: string)
    | UpdateWrite(user: string, id: string, change: OrgChange)
    | OrgRead(user: string, id: string)
    | OrgList(user: string)
    | DeleteRole(user: string, id: string)
    | DeleteSpace(id: string)
    | DeleteRow(id: string)
    | MembersCheck(user: string, id: string)
    | MembersRead(id: string)

  datatype ObjPc =
    | Check(user: string, act: Act)
    | Ensure(act: Act)
    | First(act: Act)
    | WriteBack(act: Act, snapshot: Object)
    | PatchBack(act: Act, snapshot: Object, stamp: string)
    | Reporting(key: Key, status: B.BuilderStatus)   // the operator, not a request

  datatype Pc =
    | Finished(reply: Reply)
    | Crashed
    | Gate(g: GatePc)
    | Account(a: AccountPc)
    | Org(o: OrgPc)
    | Obj(b: ObjPc)

  predicate Live(pc: Pc) {
    !pc.Finished? && !pc.Crashed?
  }

  function Reject(code: Code): Pc {
    Finished(Rejected(code))
  }

  function IssueAccount(env: Env, p: AccountPc, id: string): AccountCall {
    match p
    case UserInsert(email, hash, name) => InsertUser(id, email, hash, name)
    case LoginSelect(email, _) => SelectLogin(email)
    case ProfileWrite(user, name) => RenameUser(user, name)
    case ProfileRead(user) => SelectUser(user)
    case ProfileConfirm(user, _) => SelectUser(user)
    case KeyInsert(hash, row, _) => InsertKey(id, hash, row)
    case KeysRead(user) => SelectKeys(user)
    case KeyDelete(user, keyId) => DeleteKey(user, env.uuid(keyId))
  }

  /** The identifiers the database generates are in normal form. */
  function Generated(env: Env, id: string): RowId {
    if Normal(env, id) then Some(id) else None
  }

  /** The database reads the identifiers that came with a request, and knows the ones it generated; the API server
      takes either as a name. */
  function IssueOrg(env: Env, p: OrgPc, id: string): Call {
    match p
    case CreateInsert(_, org) => OnTables(InsertOrg(Generated(env, id), org))
    case CreateOwner(user, orgId, _) => OnTables(InsertOwner(user, orgId))
    case CreateEnsure(orgId, _) => OnCluster(CreateNamespace(orgId))
    case CreateUndo(orgId) => OnTables(DeleteOrg(Some(orgId)))
    case UpdateRole(user, orgId, _, _, _) => OnTables(SelectRole(user, env.uuid(orgId)))
    case UpdateWrite(_, orgId, change) => OnTables(UpdateOrg(env.uuid(orgId), change))
    case OrgRead(user, orgId) => OnTables(SelectOrg(user, env.uuid(orgId)))
    case OrgList(user) => OnTables(SelectOrgs(user))
    case DeleteRole(user, orgId) => OnTables(SelectRole(user, env.uuid(orgId)))
    case DeleteSpace(orgId) => OnCluster(DeleteNamespace(orgId))
    case DeleteRow(orgId) => OnTables(DeleteOrg(env.uuid(orgId)))
    case MembersCheck(user, orgId) => OnTables(CheckMember(user, env.uuid(orgId)))
    case MembersRead(orgId) => OnTables(SelectMembers(env.uuid(orgId)))
  }

  function IssueFirst(env: Env, act: Act): ClusterCall {
    match act
    case List(kind, ns) => ListObjects(kind, ns)
    case Create(_, _, arg) => CreateObject(KeyOf(act), Content(NewBody(env, arg, NO_STATUS), map[]))
    case Delete(_, _, _) => DeleteObject(KeyOf(act))
    case _ => GetObject(KeyOf(act))
  }

  /** The object an update writes back: its snapshot with the requested spec. */
  function Respec(env: Env, act: Act, snapshot: Object): Object {
    if act.Update? then snapshot.(content := WithSpec(env, snapshot.content, act.arg)) else snapshot
  }

  function IssueObj(env: Env, p: ObjPc): Call {
    match p
    case Check(user, act) => OnTables(CheckMember(user, env.uuid(act.ns)))
    case Ensure(act) => OnCluster(CreateNamespace(act.ns))
    case First(act) => OnCluster(IssueFirst(env, act))
    case WriteBack(act, snapshot) => OnCluster(UpdateObject(KeyOf(act), Respec(env, act, snapshot)))
    case PatchBack(act, snapshot, stamp) =>
      OnCluster(PatchObject(KeyOf(act), WakePatch(snapshot.content.annotations, stamp)))
    case Reporting(key, status) => OnCluster(ReportStatus(key, status))
  }

  /** The call a live request makes next; `id` is the identifier the database would generate. */
  function Issue(env: Env, pc: Pc, id: string): Call
    requires Live(pc)
  {
    match pc
    case Gate(KeyLookup(_, hash)) => OnAccounts(LookupKey(hash))
    case Gate(KeyTouch(_, keyId, _)) => OnAccounts(TouchKey(keyId))
    case Account(p) => OnAccounts(IssueAccount(env, p, id))
    case Org(p) => IssueOrg(env, p, id)
    case Obj(p) => IssueObj(env, p)
  }

  // ---- Validation in front of the first call ----

  const DEFAULT_PLAN := "starter"

  predicate LegalPlan(p: string) {
    p == "starter" || p == "pro" || p == "enterprise"
  }

  function EnterCreateOrganization(user: string, name: string, slug: string, plan: string): Pc {
    if user == "" then Reject(Unauthenticated)
    else if TrimSpace(name) == "" || TrimSpace(slug) == "" then Reject(InvalidArgument)
    else if !ValidSlug(NormalSlug(slug)) then Reject(InvalidArgument)
    else
      var p := if TrimSpace(plan) == "" then DEFAULT_PLAN else TrimSpace(plan);
      if !LegalPlan(p) then Reject(InvalidArgument)
      else Org(CreateInsert(user, OrgRow(TrimSpace(name), NormalSlug(slug), p)))
  }

  /** The end of a key's life for the requested number of days: -1 is never, 0 is the default year. */
  function KeyExpiry(days: B.int32, now: nat): Option<Option<nat>> {
    if days == -1 then Some(None)
    else if days == 0 then Some(Some(now + 365 * DAY))
    else if days < 1 || days > 3650 then None
    else Some(Some(now + days * DAY))
  }

  function EnterCreateKey(env: Env, now: nat, user: string, name: string, scopes: seq<string>, days: B.int32,
                          secret: seq<ApiKeys.byte>): Pc {
    if user == "" then Reject(Unauthenticated)
    else if TrimSpace(name) == "" || !Scopes.Acceptable(scopes) then Reject(InvalidArgument)
    else match KeyExpiry(days, now)
      case None => Reject(InvalidArgument)
      case Some(expiry) =>
        var token := ApiKeys.Token(secret);
        Account(KeyInsert(env.hash(token),
                  KeyRow("", user, TrimSpace(name), ApiKeys.DisplayPrefix(token), scopes, 0, expiry, None), token))
  }

  function EnterObjects(user: string, act: Act): Pc {
    if user == "" then Reject(Unauthenticated)
    else if act.ns == "" then Reject(InvalidArgument)
    else Obj(Check(user, act))
  }

  /** A handler up to its first call, for the user the interceptor identified ("" for a public method). */
  function Enter(env: Env, now: nat, user: string, op: Op): Pc {
    match op
    case Register(email, password, name) =>
      if TrimSpace(email) == "" || password == "" || TrimSpace(name) == "" then Reject(InvalidArgument)
      else (match env.hashPassword(password)
        case Some(hash) => Account(UserInsert(TrimSpace(email), hash, TrimSpace(name)))
        case None => Reject(Internal))
    case Login(email, password) =>
      if email == "" || password == "" then Reject(InvalidArgument) else Account(LoginSelect(email, password))
    case RefreshToken(token) =>
      if token == "" then Reject(InvalidArgument)
      else (match Refresh(env.verify(token), now)
        case Some(c) => Finished(Refreshed(c))
        case None => Reject(Unauthenticated))
    case HealthCheck => Finished(Healthy)
    case GetMe => if user == "" then Reject(Unauthenticated) else Account(ProfileRead(user))
    case UpdateProfile(name) =>
      if user == "" then Reject(Unauthenticated)
      else if TrimSpace(name) == "" then Reject(InvalidArgument)
      else Account(ProfileWrite(user, TrimSpace(name)))
    case CreateUserApiKey(name, scopes, days, secret) => EnterCreateKey(env, now, user, name, scopes, days, secret)
    case ListUserApiKeys => if user == "" then Reject(Unauthenticated) else Account(KeysRead(user))
    case RevokeUserApiKey(id) =>
      if user == "" then Reject(Unauthenticated)
      else if TrimSpace(id) == "" then Reject(InvalidArgument)
      else Account(KeyDelete(user, TrimSpace(id)))
    case ListOrganizations => if user == "" then Reject(Unauthenticated) else Org(OrgList(user))
    case GetOrganization(id) =>
      if user == "" then Reject(Unauthenticated)
      else if id == "" then Reject(InvalidArgument)
      else Org(OrgRead(user, id))
    case CreateOrganization(name, slug, plan) => EnterCreateOrganization(user, name, slug, plan)
    case UpdateOrganization(id, name, slug, plan) =>
      if user == "" then Reject(Unauthenticated)
      else if id == "" then Reject(InvalidArgument)
      else Org(UpdateRole(user, id, name, slug, plan))
    case DeleteOrganization(id) =>
      if user == "" then Reject(Unauthenticated)
      else if id == "" then Reject(InvalidArgument)
      else Org(DeleteRole(user, id))
    case ListOrganizationMembers(id) =>
      if user == "" then Reject(Unauthenticated)
      else if TrimSpace(id) == "" then Reject(InvalidArgument)
      else Org(MembersCheck(user, TrimSpace(id)))
    case OnObjects(act) => EnterObjects(user, act)
  }

  /** The interceptor's last decision, once the caller is known. */
  function Admit(env: Env, now: nat, who: Scopes.Principal, op: Op): Pc {
    if Scopes.Allowed(MethodOf(op), who) then Enter(env, now, who.user, op) else Reject(PermissionDenied)
  }

  /** The interceptor up to its first call. */
  function Begin(env: Env, now: nat, req: Request): Pc {
    if Scopes.Public(MethodOf(req.op)) then Enter(env, now, "", req.op)
    else if req.authorization.None? then Reject(Unauthenticated)
    else match Bearer.Extract(req.authorization.value)
      case None => Reject(Unauthenticated)
      case Some(token) =>
        if Bearer.LooksLikeJWT(token) then
          (match Validate(env.verify(token), "access", now)
           case Some(c) => Admit(env, now, Scopes.Principal(c.user, true, []), req.op)
           case None => Reject(Unauthenticated))
        else if ApiKeys.KEY_MARK <= token then Gate(KeyLookup(req.op, env.hash(token)))
        else Reject(Unauthenticated)
  }

  /** The change an accepted update request asks for: each non-empty field in its normal form. */
  function ChangeOf(name: string, slug: string, plan: string): OrgChange {
    OrgChange(if name != "" then Some(TrimSpace(name)) else None,
              if slug != "" then Some(NormalSlug(slug)) else None,
              if plan != "" then Some(plan) else None)
  }

  function AfterUpdateRole(user: string, id: string, name: string, slug: string, plan: string, role: Role): Pc {
    if role.Member? then Reject(PermissionDenied)
    else if name == "" && slug == "" && plan == "" then Org(OrgRead(user, id))
    else if slug != "" && !ValidSlug(NormalSlug(slug)) then Reject(InvalidArgument)
    else if plan != "" && !LegalPlan(plan) then Reject(InvalidArgument)
    else Org(UpdateWrite(user, id, ChangeOf(name, slug, plan)))
  }

  /** The checks on an object request that follow the membership check (and, for a new builder, the
      creation of the namespace). */
  function Validated(act: Act): Pc {
    if !act.List? && act.name == "" then Reject(InvalidArgument)
    else if (act.Create? || act.Update?) && act.arg.NoSpec? then Reject(InvalidArgument)
    else if act.Create? && act.arg.ForBuilder? && act.arg.b.templateRef == "" then Reject(InvalidArgument)
    else Obj(First(act))
  }

  function AfterFirst(env: Env, now: nat, act: Act, a: Answer): Pc {
    match act
    case List(_, _) =>
      if a.Objects? then Finished(ObjectsReply(map k | k in a.objects :: ViewOf(env, a.objects[k].content)))
      else Reject(Internal)
    case Get(_, _, _) =>
      if a.ObjectIs? then Finished(ObjectReply(KeyOf(act), ViewOf(env, a.obj.content)))
      else if a.Missing? then Reject(NotFound) else Reject(Internal)
    case Create(_, _, _) =>
      if a.ObjectIs? then Finished(ObjectReply(KeyOf(act), ViewOf(env, a.obj.content))) else Reject(Internal)
    case Update(_, _, _) =>
      if a.ObjectIs? then Obj(WriteBack(act, a.obj))
      else if a.Missing? then Reject(NotFound) else Reject(Internal)
    case Delete(_, _, _) =>
      if a.Done? || a.Missing? then Finished(Deleted) else Reject(Internal)
    case Wake(_, _) =>
      if a.ObjectIs? then Obj(PatchBack(act, a.obj, env.stamp(now / SECOND)))
      else if a.Missing? then Reject(NotFound) else Reject(Internal)
  }

  function SessionFor(user: string, email: string, now: nat): Pc {
    Finished(SessionReply(user, AccessClaims(user, email, now), RefreshClaims(user, email, now)))
  }

  function ResumeGate(env: Env, now: nat, p: GatePc, a: Answer): Pc {
    match p
    case KeyLookup(op, _) =>
      if a.KeyIs? then Gate(KeyTouch(op, a.key.id, Scopes.Principal(a.key.user, false, a.key.scopes)))
      else Reject(Unauthenticated)
    case KeyTouch(op, _, who) => Admit(env, now, who, op)
  }

  function ResumeAccount(env: Env, now: nat, p: AccountPc, a: Answer): Pc {
    match p
    case UserInsert(email, _, _) =>
      if a.NewRow? then SessionFor(a.id, email, now)
      else if a.Duplicate? then Reject(AlreadyExists) else Reject(Internal)
    case LoginSelect(email, password) =>
      if a.LoginIs? then
        if env.checkPassword(a.user.passwordHash, password) then SessionFor(a.user.id, email, now)
        else Reject(Unauthenticated)
      else if a.Missing? then Reject(Unauthenticated) else Reject(Internal)
    case ProfileWrite(user, name) =>
      if a.Done? then (if a.rows == 0 then Reject(NotFound) else Account(ProfileConfirm(user, name)))
      else Reject(Internal)
    case ProfileRead(_) =>
      if a.Users? then Finished(ProfileReply(a.users))
      else if a.Missing? then Reject(NotFound) else Reject(Internal)
    case ProfileConfirm(_, name) =>
      if a.Users? then Finished(ProfileReply(map e | e in a.users :: a.users[e].(name := name)))
      else if a.Missing? then Reject(NotFound) else Reject(Internal)
    case KeyInsert(_, row, token) =>
      if a.NewRow? then Finished(KeyIssued(row.(id := a.id, createdAt := now), token)) else Reject(Internal)
    case KeysRead(_) => if a.Keys? then Finished(KeysReply(a.keys)) else Reject(Internal)
    case KeyDelete(_, _) =>
      if a.Done? then (if a.rows == 0 then Reject(NotFound) else Finished(Deleted)) else Reject(Internal)
  }

  function ResumeOrg(p: OrgPc, a: Answer): Pc {
    match p
    case CreateInsert(user, org) =>
      if a.NewRow? then Org(CreateOwner(user, a.id, org))
      else if a.Duplicate? then Reject(AlreadyExists) else Reject(Internal)
    case CreateOwner(_, id, org) => if a.Done? then Org(CreateEnsure(id, org)) else Org(CreateUndo(id))
    case CreateEnsure(id, org) =>
      if a.Done? || a.Exists? then Finished(OrgReply(id, org, 1)) else Org(CreateUndo(id))
    case CreateUndo(_) => Reject(Internal)
    case UpdateRole(user, id, name, slug, plan) =>
      if a.RoleIs? then AfterUpdateRole(user, id, name, slug, plan, a.role)
      else if a.Missing? then Reject(NotFound) else Reject(Internal)
    case UpdateWrite(user, id, _) =>
      if a.Done? then Org(OrgRead(user, id))
      else if a.Duplicate? then Reject(AlreadyExists) else Reject(Internal)
    case OrgRead(_, _) =>
      if a.OrgIs? then Finished(OrgReply(a.id, a.org, a.memberCount))
      else if a.Missing? then Reject(NotFound) else Reject(Internal)
    case OrgList(_) => if a.Orgs? then Finished(OrgsReply(a.orgs)) else Reject(Internal)
    case DeleteRole(_, id) =>
      if a.RoleIs? then (if a.role.Owner? then Org(DeleteSpace(id)) else Reject(PermissionDenied))
      else if a.Missing? then Reject(NotFound) else Reject(Internal)
    case DeleteSpace(id) => if a.Done? || a.Missing? then Org(DeleteRow(id)) else Reject(Internal)
    case DeleteRow(_) =>
      if a.Done? then (if a.rows == 0 then Reject(NotFound) else Finished(Deleted)) else Reject(Internal)
    case MembersCheck(_, id) =>
      if a.MemberIs? then (if a.yes then Org(MembersRead(id)) else Reject(PermissionDenied)) else Reject(Internal)
    case MembersRead(_) => if a.MemberRows? then Finished(MembersReply(a.members)) else Reject(Internal)
  }

  function ResumeObj(env: Env, now: nat, p: ObjPc, a: Answer): Pc {
    match p
    case Check(_, act) =>
      if a.MemberIs? then
        if !a.yes then Reject(PermissionDenied)
        else if act.Create? && KindOf(act.arg).BuilderKind? then Obj(Ensure(act))
        else Validated(act)
      else Reject(Internal)
    case Ensure(act) => if a.Done? || a.Exists? then Validated(act) else Reject(Internal)
    case First(act) => AfterFirst(env, now, act, a)
    case WriteBack(act, _) =>
      if a.ObjectIs? then Finished(ObjectReply(KeyOf(act), ViewOf(env, a.obj.content))) else Reject(Internal)
    case PatchBack(act, _, _) =>
      if a.ObjectIs? then Finished(ObjectReply(KeyOf(act), ViewOf(env, a.obj.content))) else Reject(Internal)
    case Reporting(_, _) => Finished(Deleted)
  }

  /** Where a request goes on with the answer to its call. */
  function Resume(env: Env, now: nat, pc: Pc, a: Answer): Pc
    requires Live(pc)
  {
    match pc
    case Gate(p) => ResumeGate(env, now, p, a)
    case Account(p) => ResumeAccount(env, now, p, a)
    case Org(p) => ResumeOrg(p, a)
    case Obj(p) => ResumeObj(env, now, p, a)
  }

  // ---- One request alone ----

  function OrgCallsLeft(p: OrgPc): nat {
    match p
    case CreateInsert(_, _) => 4
    case CreateOwner(_, _, _) => 3
    case CreateEnsure(_, _) => 2
    case UpdateRole(_, _, _, _, _) => 3
    case UpdateWrite(_, _, _) => 2
    case DeleteRole(_, _) => 3
    case DeleteSpace(_) => 2
    case MembersCheck(_, _) => 2
    case _ => 1
  }

  /** An upper bound on the calls a request still makes. */
  function CallsLeft(pc: Pc): nat {
    match pc
    case Finished(_) => 0
    case Crashed => 0
    case Gate(p) => if p.KeyLookup? then 6 else 5
    case Account(p) => if p.ProfileWrite? then 2 else 1
    case Org(p) => OrgCallsLeft(p)
    case Obj(p) => if p.Check? then 4 else if p.Ensure? then 3 else if p.First? then 2 else 1
  }

  /** Every answer, also an error, brings a request closer to its end. */
  lemma ResumeAdvances(env: Env, now: nat, pc: Pc, a: Answer)
    requires Live(pc)
    ensures CallsLeft(Resume(env, now, pc, a)) < CallsLeft(pc)
    ensures !Resume(env, now, pc, a).Crashed?
  {
  }

  /** The fault of one call and the identifier generated for it. */
  datatype Choice = Choice(fault: Fault, id: string)

  function Step(env: Env, s: Stores, pc: Pc, c: Choice): (Stores, Pc)
    requires Live(pc)
  {
    var (s', a) := Perform(s, Issue(env, pc, c.id), c.fault);
    (s', Resume(env, s'.now, pc, a))
  }

  /** Runs a request to its end with nothing in between; `choices` gives the outcome of each call. */
  function RunAlone(env: Env, s: Stores, pc: Pc, choices: seq<Choice>): (r: (Stores, Pc))
    requires !pc.Crashed?
    ensures r.1.Finished?
    decreases CallsLeft(pc)
  {
    if pc.Finished? then (s, pc)
    else
      var c := if choices == [] then Choice(NoFault, "") else choices[0];
      var (s', pc') := Step(env, s, pc, c);
      ResumeAdvances(env, s'.now, pc, Perform(s, Issue(env, pc, c.id), c.fault).1);
      RunAlone(env, s', pc', if choices == [] then [] else choices[1..])
  }
}
