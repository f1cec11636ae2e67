/** The two stores the service works on: the PostgreSQL tables and the Kubernetes API server. Each SQL
    statement or API call is one atomic step on them. The stores share no transaction. */
module Stores {
  import opened Wrappers
  import B = Builders
  import T = Templates

  datatype Role = Owner | Admin | Member

  datatype OrgRow = OrgRow(name: string, slug: string, plan: string)
  /** The columns an UPDATE of an organization sets; an absent value leaves the column alone. */
  datatype OrgChange = OrgChange(name: Option<string>, slug: Option<string>, plan: Option<string>)

  function Changed(row: OrgRow, c: OrgChange): OrgRow {
    OrgRow(if c.name.Some? then c.name.value else row.name,
           if c.slug.Some? then c.slug.value else row.slug,
           if c.plan.Some? then c.plan.value else row.plan)
  }

  datatype UserRow = UserRow(id: string, passwordHash: string, name: string)
  datatype KeyRow = KeyRow(id: string, user: string, name: string, prefix: string, scopes: seq<string>,
                           createdAt: nat, expiresAt: Option<nat>, lastUsedAt: Option<nat>)

  datatype Kind = BuilderKind | TemplateKind
  datatype Key = Key(kind: Kind, ns: string, name: string)
  datatype Body =
    | BuilderBody(builder: B.BuilderResource, status: B.BuilderStatus)
    | TemplateBody(template: T.TemplateResource)
  datatype Content = Content(body: Body, annotations: map<string, string>)
  /** A stored object; every change of its content gives it a resource version never used before. */
  datatype Object = Object(content: Content, version: nat)

  /** The tables `users`, by email, and `user_api_keys`, by key hash; both columns are unique. */
  datatype Accounts = Accounts(users: map<string, UserRow>, keys: map<string, KeyRow>)

  /** The tables `organizations`, by id, and `organization_members`, by (user id, organization id). */
  datatype Tables = Tables(orgs: map<string, OrgRow>, members: map<(string, string), Role>)

  /** The namespaces and the objects in them; `version` is the last resource version handed out. */
  datatype Cluster = Cluster(namespaces: set<string>, objects: map<Key, Object>, version: nat)

  datatype Stores = Stores(
    accounts: Accounts,
    tables: Tables,
    cluster: Cluster,
    issued: set<string>,                      // ids and names a generated id differs from
    now: nat)                                 // the clock, in nanoseconds

  /** What the database makes of the text of an identifier: its normal form, or nothing if it is none. All texts of
      one identifier name the same row. The API server has names only, and compares them character by character. */
  type RowId = Option<string>

  datatype AccountCall =
    | InsertUser(id: string, email: string, passwordHash: string, name: string)
    | SelectLogin(email: string)
    | SelectUser(user: string)
    | RenameUser(user: string, name: string)
    | InsertKey(id: string, hash: string, row: KeyRow)
    | LookupKey(hash: string)
    | TouchKey(usedKey: string)
    | DeleteKey(user: string, keyId: RowId)
    | SelectKeys(user: string)

  datatype TableCall =
    | InsertOrg(id: RowId, org: OrgRow)
    | InsertOwner(user: string, newOrg: string)
    | DeleteOrg(orgId: RowId)
    | UpdateOrg(orgId: RowId, change: OrgChange)
    | SelectRole(user: string, orgId: RowId)
    | SelectOrg(user: string, orgId: RowId)
    | SelectOrgs(user: string)
    | CheckMember(user: string, orgId: RowId)
    | SelectMembers(orgId: RowId)

  datatype ClusterCall =
    | CreateNamespace(ns: string)
    | DeleteNamespace(ns: string)
    | CreateObject(key: Key, content: Content)
    | GetObject(key: Key)
    | ListObjects(kind: Kind, ns: string)
    | UpdateObject(key: Key, obj: Object)
    | PatchObject(key: Key, patch: map<string, string>)
    | DeleteObject(key: Key)
    | ReportStatus(key: Key, status: B.BuilderStatus)

  datatype Call = OnAccounts(a: AccountCall) | OnTables(t: TableCall) | OnCluster(c: ClusterCall)

  /** A member as the listing shows them: the user's id, email and name, and their role. */
  datatype MemberRow = MemberRow(id: string, email: string, name: string, role: Role)

  datatype Answer =
    | Failed                                  // any error without a case of its own
    | Duplicate                               // unique violation
    | Missing                                 // no rows, or NotFound from the API server
    | Exists                                  // AlreadyExists from the API server
    | Conflict                                // resource version out of date
    | Done(rows: nat)
    | NewRow(id: string)
    | RoleIs(role: Role)
    | MemberIs(yes: bool)
    | OrgIs(id: string, org: OrgRow, memberCount: nat)
    | Orgs(orgs: map<string, (OrgRow, nat)>)
    | MemberRows(members: set<MemberRow>)
    | LoginIs(user: UserRow)
    | Users(users: map<string, UserRow>)
    | KeyIs(key: KeyRow)
    | Keys(keys: map<string, KeyRow>)
    | ObjectIs(obj: Object)
    | Objects(objects: map<Key, Object>)

  predicate HasUser(a: Accounts, user: string) {
    exists e | e in a.users :: a.users[e].id == user
  }

  predicate SlugTaken(t: Tables, slug: string, exceptId: string) {
    exists n | n in t.orgs :: n != exceptId && t.orgs[n].slug == slug
  }

  function RolesIn(t: Tables, orgId: string): map<string, Role> {
    var us := set p | p in t.members && p.1 == orgId :: p.0;
    map u | u in us && (u, orgId) in t.members :: t.members[(u, orgId)]
  }

  /** The memberships of an organization, joined with the users. */
  function MembersOf(t: Tables, a: Accounts, orgId: string): set<MemberRow> {
    set p, e | p in t.members && p.1 == orgId && e in a.users && a.users[e].id == p.0 ::
      MemberRow(p.0, e, a.users[e].name, t.members[p])
  }

  /** The organizations a user is a member of, with the number of their members. */
  function OrgsOf(t: Tables, user: string): map<string, (OrgRow, nat)> {
    map n | n in t.orgs && (user, n) in t.members :: (t.orgs[n], |RolesIn(t, n)|)
  }

  function ExecuteAccounts(a: Accounts, issued: set<string>, now: nat, call: AccountCall): (Accounts, Answer) {
    match call
    case InsertUser(id, email, hash, name) =>
      if id in issued then (a, Failed)
      else if email in a.users then (a, Duplicate)
      else (a.(users := a.users[email := UserRow(id, hash, name)]), NewRow(id))
    case SelectLogin(email) =>
      (a, if email in a.users then LoginIs(a.users[email]) else Missing)
    case SelectUser(user) =>
      (a, if HasUser(a, user) then Users(map e | e in a.users && a.users[e].id == user :: a.users[e]) else Missing)
    case RenameUser(user, name) =>
      (a.(users := map e | e in a.users ::
            if a.users[e].id == user then a.users[e].(name := name) else a.users[e]),
       Done(if HasUser(a, user) then 1 else 0))
    case InsertKey(id, hash, row) =>
      if id in issued || !HasUser(a, row.user) then (a, Failed)
      else if hash in a.keys then (a, Duplicate)
      else (a.(keys := a.keys[hash := row.(id := id, createdAt := now, lastUsedAt := None)]), NewRow(id))
    case LookupKey(hash) =>
      (a, if hash in a.keys && (a.keys[hash].expiresAt.None? || a.keys[hash].expiresAt.value > now)
          then KeyIs(a.keys[hash]) else Missing)
    case TouchKey(keyId) =>
      (a.(keys := map h | h in a.keys ::
            if a.keys[h].id == keyId then a.keys[h].(lastUsedAt := Some(now)) else a.keys[h]), Done(1))
    case DeleteKey(_, None) => (a, Failed)
    case DeleteKey(user, Some(keyId)) =>
      var gone := set h | h in a.keys && a.keys[h].id == keyId && a.keys[h].user == user;
      (a.(keys := a.keys - gone), Done(|gone|))
    case SelectKeys(user) =>
      (a, Keys(map h | h in a.keys && a.keys[h].user == user :: a.keys[h]))
  }

  /** Deleting an organization row removes its memberships. Text that is no identifier makes a statement fail. */
  function ExecuteTables(t: Tables, a: Accounts, issued: set<string>, call: TableCall): (Tables, Answer) {
    match call
    case InsertOrg(Some(id), org) =>
      if id in issued then (t, Failed)
      else if SlugTaken(t, org.slug, id) then (t, Duplicate)
      else (t.(orgs := t.orgs[id := org]), NewRow(id))
    case InsertOwner(user, orgId) =>
      if orgId !in t.orgs || !HasUser(a, user) then (t, Failed)
      else if (user, orgId) in t.members then (t, Duplicate)
      else (t.(members := t.members[(user, orgId) := Owner]), Done(1))
    case DeleteOrg(Some(n)) =>
      if n !in t.orgs then (t, Done(0))
      else (Tables(t.orgs - {n}, map p | p in t.members && p.1 != n :: t.members[p]), Done(1))
    case UpdateOrg(Some(n), change) =>
      if n !in t.orgs then (t, Done(0))
      else if change.slug.Some? && SlugTaken(t, change.slug.value, n) then (t, Duplicate)
      else (t.(orgs := t.orgs[n := Changed(t.orgs[n], change)]), Done(1))
    case SelectRole(user, Some(n)) =>
      (t, if (user, n) in t.members then RoleIs(t.members[(user, n)]) else Missing)
    case SelectOrg(user, Some(n)) =>
      (t, if n in t.orgs && (user, n) in t.members then OrgIs(n, t.orgs[n], |RolesIn(t, n)|) else Missing)
    case SelectOrgs(user) => (t, Orgs(OrgsOf(t, user)))
    case CheckMember(user, Some(n)) => (t, MemberIs((user, n) in t.members))
    case SelectMembers(Some(n)) => (t, MemberRows(MembersOf(t, a, n)))
    case _ => (t, Failed)
  }

  /** A new or changed object in place, under the next resource version. */
  function Put(c: Cluster, key: Key, content: Content): Cluster {
    c.(objects := c.objects[key := Object(content, c.version + 1)], version := c.version + 1)
  }

  /** Writing content that is already there changes nothing, not even the version. */
  function Rewrite(c: Cluster, key: Key, content: Content): Cluster
    requires key in c.objects
  {
    if c.objects[key].content == content then c else Put(c, key, content)
  }

  /** The new status on the content; only builders have one. */
  function WithStatus(c: Content, status: B.BuilderStatus): Content {
    if c.body.BuilderBody? then c.(body := c.body.(status := status)) else c
  }

  /** Deleting a namespace removes the objects in it. */
  function ExecuteCluster(c: Cluster, call: ClusterCall): (Cluster, Answer) {
    match call
    case CreateNamespace(ns) =>
      if ns in c.namespaces then (c, Exists)
      else (c.(namespaces := c.namespaces + {ns}), Done(1))
    case DeleteNamespace(ns) =>
      if ns !in c.namespaces then (c, Missing)
      else (c.(namespaces := c.namespaces - {ns},
               objects := map k | k in c.objects && k.ns != ns :: c.objects[k]), Done(1))
    case CreateObject(key, content) =>
      if key.ns !in c.namespaces then (c, Missing)
      else if key in c.objects then (c, Exists)
      else (Put(c, key, content), ObjectIs(Put(c, key, content).objects[key]))
    case GetObject(key) => (c, if key in c.objects then ObjectIs(c.objects[key]) else Missing)
    case ListObjects(kind, ns) =>
      (c, Objects(map k | k in c.objects && k.kind == kind && k.ns == ns :: c.objects[k]))
    case UpdateObject(key, obj) =>
      if key !in c.objects then (c, Missing)
      else if c.objects[key].version != obj.version then (c, Conflict)
      else (Rewrite(c, key, obj.content), ObjectIs(Rewrite(c, key, obj.content).objects[key]))
    case PatchObject(key, patch) =>
      if key !in c.objects then (c, Missing)
      else
        var old' := c.objects[key].content;
        var c' := Rewrite(c, key, old'.(annotations := old'.annotations + patch));
        (c', ObjectIs(c'.objects[key]))
    case DeleteObject(key) =>
      if key !in c.objects then (c, Missing)
      else (c.(objects := c.objects - {key}), Done(1))
    case ReportStatus(key, status) =>
      if key !in c.objects then (c, Missing)
      else (Rewrite(c, key, WithStatus(c.objects[key].content, status)), Done(1))
  }

  function WithIssued(issued: set<string>, a: Answer): set<string> {
    if a.NewRow? then issued + {a.id} else issued
  }

  /** One call, executed without any fault. */
  function Execute(s: Stores, call: Call): (Stores, Answer) {
    match call
    case OnAccounts(ac) =>
      var (accounts, a) := ExecuteAccounts(s.accounts, s.issued, s.now, ac);
      (s.(accounts := accounts, issued := WithIssued(s.issued, a)), a)
    case OnTables(tc) =>
      var (tables, a) := ExecuteTables(s.tables, s.accounts, s.issued, tc);
      (s.(tables := tables, issued := WithIssued(s.issued, a)), a)
    case OnCluster(cc) =>
      var (cluster, a) := ExecuteCluster(s.cluster, cc);
      (s.(cluster := cluster), a)
  }

  /** A call either succeeds, fails without any effect, or takes effect while its reply is lost. */
  datatype Fault = NoFault | FailStop | LostReply

  function Perform(s: Stores, call: Call, fault: Fault): (Stores, Answer) {
    match fault
    case NoFault => Execute(s, call)
    case FailStop => (s, Failed)
    case LostReply => (Execute(s, call).0, Failed)
  }
}
