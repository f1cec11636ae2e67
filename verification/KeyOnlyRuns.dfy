/** What callers with nothing but API keys can do, whatever they send and however their requests interleave:
    accounts and keys stay as they are, and keys without a write scope change nothing at all. */
module KeyOnlyRuns {
  import opened Stores
  import opened Programs
  import opened Runs
  import KeyRuns
  import Bearer
  import Scopes
  import Slugs
  import Text
  import ApiKeys

  /** Not a public method, and no session token in the header. */
  predicate KeyRequest(req: Request) {
    && !Scopes.Public(MethodOf(req.op))
    && (req.authorization.Some? && Bearer.Extract(req.authorization.value).Some? ==>
          !Bearer.LooksLikeJWT(Bearer.Extract(req.authorization.value).value))
  }

  predicate OnlyKeys(acts: seq<Action>) {
    forall a | a in acts :: a.Arrive? ==> KeyRequest(a.req)
  }

  /** The same users and keys, but for the time of a key's last use. */
  predicate SameAccounts(a: Accounts, b: Accounts) {
    && b.users == a.users && b.keys.Keys == a.keys.Keys
    && forall h | h in a.keys :: KeyRuns.SameKey(a.keys[h], b.keys[h])
  }

  /** The points such a request can be at: never one that works on accounts. */
  predicate KeyPoint(pc: Pc) {
    match pc
    case Gate(KeyLookup(op, _)) => !Scopes.Public(MethodOf(op))
    case Gate(KeyTouch(op, _, who)) => !Scopes.Public(MethodOf(op)) && !who.fullAccess
    case Account(_) => false
    case _ => true
  }

  lemma AdmittedKeyPoint(env: Env, now: nat, who: Scopes.Principal, op: Op)
    requires !Scopes.Public(MethodOf(op)) && !who.fullAccess
    ensures KeyPoint(Admit(env, now, who, op))
  {
    hide Scopes.Acceptable, Text.TrimSpace, Slugs.ValidSlug, ApiKeys.Token, ApiKeys.DisplayPrefix;
  }

  lemma KeyPointStays(env: Env, now: nat, pc: Pc, a: Answer)
    requires Live(pc) && KeyPoint(pc)
    ensures KeyPoint(Resume(env, now, pc, a))
  {
    if pc.Gate? && pc.g.KeyTouch? {
      AdmittedKeyPoint(env, now, pc.g.who, pc.g.op);
    }
    hide Admit, MethodOf, ViewOf;
  }

  lemma KeyStep(env: Env, s: Stores, pc: Pc, c: Choice)
    requires Live(pc) && KeyPoint(pc)
    ensures var (s', q) := Step(env, s, pc, c); KeyPoint(q) && SameAccounts(s.accounts, s'.accounts)
  {
    var (s', a) := Perform(s, Issue(env, pc, c.id), c.fault);
    KeyPointStays(env, s'.now, pc, a);
    hide Resume, KeyPoint, ExecuteTables, ExecuteCluster, IssueOrg, IssueObj;
  }

  lemma ArrivesAtKeyPoint(env: Env, now: nat, req: Request)
    requires KeyRequest(req)
    ensures KeyPoint(Begin(env, now, req))
  {
    hide Enter, Admit, Bearer.Extract, Bearer.LooksLikeJWT, MethodOf;
  }

  ghost predicate KeysOnly(s0: Stores, y: Sys) {
    SameAccounts(s0.accounts, y.s.accounts) && forall r | r in y.procs :: KeyPoint(y.procs[r])
  }

  lemma NextKeepsKeysOnly(env: Env, s0: Stores, y: Sys, a: Action)
    requires KeysOnly(s0, y) && (a.Arrive? ==> KeyRequest(a.req))
    ensures KeysOnly(s0, Next(env, y, a))
  {
    if a.Arrive? { ArrivesAtKeyPoint(env, y.s.now, a.req); }
    if a.Call? && InFlight(y, a.rid) { KeyStep(env, y.s, y.procs[a.rid], a.choice); }
    hide Begin, Step, Issue, KeyRequest;
  }

  /** Every run of requests that authenticate only by API keys leaves the users and the keys unchanged, apart
      from the time a key was last used. */
  lemma {:induction false} KeysLeaveAccountsAlone(env: Env, s0: Stores, acts: seq<Action>)
    requires OnlyKeys(acts)
    ensures KeysOnly(s0, Run(env, Boot(s0), acts))
  {
    hide Next;
    if acts != [] {
      var k := |acts| - 1;
      KeysLeaveAccountsAlone(env, s0, acts[..k]);
      assert acts[k] in acts;
      NextKeepsKeysOnly(env, s0, Run(env, Boot(s0), acts[..k]), acts[k]);
      hide KeysOnly;
    }
  }

  // ---- Scopes that keys do not have ----

  /** Which of the three write scopes no key in play has. */
  datatype Withheld = Withheld(organizations: bool, builders: bool, templates: bool)

  predicate Lacks(scopes: seq<string>, w: Withheld) {
    && (w.organizations ==> Scopes.ORGANIZATIONS_WRITE !in scopes)
    && (w.builders ==> Scopes.BUILDERS_WRITE !in scopes)
    && (w.templates ==> Scopes.TEMPLATES_WRITE !in scopes)
  }

  predicate LackingKey(a: Accounts, h: string, w: Withheld) {
    h in a.keys ==> Lacks(a.keys[h].scopes, w)
  }

  /** The key a request presents, if it is one, lacks the scopes. */
  predicate LackingRequest(env: Env, a: Accounts, req: Request, w: Withheld) {
    req.authorization.Some? && Bearer.Extract(req.authorization.value).Some? ==>
      LackingKey(a, env.hash(Bearer.Extract(req.authorization.value).value), w)
  }

  predicate Barred(kind: Kind, w: Withheld) {
    if kind.BuilderKind? then w.builders else w.templates
  }

  predicate Reads(act: Act) {
    act.List? || act.Get?
  }

  /** What remains possible without the scopes. */
  predicate Open(op: Op, w: Withheld) {
    match op
    case ListOrganizations | HealthCheck => true
    case GetOrganization(_) => true
    case ListOrganizationMembers(_) => true
    case CreateOrganization(_, _, _) => !w.organizations
    case UpdateOrganization(_, _, _, _) => !w.organizations
    case DeleteOrganization(_) => !w.organizations
    case OnObjects(act) => Reads(act) || !Barred(KeyOf(act).kind, w)
    case _ => false
  }

  predicate OpenPoint(a: Accounts, pc: Pc, w: Withheld) {
    match pc
    case Gate(KeyLookup(_, h)) => LackingKey(a, h, w)
    case Gate(KeyTouch(_, _, who)) => Lacks(who.scopes, w)
    case Org(o) => w.organizations ==> o.OrgRead? || o.OrgList? || o.MembersCheck? || o.MembersRead?
    case Obj(b) =>
      && !b.Reporting? && (b.Ensure? ==> KeyOf(b.act).kind.BuilderKind?)
      && (Barred(KeyOf(b.act).kind, w) ==> (b.Check? || b.First?) && Reads(b.act))
    case _ => true
  }

  lemma AllowedIsOpen(op: Op, who: Scopes.Principal, w: Withheld)
    requires !who.fullAccess && Lacks(who.scopes, w) && Scopes.Allowed(MethodOf(op), who)
    ensures Open(op, w)
  {
  }

  lemma EnterOpen(env: Env, now: nat, user: string, op: Op, a: Accounts, w: Withheld)
    requires Open(op, w)
    ensures OpenPoint(a, Enter(env, now, user, op), w)
  {
    hide Text.TrimSpace;
  }

  lemma OpenPointStays(env: Env, now: nat, s: Stores, pc: Pc, a: Answer, w: Withheld)
    requires Live(pc) && KeyPoint(pc) && OpenPoint(s.accounts, pc, w)
    requires pc.Gate? && pc.g.KeyLookup? && a.KeyIs? ==>
               pc.g.hash in s.accounts.keys && a.key == s.accounts.keys[pc.g.hash]
    ensures OpenPoint(s.accounts, Resume(env, now, pc, a), w)
  {
    if pc.Gate? && pc.g.KeyTouch? && Scopes.Allowed(MethodOf(pc.g.op), pc.g.who) {
      AllowedIsOpen(pc.g.op, pc.g.who, w);
      EnterOpen(env, now, pc.g.who.user, pc.g.op, s.accounts, w);
    }
    hide Enter, MethodOf, ViewOf, Lacks;
  }

  lemma OpenPointOfSame(a: Accounts, b: Accounts, pc: Pc, w: Withheld)
    requires OpenPoint(a, pc, w) && SameAccounts(a, b)
    ensures OpenPoint(b, pc, w)
  {
    hide Lacks;
  }

  /** The objects of one kind. */
  function OfKind(c: Cluster, kind: Kind): map<Key, Object> {
    map k | k in c.objects && k.kind == kind :: c.objects[k]
  }

  /** What is out of reach without the scopes. Deleting an organization takes its namespace and every object in it,
      so objects are out of reach only if the organizations are. */
  predicate Protected(s: Stores, s': Stores, w: Withheld) {
    && (w.organizations ==> s'.tables == s.tables)
    && (w.organizations && w.builders ==>
          && s'.cluster.namespaces == s.cluster.namespaces
          && OfKind(s'.cluster, BuilderKind) == OfKind(s.cluster, BuilderKind))
    && (w.organizations && w.templates ==> OfKind(s'.cluster, TemplateKind) == OfKind(s.cluster, TemplateKind))
    && (w.organizations && w.builders && w.templates ==> s'.cluster == s.cluster)
  }

  lemma LookupAnswer(env: Env, s: Stores, pc: Pc, id: string)
    requires pc.Gate? && pc.g.KeyLookup?
    ensures var a := Execute(s, Issue(env, pc, id)).1;
            a.KeyIs? ==> pc.g.hash in s.accounts.keys && a.key == s.accounts.keys[pc.g.hash]
  {
  }

  lemma ObjectCallProtects(env: Env, s: Stores, b: ObjPc, w: Withheld)
    requires OpenPoint(s.accounts, Obj(b), w)
    ensures Protected(s, Execute(s, IssueObj(env, b)).0, w)
  {
    var call := IssueObj(env, b);
    if call.OnCluster? {
      OneKindCall(s.cluster, call.c, KeyOf(b.act).kind);
    }
    hide ExecuteCluster, ExecuteAccounts, NewBody, WakePatch, WithSpec;
  }

  lemma OneKindCall(c: Cluster, call: ClusterCall, kind: Kind)
    requires match call
      case CreateNamespace(_) => true
      case CreateObject(k, _) => k.kind == kind
      case UpdateObject(k, _) => k.kind == kind
      case PatchObject(k, _) => k.kind == kind
      case DeleteObject(k) => k.kind == kind
      case GetObject(_) => true
      case ListObjects(_, _) => true
      case _ => false
    ensures var c' := ExecuteCluster(c, call).0;
            && (forall other: Kind | other != kind :: OfKind(c', other) == OfKind(c, other))
            && (!call.CreateNamespace? ==> c'.namespaces == c.namespaces)
            && (call.GetObject? || call.ListObjects? ==> c' == c)
            && (call.CreateNamespace? ==> c'.objects == c.objects)
  {
  }

  lemma CallProtects(env: Env, s: Stores, pc: Pc, id: string, w: Withheld)
    requires Live(pc) && KeyPoint(pc) && OpenPoint(s.accounts, pc, w)
    ensures Protected(s, Execute(s, Issue(env, pc, id)).0, w)
  {
    if pc.Obj? {
      ObjectCallProtects(env, s, pc.b, w);
    }
    hide MethodOf, Lacks, IssueObj;
  }

  lemma ProtectedChain(s: Stores, t: Stores, u: Stores, w: Withheld)
    requires Protected(s, t, w) && Protected(t, u, w)
    ensures Protected(s, u, w)
  {
    hide OfKind;
  }

  lemma OpenStep(env: Env, s: Stores, pc: Pc, c: Choice, w: Withheld)
    requires Live(pc) && KeyPoint(pc) && OpenPoint(s.accounts, pc, w)
    ensures var (s', q) := Step(env, s, pc, c); Protected(s, s', w) && OpenPoint(s'.accounts, q, w)
  {
    var (s', a) := Perform(s, Issue(env, pc, c.id), c.fault);
    CallProtects(env, s, pc, c.id, w);
    if pc.Gate? && pc.g.KeyLookup? {
      LookupAnswer(env, s, pc, c.id);
    }
    OpenPointStays(env, s'.now, s, pc, a, w);
    KeyStep(env, s, pc, c);
    OpenPointOfSame(s.accounts, s'.accounts, Resume(env, s'.now, pc, a), w);
    hide Resume, Issue, KeyPoint, OpenPoint, Execute, SameAccounts, OfKind;
  }

  lemma ArrivesOpen(env: Env, now: nat, req: Request, a: Accounts, w: Withheld)
    requires KeyRequest(req) && LackingRequest(env, a, req, w)
    ensures OpenPoint(a, Begin(env, now, req), w)
  {
    hide Enter, Admit, Bearer.Extract, Bearer.LooksLikeJWT, MethodOf, LackingKey;
  }

  lemma LackingRequestOfSame(env: Env, a: Accounts, b: Accounts, req: Request, w: Withheld)
    requires LackingRequest(env, a, req, w) && SameAccounts(a, b)
    ensures LackingRequest(env, b, req, w)
  {
    hide Lacks, Bearer.Extract;
  }

  ghost predicate Kept(s0: Stores, y: Sys, w: Withheld) {
    && KeysOnly(s0, y) && Protected(s0, y.s, w)
    && forall r | r in y.procs :: OpenPoint(y.s.accounts, y.procs[r], w)
  }

  lemma CallKeeps(env: Env, s0: Stores, y: Sys, rid: ReqId, c: Choice, w: Withheld)
    requires Kept(s0, y, w) && InFlight(y, rid)
    ensures Kept(s0, Next(env, y, Action.Call(rid, c)), w)
  {
    var s' := Step(env, y.s, y.procs[rid], c).0;
    NextKeepsKeysOnly(env, s0, y, Action.Call(rid, c));
    OpenStep(env, y.s, y.procs[rid], c, w);
    KeyStep(env, y.s, y.procs[rid], c);
    ProtectedChain(s0, y.s, s', w);
    forall r | r in y.procs ensures OpenPoint(s'.accounts, y.procs[r], w) {
      OpenPointOfSame(y.s.accounts, s'.accounts, y.procs[r], w);
    }
    hide Step, Issue, OpenPoint, KeyPoint, SameAccounts, Protected;
  }

  lemma NextKeeps(env: Env, s0: Stores, y: Sys, a: Action, w: Withheld)
    requires Kept(s0, y, w) && !a.Operate?
    requires a.Arrive? ==> KeyRequest(a.req) && LackingRequest(env, s0.accounts, a.req, w)
    ensures Kept(s0, Next(env, y, a), w)
  {
    if a.Call? && InFlight(y, a.rid) {
      CallKeeps(env, s0, y, a.rid, a.choice, w);
    } else {
      NextKeepsKeysOnly(env, s0, y, a);
      if a.Arrive? {
        LackingRequestOfSame(env, s0.accounts, y.s.accounts, a.req, w);
        ArrivesOpen(env, y.s.now, a.req, y.s.accounts, w);
      }
    }
    hide Begin, NextEvent, KeyRequest, LackingRequest, OpenPoint, KeyPoint, SameAccounts, OfKind;
  }

  /** In every run of requests that authenticate by API keys, what the keys have no write scope for stays as it was:
      without the organizations' the tables, without that and the builders' all builders and namespaces, without
      that and the templates' all templates, and without any the whole cluster. The operator reports nothing. */
  lemma {:induction false} WithheldScopesProtect(env: Env, s0: Stores, acts: seq<Action>, w: Withheld)
    requires OnlyKeys(acts)
    requires forall a | a in acts :: !a.Operate? && (a.Arrive? ==> LackingRequest(env, s0.accounts, a.req, w))
    ensures Kept(s0, Run(env, Boot(s0), acts), w)
  {
    hide Next;
    if acts != [] {
      var k := |acts| - 1;
      WithheldScopesProtect(env, s0, acts[..k], w);
      assert acts[k] in acts;
      NextKeeps(env, s0, Run(env, Boot(s0), acts[..k]), acts[k], w);
      hide Kept;
    }
    hide LackingRequest, KeyRequest;
  }
}
