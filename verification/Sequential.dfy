/** Organization requests run one at a time, with any outcome of each call: creation is all or nothing,
    and deletion converges. */
module Sequential {
  import opened Wrappers
  import opened Text
  import opened Stores
  import opened Programs
  import opened Lifecycle
  import Slugs

  function Head(choices: seq<Choice>): Choice {
    if choices == [] then Choice(NoFault, "") else choices[0]
  }

  function Rest(choices: seq<Choice>): seq<Choice> {
    if choices == [] then [] else choices[1..]
  }

  /** The outcome of the `i`th call. */
  function FaultAt(choices: seq<Choice>, i: nat): Fault {
    if i < |choices| then choices[i].fault else NoFault
  }

  lemma AloneStep(env: Env, s: Stores, pc: Pc, choices: seq<Choice>)
    requires Live(pc)
    ensures var (s', pc') := Step(env, s, pc, Head(choices));
            !pc'.Crashed? && RunAlone(env, s, pc, choices) == RunAlone(env, s', pc', Rest(choices))
  {
    ResumeAdvances(env, s.now, pc, Perform(s, Issue(env, pc, Head(choices).id), Head(choices).fault).1);
    hide Issue, Execute, Resume;
  }

  /** A request of an identified user, handled from beginning to end. */
  function Handle(env: Env, s: Stores, user: string, op: Op, choices: seq<Choice>): (r: (Stores, Pc))
    ensures r.1.Finished?
  {
    EnterFirst(env, s.now, user, op);
    RunAlone(env, s, Enter(env, s.now, user, op), choices)
  }

  lemma HandleRuns(env: Env, s: Stores, user: string, op: Op, choices: seq<Choice>)
    ensures !Enter(env, s.now, user, op).Crashed?
    ensures Handle(env, s, user, op, choices) == RunAlone(env, s, Enter(env, s.now, user, op), choices)
  {
    EnterFirst(env, s.now, user, op);
    hide Enter, RunAlone;
  }

  /** The tables without an organization and its memberships. */
  function Dropped(t: Tables, n: string): Tables {
    Tables(t.orgs - {n}, map p | p in t.members && p.1 != n :: t.members[p])
  }

  /** The cluster without a namespace and the objects in it. */
  function ClearedOf(c: Cluster, n: string): Cluster {
    c.(namespaces := c.namespaces - {n}, objects := map k | k in c.objects && k.ns != n :: c.objects[k])
  }

  // ---- Creation ----

  lemma UndoAlone(env: Env, s: Stores, n: string, choices: seq<Choice>)
    requires n in s.tables.orgs
    ensures RunAlone(env, s, Org(CreateUndo(n)), choices) ==
            (if FaultAt(choices, 0).FailStop? then s else s.(tables := Dropped(s.tables, n)), Reject(Internal))
  {
    AloneStep(env, s, Org(CreateUndo(n)), choices);
    hide ResumeGate, ResumeAccount, ResumeObj, IssueObj, IssueAccount, ExecuteAccounts, ExecuteCluster;
  }

  lemma EnsureAlone(env: Env, s: Stores, n: string, org: OrgRow, choices: seq<Choice>)
    requires n in s.tables.orgs && n !in s.cluster.namespaces && !FaultAt(choices, 0).LostReply?
    ensures RunAlone(env, s, Org(CreateEnsure(n, org)), choices) ==
            if FaultAt(choices, 0).NoFault?
            then (s.(cluster := s.cluster.(namespaces := s.cluster.namespaces + {n})), Finished(OrgReply(n, org, 1)))
            else (if FaultAt(choices, 1).FailStop? then s else s.(tables := Dropped(s.tables, n)), Reject(Internal))
  {
    AloneStep(env, s, Org(CreateEnsure(n, org)), choices);
    if FaultAt(choices, 0).FailStop? {
      UndoAlone(env, s, n, Rest(choices));
    }
    hide ResumeGate, ResumeAccount, ResumeObj, IssueObj, IssueAccount, ExecuteAccounts, ExecuteTables, Dropped;
  }

  function WithOwner(t: Tables, user: string, n: string): Tables {
    t.(members := t.members[(user, n) := Owner])
  }

  lemma OwnerAlone(env: Env, s: Stores, user: string, n: string, org: OrgRow, choices: seq<Choice>)
    requires n in s.tables.orgs && n !in s.cluster.namespaces && (user, n) !in s.tables.members
    requires !FaultAt(choices, 0).LostReply? && !FaultAt(choices, 1).LostReply?
    ensures RunAlone(env, s, Org(CreateOwner(user, n, org)), choices) ==
            if FaultAt(choices, 0).NoFault? && HasUser(s.accounts, user)
            then RunAlone(env, s.(tables := WithOwner(s.tables, user, n)), Org(CreateEnsure(n, org)), Rest(choices))
            else (if FaultAt(choices, 1).FailStop? then s else s.(tables := Dropped(s.tables, n)), Reject(Internal))
  {
    AloneStep(env, s, Org(CreateOwner(user, n, org)), choices);
    if !(FaultAt(choices, 0).NoFault? && HasUser(s.accounts, user)) {
      UndoAlone(env, s, n, Rest(choices));
    }
    hide ResumeGate, ResumeAccount, ResumeObj, IssueObj, IssueAccount, ExecuteAccounts, ExecuteCluster, Dropped;
    hide RunAlone, HasUser;
  }

  lemma InsertAlone(env: Env, s: Stores, user: string, org: OrgRow, choices: seq<Choice>)
    requires !FaultAt(choices, 0).LostReply?
    ensures var c := Head(choices);
            RunAlone(env, s, Org(CreateInsert(user, org)), choices) ==
            if !c.fault.NoFault? || !Normal(env, c.id) || c.id in s.issued then (s, Reject(Internal))
            else if SlugTaken(s.tables, org.slug, c.id) then (s, Reject(AlreadyExists))
            else RunAlone(env, s.(tables := s.tables.(orgs := s.tables.orgs[c.id := org]), issued := s.issued + {c.id}),
                          Org(CreateOwner(user, c.id, org)), Rest(choices))
  {
    AloneStep(env, s, Org(CreateInsert(user, org)), choices);
    hide ResumeGate, ResumeAccount, ResumeObj, IssueObj, IssueAccount, ExecuteAccounts, ExecuteCluster, SlugTaken;
  }

  /** The row a creation request asks for. */
  function AskedRow(name: string, slug: string, plan: string): OrgRow {
    OrgRow(TrimSpace(name), NormalSlug(slug), if TrimSpace(plan) == "" then DEFAULT_PLAN else TrimSpace(plan))
  }

  /** What a request must look like for the first call to be made. */
  predicate WellFormed(user: string, name: string, slug: string, plan: string) {
    user != "" && TrimSpace(name) != "" && TrimSpace(slug) != "" && ValidRow(AskedRow(name, slug, plan))
  }

  lemma EnterCreate(env: Env, now: nat, user: string, name: string, slug: string, plan: string)
    ensures Enter(env, now, user, CreateOrganization(name, slug, plan)) ==
            if WellFormed(user, name, slug, plan) then Org(CreateInsert(user, AskedRow(name, slug, plan)))
            else Reject(if user == "" then Unauthenticated else InvalidArgument)
  {
  }

  predicate FailStopOnly(choices: seq<Choice>) {
    forall c | c in choices :: c.fault != LostReply
  }

  /** The row goes in: the call works, the identifier is one the database generates, it is new, and the slug is free. */
  predicate Inserts(env: Env, s: Stores, row: OrgRow, choices: seq<Choice>) {
    && FaultAt(choices, 0).NoFault? && Normal(env, Head(choices).id) && Head(choices).id !in s.issued
    && !SlugTaken(s.tables, row.slug, Head(choices).id)
  }

  predicate AddsOwner(s: Stores, user: string, choices: seq<Choice>) {
    FaultAt(choices, 1).NoFault? && HasUser(s.accounts, user)
  }

  /** The compensating delete is reached and fails. */
  predicate UndoFails(s: Stores, user: string, choices: seq<Choice>) {
    FaultAt(choices, 2).FailStop? && (AddsOwner(s, user, choices) ==> FaultAt(choices, 3).FailStop?)
  }

  function WithRow(s: Stores, n: string, row: OrgRow): Stores {
    s.(tables := s.tables.(orgs := s.tables.orgs[n := row]), issued := s.issued + {n})
  }

  /** The stores with a new organization, its owner and its namespace. */
  function WithOrganization(s: Stores, user: string, n: string, row: OrgRow): Stores {
    var t := WithRow(s, n, row);
    t.(tables := WithOwner(t.tables, user, n), cluster := s.cluster.(namespaces := s.cluster.namespaces + {n}))
  }

  lemma FreshId(env: Env, s: Stores, user: string, n: string, row: OrgRow)
    requires Schema(env, s) && n !in s.issued && Normal(env, n)
    ensures n !in s.tables.orgs && n !in s.cluster.namespaces && (user, n) !in s.tables.members
    ensures Dropped(WithRow(s, n, row).tables, n) == s.tables
    ensures Dropped(WithOwner(WithRow(s, n, row).tables, user, n), n) == s.tables
  {
    assert forall p | p in s.tables.members :: p.1 != n;
    assert s.tables.orgs[n := row] - {n} == s.tables.orgs;
  }

  lemma CreateFromInsert(env: Env, s: Stores, user: string, row: OrgRow, choices: seq<Choice>)
    requires Schema(env, s) && FailStopOnly(choices) && Inserts(env, s, row, choices)
    ensures var n := Head(choices).id;
            RunAlone(env, s, Org(CreateInsert(user, row)), choices) ==
            if AddsOwner(s, user, choices) && FaultAt(choices, 2).NoFault?
            then (WithOrganization(s, user, n, row), Finished(OrgReply(n, row, 1)))
            else if !UndoFails(s, user, choices) then (s.(issued := s.issued + {n}), Reject(Internal))
            else if AddsOwner(s, user, choices)
            then (WithRow(s, n, row).(tables := WithOwner(WithRow(s, n, row).tables, user, n)), Reject(Internal))
            else (WithRow(s, n, row), Reject(Internal))
  {
    var n := Head(choices).id;
    var s1 := WithRow(s, n, row);
    var s2 := s1.(tables := WithOwner(s1.tables, user, n));
    var rest := Rest(choices);
    FreshId(env, s, user, n, row);
    assert forall i | 0 <= i < |choices| :: choices[i] in choices;
    assert forall i: nat :: FaultAt(rest, i) == FaultAt(choices, i + 1);
    assert forall i: nat :: FaultAt(Rest(rest), i) == FaultAt(choices, i + 2);
    InsertAlone(env, s, user, row, choices);
    OwnerAlone(env, s1, user, n, row, rest);
    EnsureAlone(env, s2, n, row, Rest(rest));
    hide RunAlone, Schema, SlugTaken, HasUser, Dropped, WithOwner;
  }

  /** Creation is all or nothing under fail-stop faults. It succeeds exactly when the request is well formed,
      the identifier and the slug are free, the user exists and none of the three calls fails; success adds
      one normalised row, one owner and one namespace. Otherwise an error is reported, and organizations,
      memberships and namespaces are as before exactly unless the compensating delete was needed and failed. */
  lemma CreateAllOrNothing(env: Env, s: Stores, user: string, name: string, slug: string, plan: string,
                           choices: seq<Choice>)
    requires Schema(env, s) && FailStopOnly(choices)
    ensures var row := AskedRow(name, slug, plan);
            var n := Head(choices).id;
            var (s', end) := Handle(env, s, user, CreateOrganization(name, slug, plan), choices);
            var inserted := WellFormed(user, name, slug, plan) && Inserts(env, s, row, choices);
            && (end == Finished(OrgReply(n, row, 1)) <==>
                  inserted && AddsOwner(s, user, choices) && FaultAt(choices, 2).NoFault?)
            && (end == Finished(OrgReply(n, row, 1)) ==> s' == WithOrganization(s, user, n, row))
            && (end != Finished(OrgReply(n, row, 1)) ==>
                  && end.reply.Rejected? && s'.accounts == s.accounts && s'.cluster == s.cluster
                  && (s'.tables == s.tables <==> !(inserted && UndoFails(s, user, choices))))
  {
    var row := AskedRow(name, slug, plan);
    var n := Head(choices).id;
    EnterCreate(env, s.now, user, name, slug, plan);
    if WellFormed(user, name, slug, plan) {
      if Inserts(env, s, row, choices) {
        CreateFromInsert(env, s, user, row, choices);
        FreshId(env, s, user, n, row);
        assert n in WithRow(s, n, row).tables.orgs;
      } else {
        assert forall i | 0 <= i < |choices| :: choices[i] in choices;
        InsertAlone(env, s, user, row, choices);
      }
    }
    hide Enter, Schema, SlugTaken, HasUser, Dropped, WithOwner, WellFormed, AskedRow, AddsOwner, UndoFails;
  }

  // ---- Deletion ----

  /** Objects live in namespaces. */
  ghost predicate Housed(c: Cluster) {
    forall k | k in c.objects :: k.ns in c.namespaces
  }

  lemma RowAlone(env: Env, s: Stores, id: string, n: string, choices: seq<Choice>)
    requires Spells(env, id, n)
    ensures RunAlone(env, s, Org(DeleteRow(id)), choices) ==
            (if FaultAt(choices, 0).FailStop? || n !in s.tables.orgs then s else s.(tables := Dropped(s.tables, n)),
             if !FaultAt(choices, 0).NoFault? then Reject(Internal)
             else if n in s.tables.orgs then Finished(Deleted) else Reject(NotFound))
  {
    AloneStep(env, s, Org(DeleteRow(id)), choices);
    hide ResumeGate, ResumeAccount, ResumeObj, IssueObj, IssueAccount, ExecuteAccounts, ExecuteCluster;
  }

  lemma SpaceAlone(env: Env, s: Stores, id: string, choices: seq<Choice>)
    requires Housed(s.cluster)
    ensures var s1 := if FaultAt(choices, 0).FailStop? then s else s.(cluster := ClearedOf(s.cluster, id));
            RunAlone(env, s, Org(DeleteSpace(id)), choices) ==
            if FaultAt(choices, 0).NoFault? then RunAlone(env, s1, Org(DeleteRow(id)), Rest(choices))
            else (s1, Reject(Internal))
  {
    AloneStep(env, s, Org(DeleteSpace(id)), choices);
    assert id !in s.cluster.namespaces ==> ClearedOf(s.cluster, id) == s.cluster by {
      assert id !in s.cluster.namespaces ==> ClearedOf(s.cluster, id).objects == s.cluster.objects;
    }
    hide ResumeGate, ResumeAccount, ResumeObj, IssueObj, IssueAccount, ExecuteAccounts, ExecuteTables;
  }

  lemma RoleAlone(env: Env, s: Stores, user: string, id: string, n: string, choices: seq<Choice>)
    requires Spells(env, id, n)
    ensures RunAlone(env, s, Org(DeleteRole(user, id)), choices) ==
            if !FaultAt(choices, 0).NoFault? then (s, Reject(Internal))
            else if (user, n) !in s.tables.members then (s, Reject(NotFound))
            else if s.tables.members[(user, n)] != Owner then (s, Reject(PermissionDenied))
            else RunAlone(env, s, Org(DeleteSpace(id)), Rest(choices))
  {
    AloneStep(env, s, Org(DeleteRole(user, id)), choices);
    hide ResumeGate, ResumeAccount, ResumeObj, IssueObj, IssueAccount, ExecuteAccounts, ExecuteCluster;
  }

  datatype Attempt = Attempt(user: string, id: string, choices: seq<Choice>)

  /** One deletion request run to its end. */
  function TryDelete(env: Env, s: Stores, a: Attempt): (Stores, Pc) {
    Handle(env, s, a.user, DeleteOrganization(a.id), a.choices)
  }

  /** Deletion requests one after another, each with its own user, spelling and faults. */
  function TryAll(env: Env, s: Stores, tries: seq<Attempt>): Stores {
    if tries == [] then s else TryDelete(env, TryAll(env, s, tries[..|tries| - 1]), tries[|tries| - 1]).0
  }

  /** The cluster without some namespaces and the objects in them. */
  function ClearedAll(c: Cluster, gone: set<string>): Cluster {
    c.(namespaces := c.namespaces - gone, objects := map k | k in c.objects && k.ns !in gone :: c.objects[k])
  }

  /** Nothing but the organization and namespaces named by its spellings is touched, and a namespace goes first. */
  predicate PartlyDeleted(s0: Stores, s: Stores, n: string, gone: set<string>) {
    && s == s0.(tables := s.tables, cluster := ClearedAll(s0.cluster, gone))
    && (s.tables == s0.tables || (s.tables == Dropped(s0.tables, n) && gone != {}))
  }

  lemma ClearedMore(c: Cluster, gone: set<string>, id: string)
    ensures ClearedOf(ClearedAll(c, gone), id) == ClearedAll(c, gone + {id})
    ensures ClearedAll(c, {}) == c && ClearedAll(c, {id}) == ClearedOf(c, id)
    ensures Housed(c) ==> Housed(ClearedAll(c, gone)) && Housed(ClearedOf(c, id))
  {
    assert ClearedAll(c, {}).objects == c.objects;
    assert ClearedOf(ClearedAll(c, gone), id).objects == ClearedAll(c, gone + {id}).objects;
  }

  lemma DroppedTwice(t: Tables, n: string)
    ensures Dropped(Dropped(t, n), n) == Dropped(t, n)
    ensures n !in Dropped(t, n).orgs && forall u :: (u, n) !in Dropped(t, n).members
  {
  }

  lemma AttemptEffect(env: Env, s: Stores, n: string, a: Attempt)
    requires Housed(s.cluster) && Spells(env, a.id, n)
    ensures var s' := TryDelete(env, s, a).0;
            || s' == s
            || s' == s.(cluster := ClearedOf(s.cluster, a.id))
            || (s' == s.(tables := Dropped(s.tables, n), cluster := ClearedOf(s.cluster, a.id)) && n in s.tables.orgs)
  {
    if a.user != "" && a.id != "" {
      RoleAlone(env, s, a.user, a.id, n, a.choices);
      SpaceAlone(env, s, a.id, Rest(a.choices));
      RowAlone(env, s.(cluster := ClearedOf(s.cluster, a.id)), a.id, n, Rest(Rest(a.choices)));
    }
    hide RunAlone, ClearedOf, Dropped, Housed;
  }

  lemma AttemptKeepsPartlyDeleted(env: Env, s0: Stores, s: Stores, n: string, a: Attempt, gone: set<string>)
    requires Housed(s0.cluster) && PartlyDeleted(s0, s, n, gone) && Spells(env, a.id, n)
    ensures var s' := TryDelete(env, s, a).0;
            PartlyDeleted(s0, s', n, gone) || PartlyDeleted(s0, s', n, gone + {a.id})
  {
    ClearedMore(s0.cluster, gone, a.id);
    DroppedTwice(s0.tables, n);
    AttemptEffect(env, s, n, a);
    hide TryDelete, ClearedOf, ClearedAll, Dropped, Housed;
  }

  /** Deletion requests for one organization, by whatever spellings, fail having deleted some of the namespaces they
      name; the row goes only after one of these, and nothing else is touched. */
  lemma {:induction false} TriesKeepPartlyDeleted(env: Env, s0: Stores, n: string, tries: seq<Attempt>,
                                                 ids: set<string>)
      returns (gone: set<string>)
    requires Housed(s0.cluster) && forall a | a in tries :: a.id in ids && Spells(env, a.id, n)
    ensures gone <= ids && PartlyDeleted(s0, TryAll(env, s0, tries), n, gone)
  {
    gone := {};
    ClearedMore(s0.cluster, {}, n);
    if tries != [] {
      var k := |tries| - 1;
      var a := tries[k];
      assert a in tries && forall b | b in tries[..k] :: b in tries;
      gone := TriesKeepPartlyDeleted(env, s0, n, tries[..k], ids);
      AttemptKeepsPartlyDeleted(env, s0, TryAll(env, s0, tries[..k]), n, a, gone);
      if !PartlyDeleted(s0, TryAll(env, s0, tries), n, gone) {
        gone := gone + {a.id};
      }
    }
    hide TryDelete, PartlyDeleted, Housed, Spells;
  }

  predicate FaultFree(choices: seq<Choice>) {
    forall c | c in choices :: c.fault == NoFault
  }

  lemma FaultFreeDelete(env: Env, s: Stores, id: string, n: string, owner: string, choices: seq<Choice>)
    requires Housed(s.cluster) && FaultFree(choices) && owner != "" && id != "" && Spells(env, id, n)
    requires (owner, n) in s.tables.members ==> s.tables.members[(owner, n)] == Owner && n in s.tables.orgs
    ensures TryDelete(env, s, Attempt(owner, id, choices)) ==
            if (owner, n) in s.tables.members
            then (s.(tables := Dropped(s.tables, n), cluster := ClearedOf(s.cluster, id)), Finished(Deleted))
            else (s, Reject(NotFound))
  {
    assert forall i | 0 <= i < |choices| :: choices[i] in choices;
    RoleAlone(env, s, owner, id, n, choices);
    if (owner, n) in s.tables.members {
      SpaceAlone(env, s, id, Rest(choices));
      RowAlone(env, s.(cluster := ClearedOf(s.cluster, id)), id, n, Rest(Rest(choices)));
    }
    hide RunAlone, ClearedOf, Dropped, Housed;
  }

  /** If all requests spell the identifier in its normal form: however many deletions failed before, in whatever way
      and by whomever, one without faults by an owner leaves exactly the state without the organization, its
      memberships, its namespace and its objects. It reports NotFound only if an earlier attempt removed the row and
      its reply was lost. */
  lemma DeleteConverges(env: Env, s0: Stores, n: string, owner: string, tries: seq<Attempt>, last: seq<Choice>)
    requires Schema(env, s0) && Housed(s0.cluster) && FaultFree(last)
    requires Normal(env, n) && forall a | a in tries :: a.id == n
    requires owner != "" && n != "" && (owner, n) in s0.tables.members && s0.tables.members[(owner, n)] == Owner
    ensures var s := TryAll(env, s0, tries);
            var (s', end) := TryDelete(env, s, Attempt(owner, n, last));
            && s' == s0.(tables := Dropped(s0.tables, n), cluster := ClearedOf(s0.cluster, n))
            && end == if n in s.tables.orgs then Finished(Deleted) else Reject(NotFound)
  {
    var s := TryAll(env, s0, tries);
    var gone := TriesKeepPartlyDeleted(env, s0, n, tries, {n});
    assert gone == {} || gone == {n};
    assert gone + {n} == {n};
    ClearedMore(s0.cluster, gone, n);
    DroppedTwice(s0.tables, n);
    assert n in s0.tables.orgs;
    FaultFreeDelete(env, s, n, n, owner, last);
    hide TryDelete, ClearedOf, ClearedAll, Dropped, Housed, TryAll, Schema;
  }

  /** A deletion removes the row whatever the spelling, but only the namespace of exactly the text it sent. So an
      owner's deletion without any fault takes the organization's namespace with it if and only if it spells the
      identifier in its normal form; otherwise the namespace is orphaned by this one request. */
  lemma DeleteClearsIffNormal(env: Env, s: Stores, id: string, n: string, owner: string, choices: seq<Choice>)
    requires Schema(env, s) && Housed(s.cluster) && FaultFree(choices) && n in s.cluster.namespaces
    requires owner != "" && id != "" && Spells(env, id, n)
    requires (owner, n) in s.tables.members && s.tables.members[(owner, n)] == Owner
    ensures var (s', end) := TryDelete(env, s, Attempt(owner, id, choices));
            && end == Finished(Deleted)
            && s' == s.(tables := Dropped(s.tables, n), cluster := ClearedOf(s.cluster, id))
            && (n !in s'.cluster.namespaces <==> Normal(env, id))
  {
    assert n in s.tables.orgs && Normal(env, n);
    FaultFreeDelete(env, s, id, n, owner, choices);
    hide TryDelete, Dropped, Housed, Schema;
  }

  /** Once the row is gone every further attempt, by anyone, with any spelling and any faults, changes nothing and
      says NotFound, or Internal when its first call fails. */
  lemma DeletedStaysDeleted(env: Env, s: Stores, n: string, a: Attempt)
    requires Schema(env, s) && n !in s.tables.orgs && a.user != "" && a.id != "" && Spells(env, a.id, n)
    ensures TryDelete(env, s, a) == (s, Reject(if FaultAt(a.choices, 0).NoFault? then NotFound else Internal))
  {
    RoleAlone(env, s, a.user, a.id, n, a.choices);
    hide RunAlone;
  }

  // ---- Updates ----

  /** The row an update request asks for: each field it fills in, trimmed and for a slug lower-cased, and the
      others as they were. */
  function Wanted(row: OrgRow, name: string, slug: string, plan: string): OrgRow {
    OrgRow(if name == "" then row.name else TrimSpace(name),
           if slug == "" then row.slug else NormalSlug(slug),
           if plan == "" then row.plan else plan)
  }

  predicate FieldsLegal(slug: string, plan: string) {
    (slug == "" || Slugs.ValidSlug(NormalSlug(slug))) && (plan == "" || LegalPlan(plan))
  }

  predicate MayUpdate(t: Tables, user: string, n: string) {
    (user, n) in t.members && !t.members[(user, n)].Member?
  }

  /** What an update may do to the stores. */
  function Updated(s: Stores, n: string, row: OrgRow): Stores {
    s.(tables := s.tables.(orgs := s.tables.orgs[n := row]))
  }

  lemma ReadAlone(env: Env, s: Stores, user: string, id: string, n: string, choices: seq<Choice>)
    requires Spells(env, id, n)
    ensures RunAlone(env, s, Org(OrgRead(user, id)), choices) ==
            (s, if !FaultAt(choices, 0).NoFault? then Reject(Internal)
                else if n in s.tables.orgs && (user, n) in s.tables.members
                then Finished(OrgReply(n, s.tables.orgs[n], |RolesIn(s.tables, n)|)) else Reject(NotFound))
  {
    AloneStep(env, s, Org(OrgRead(user, id)), choices);
    hide ResumeGate, ResumeAccount, ResumeObj, IssueObj, IssueAccount, ExecuteAccounts, ExecuteCluster, RolesIn;
  }

  lemma ChangeIsWanted(row: OrgRow, name: string, slug: string, plan: string)
    ensures Changed(row, ChangeOf(name, slug, plan)) == Wanted(row, name, slug, plan)
  {
    hide TrimSpace, NormalSlug;
  }

  lemma UpdateCall(s: Stores, n: string, name: string, slug: string, plan: string)
    requires n in s.tables.orgs
    ensures Execute(s, OnTables(UpdateOrg(Some(n), ChangeOf(name, slug, plan)))) ==
            if slug == "" || !SlugTaken(s.tables, NormalSlug(slug), n)
            then (Updated(s, n, Wanted(s.tables.orgs[n], name, slug, plan)), Done(1)) else (s, Duplicate)
  {
    ChangeIsWanted(s.tables.orgs[n], name, slug, plan);
    hide Changed, TrimSpace, NormalSlug, Wanted, SlugTaken;
  }

  lemma WriteAlone(env: Env, s: Stores, user: string, id: string, n: string, name: string, slug: string, plan: string,
                   choices: seq<Choice>)
    requires n in s.tables.orgs && Spells(env, id, n)
    ensures var row := Wanted(s.tables.orgs[n], name, slug, plan);
            var free := slug == "" || !SlugTaken(s.tables, NormalSlug(slug), n);
            RunAlone(env, s, Org(UpdateWrite(user, id, ChangeOf(name, slug, plan))), choices) ==
            if FaultAt(choices, 0).NoFault? && free
            then RunAlone(env, Updated(s, n, row), Org(OrgRead(user, id)), Rest(choices))
            else (if FaultAt(choices, 0).LostReply? && free then Updated(s, n, row) else s,
                  Reject(if FaultAt(choices, 0).NoFault? then AlreadyExists else Internal))
  {
    UpdateCall(s, n, name, slug, plan);
    AloneStep(env, s, Org(UpdateWrite(user, id, ChangeOf(name, slug, plan))), choices);
    hide ResumeGate, ResumeAccount, ResumeObj, IssueObj, IssueAccount, Execute, ChangeOf;
    hide NormalSlug, Wanted, SlugTaken, Updated;
  }

  lemma UpdateRoleAlone(env: Env, s: Stores, user: string, id: string, n: string, name: string, slug: string,
                        plan: string, choices: seq<Choice>)
    requires Spells(env, id, n)
    ensures RunAlone(env, s, Org(UpdateRole(user, id, name, slug, plan)), choices) ==
            if !FaultAt(choices, 0).NoFault? then (s, Reject(Internal))
            else if (user, n) !in s.tables.members then (s, Reject(NotFound))
            else if s.tables.members[(user, n)].Member? then (s, Reject(PermissionDenied))
            else if name == "" && slug == "" && plan == "" then RunAlone(env, s, Org(OrgRead(user, id)), Rest(choices))
            else if !FieldsLegal(slug, plan) then (s, Reject(InvalidArgument))
            else RunAlone(env, s, Org(UpdateWrite(user, id, ChangeOf(name, slug, plan))), Rest(choices))
  {
    AloneStep(env, s, Org(UpdateRole(user, id, name, slug, plan)), choices);
    hide ResumeGate, ResumeAccount, ResumeObj, IssueObj, IssueAccount, ExecuteAccounts, ExecuteCluster;
    hide TrimSpace, NormalSlug, Slugs.ValidSlug, ChangeOf;
  }

  lemma WriteThenReadAlone(env: Env, s: Stores, user: string, id: string, n: string, name: string, slug: string,
                           plan: string, choices: seq<Choice>)
    requires n in s.tables.orgs && (user, n) in s.tables.members && Spells(env, id, n)
    ensures var row := Wanted(s.tables.orgs[n], name, slug, plan);
            var free := slug == "" || !SlugTaken(s.tables, NormalSlug(slug), n);
            RunAlone(env, s, Org(UpdateWrite(user, id, ChangeOf(name, slug, plan))), choices) ==
            (if free && !FaultAt(choices, 0).FailStop? then Updated(s, n, row) else s,
             if FaultAt(choices, 0).NoFault? && !free then Reject(AlreadyExists)
             else if FaultAt(choices, 0).NoFault? && FaultAt(choices, 1).NoFault?
             then Finished(OrgReply(n, row, |RolesIn(s.tables, n)|)) else Reject(Internal))
  {
    var row := Wanted(s.tables.orgs[n], name, slug, plan);
    assert RolesIn(Updated(s, n, row).tables, n) == RolesIn(s.tables, n);
    WriteAlone(env, s, user, id, n, name, slug, plan, choices);
    ReadAlone(env, Updated(s, n, row), user, id, n, Rest(choices));
    hide RunAlone, TrimSpace, NormalSlug, ChangeOf, SlugTaken, RolesIn, Wanted;
  }

  lemma EnterUpdate(env: Env, now: nat, user: string, id: string, name: string, slug: string, plan: string)
    requires user != "" && id != ""
    ensures Enter(env, now, user, UpdateOrganization(id, name, slug, plan)) ==
            Org(UpdateRole(user, id, name, slug, plan))
  {
  }

  /** Owners and admins who ask for legal fields and a free slug. */
  predicate Permitted(s: Stores, user: string, n: string, slug: string, plan: string) {
    && MayUpdate(s.tables, user, n) && FieldsLegal(slug, plan)
    && (slug == "" || !SlugTaken(s.tables, NormalSlug(slug), n))
  }

  /** Whatever fails, an update changes nothing, or exactly the asked-for fields of exactly this row, and that only
      when it is permitted. */
  lemma UpdateIsConfined(env: Env, s: Stores, user: string, id: string, n: string, name: string, slug: string,
                         plan: string, choices: seq<Choice>)
    requires Schema(env, s) && user != "" && id != "" && Spells(env, id, n)
    ensures var s' := Handle(env, s, user, UpdateOrganization(id, name, slug, plan), choices).0;
            || s' == s
            || (Permitted(s, user, n, slug, plan) && s' == Updated(s, n, Wanted(s.tables.orgs[n], name, slug, plan)))
  {
    EnterUpdate(env, s.now, user, id, name, slug, plan);
    UpdateRoleAlone(env, s, user, id, n, name, slug, plan, choices);
    if MayUpdate(s.tables, user, n) {
      assert n in s.tables.orgs;
      ReadAlone(env, s, user, id, n, Rest(choices));
      WriteThenReadAlone(env, s, user, id, n, name, slug, plan, Rest(choices));
    }
    hide RunAlone, Enter, NormalSlug, Slugs.ValidSlug, ChangeOf, SlugTaken, RolesIn, Schema, Wanted, Updated;
    hide FieldsLegal;
  }

  /** Without faults it succeeds exactly when it is permitted, and the reply shows the row as it then is. */
  lemma UpdateMeaning(env: Env, s: Stores, user: string, id: string, n: string, name: string, slug: string,
                      plan: string, choices: seq<Choice>)
    requires Schema(env, s) && user != "" && id != "" && Spells(env, id, n) && FaultFree(choices)
    ensures var (s', end) := Handle(env, s, user, UpdateOrganization(id, name, slug, plan), choices);
            if Permitted(s, user, n, slug, plan)
            then var row := Wanted(s.tables.orgs[n], name, slug, plan);
                 s' == Updated(s, n, row) && end == Finished(OrgReply(n, row, |RolesIn(s.tables, n)|))
            else s' == s && end.reply.Rejected?
  {
    assert forall i | 0 <= i < |choices| :: choices[i] in choices;
    assert FaultAt(Rest(choices), 0) == FaultAt(Rest(choices), 1) == FaultAt(choices, 0) == NoFault;
    EnterUpdate(env, s.now, user, id, name, slug, plan);
    UpdateRoleAlone(env, s, user, id, n, name, slug, plan, choices);
    if MayUpdate(s.tables, user, n) {
      assert n in s.tables.orgs;
      NothingWanted(s, n);
      ReadAlone(env, s, user, id, n, Rest(choices));
      WriteThenReadAlone(env, s, user, id, n, name, slug, plan, Rest(choices));
    }
    hide RunAlone, Enter, NormalSlug, Slugs.ValidSlug, ChangeOf, SlugTaken, RolesIn, Schema, Wanted, Updated;
  }

  lemma NothingWanted(s: Stores, n: string)
    requires n in s.tables.orgs
    ensures Wanted(s.tables.orgs[n], "", "", "") == s.tables.orgs[n] && Updated(s, n, s.tables.orgs[n]) == s
  {
    assert s.tables.orgs[n := s.tables.orgs[n]] == s.tables.orgs;
    hide TrimSpace, NormalSlug;
  }

  // ---- Reading organizations ----

  function Members(t: Tables, n: string): set<string> {
    set p | p in t.members && p.1 == n :: p.0
  }

  lemma RolesAreMembers(t: Tables, n: string)
    ensures RolesIn(t, n).Keys == Members(t, n) && |RolesIn(t, n)| == |Members(t, n)|
  {
    assert forall u | u in Members(t, n) :: (u, n) in t.members;
  }

  lemma EnterReads(env: Env, now: nat, user: string, id: string)
    requires user != ""
    ensures id != "" ==> Enter(env, now, user, GetOrganization(id)) == Org(OrgRead(user, id))
    ensures Enter(env, now, user, ListOrganizations) == Org(OrgList(user))
    ensures TrimSpace(id) != "" ==>
              Enter(env, now, user, ListOrganizationMembers(id)) == Org(MembersCheck(user, TrimSpace(id)))
  {
    hide TrimSpace;
  }

  lemma IsMember(t: Tables, user: string, n: string)
    ensures user in Members(t, n) <==> (user, n) in t.members
  {
  }

  lemma NoFaults(choices: seq<Choice>)
    requires FaultFree(choices)
    ensures forall i: nat :: FaultAt(choices, i) == NoFault
    ensures FaultFree(Rest(choices))
  {
    assert forall i | 0 <= i < |choices| :: choices[i] in choices;
  }

  /** Reading an organization changes nothing; a member is shown the row and the number of members, and to anyone
      else the organization does not exist. */
  lemma GetMeaning(env: Env, s: Stores, user: string, id: string, n: string, choices: seq<Choice>)
    requires Schema(env, s) && user != "" && id != "" && Spells(env, id, n) && FaultFree(choices)
    ensures user in Members(s.tables, n) ==> n in s.tables.orgs
    ensures Handle(env, s, user, GetOrganization(id), choices) ==
            (s, if user in Members(s.tables, n) then Finished(OrgReply(n, s.tables.orgs[n], |Members(s.tables, n)|))
                else Reject(NotFound))
  {
    NoFaults(choices);
    IsMember(s.tables, user, n);
    assert (user, n) in s.tables.members ==> n in s.tables.orgs;
    HandleRuns(env, s, user, GetOrganization(id), choices);
    hide *;
    RolesAreMembers(s.tables, n);
    EnterReads(env, s.now, user, id);
    ReadAlone(env, s, user, id, n, choices);
  }

  lemma ListAlone(env: Env, s: Stores, user: string, choices: seq<Choice>)
    ensures RunAlone(env, s, Org(OrgList(user)), choices) ==
            (s, if FaultAt(choices, 0).NoFault? then Finished(OrgsReply(OrgsOf(s.tables, user))) else Reject(Internal))
  {
    AloneStep(env, s, Org(OrgList(user)), choices);
    hide ResumeGate, ResumeAccount, ResumeObj, IssueObj, IssueAccount, ExecuteAccounts, ExecuteCluster, OrgsOf;
  }

  /** The listing shows exactly the organizations the caller is a member of, with the numbers of their members. */
  lemma ListingIsExact(env: Env, s: Stores, user: string, choices: seq<Choice>)
    requires user != "" && FaultFree(choices)
    ensures var (s', end) := Handle(env, s, user, ListOrganizations, choices);
            && s' == s && end.reply.OrgsReply?
            && (forall n :: n in end.reply.orgs <==> n in s.tables.orgs && user in Members(s.tables, n))
            && (forall n | n in end.reply.orgs :: end.reply.orgs[n] == (s.tables.orgs[n], |Members(s.tables, n)|))
  {
    NoFaults(choices);
    var orgs := OrgsOf(s.tables, user);
    forall n ensures n in orgs <==> n in s.tables.orgs && user in Members(s.tables, n) {
      IsMember(s.tables, user, n);
    }
    forall n | n in orgs ensures orgs[n] == (s.tables.orgs[n], |Members(s.tables, n)|) {
      RolesAreMembers(s.tables, n);
    }
    HandleRuns(env, s, user, ListOrganizations, choices);
    hide *;
    EnterReads(env, s.now, user, "");
    ListAlone(env, s, user, choices);
  }

  lemma MembersReadAlone(env: Env, s: Stores, id: string, n: string, choices: seq<Choice>)
    requires Spells(env, id, n)
    ensures RunAlone(env, s, Org(MembersRead(id)), choices) ==
            (s, if FaultAt(choices, 0).NoFault? then Finished(MembersReply(MembersOf(s.tables, s.accounts, n)))
                else Reject(Internal))
  {
    AloneStep(env, s, Org(MembersRead(id)), choices);
    hide ResumeGate, ResumeAccount, ResumeObj, IssueObj, IssueAccount, ExecuteAccounts, ExecuteCluster, MembersOf;
  }

  lemma MembersCheckAlone(env: Env, s: Stores, user: string, id: string, n: string, choices: seq<Choice>)
    requires Spells(env, id, n)
    ensures RunAlone(env, s, Org(MembersCheck(user, id)), choices) ==
            if !FaultAt(choices, 0).NoFault? then (s, Reject(Internal))
            else if (user, n) !in s.tables.members then (s, Reject(PermissionDenied))
            else RunAlone(env, s, Org(MembersRead(id)), Rest(choices))
  {
    AloneStep(env, s, Org(MembersCheck(user, id)), choices);
    hide ResumeGate, ResumeAccount, ResumeObj, IssueObj, IssueAccount, ExecuteAccounts, ExecuteCluster;
  }

  /** The row shows a stored user, with the role they have in the organization. */
  predicate ShowsMember(s: Stores, n: string, row: MemberRow) {
    && (row.id, n) in s.tables.members && s.tables.members[(row.id, n)] == row.role
    && row.email in s.accounts.users && s.accounts.users[row.email].id == row.id
    && s.accounts.users[row.email].name == row.name
  }

  lemma MembersOfAreShown(s: Stores, n: string)
    ensures var members := MembersOf(s.tables, s.accounts, n);
            && (forall row :: row in members <==> ShowsMember(s, n, row))
            && (forall u :: u in Members(s.tables, n) && HasUser(s.accounts, u) <==>
                  exists row :: row in members && row.id == u)
  {
    var members := MembersOf(s.tables, s.accounts, n);
    forall row | ShowsMember(s, n, row) ensures row in members {
      var p := (row.id, n);
      assert row == MemberRow(p.0, row.email, s.accounts.users[row.email].name, s.tables.members[p]);
    }
    forall u | u in Members(s.tables, n) && HasUser(s.accounts, u) ensures exists row :: row in members && row.id == u {
      var e :| e in s.accounts.users && s.accounts.users[e].id == u;
      var row := MemberRow(u, e, s.accounts.users[e].name, s.tables.members[(u, n)]);
      assert ShowsMember(s, n, row);
    }
    hide MembersOf;
  }

  /** A member is shown exactly the members with a user's row, with email, name and role; anyone else is refused. */
  lemma MembersMeaning(env: Env, s: Stores, user: string, text: string, n: string, choices: seq<Choice>)
    requires user != "" && TrimSpace(text) != "" && Spells(env, TrimSpace(text), n) && FaultFree(choices)
    ensures var (s', end) := Handle(env, s, user, ListOrganizationMembers(text), choices);
            && s' == s
            && if user !in Members(s.tables, n) then end == Reject(PermissionDenied)
               else && end.reply.MembersReply?
                    && (forall row :: row in end.reply.members <==> ShowsMember(s, n, row))
                    && (forall u :: u in Members(s.tables, n) && HasUser(s.accounts, u) <==>
                          exists row :: row in end.reply.members && row.id == u)
  {
    var id := TrimSpace(text);
    NoFaults(choices);
    NoFaults(Rest(choices));
    IsMember(s.tables, user, n);
    HandleRuns(env, s, user, ListOrganizationMembers(text), choices);
    hide *;
    MembersOfAreShown(s, n);
    EnterReads(env, s.now, user, text);
    MembersCheckAlone(env, s, user, id, n, choices);
    MembersReadAlone(env, s, id, n, Rest(choices));
  }

  // ---- Text that is no identifier ----

  /** The organization a request asks for, as it spells it. */
  function AskedId(op: Op): Option<string> {
    match op
    case GetOrganization(id) => Some(id)
    case UpdateOrganization(id, _, _, _) => Some(id)
    case DeleteOrganization(id) => Some(id)
    case ListOrganizationMembers(id) => Some(TrimSpace(id))
    case _ => None
  }

  /** The next call asks the database for the organization. */
  predicate Asks(pc: Pc, id: string) {
    pc.Org? && (pc.o.OrgRead? || pc.o.UpdateRole? || pc.o.DeleteRole? || pc.o.MembersCheck?) && pc.o.id == id
  }

  lemma EnterAsks(env: Env, now: nat, user: string, op: Op)
    requires user != "" && AskedId(op).Some? && AskedId(op).value != ""
    ensures Asks(Enter(env, now, user, op), AskedId(op).value)
  {
    hide TrimSpace;
  }

  lemma AskingFails(env: Env, s: Stores, pc: Pc, id: string, choices: seq<Choice>)
    requires Asks(pc, id) && env.uuid(id).None?
    ensures RunAlone(env, s, pc, choices) == (s, Reject(Internal))
  {
    AloneStep(env, s, pc, choices);
    hide ResumeGate, ResumeAccount, ResumeObj, IssueObj, IssueAccount, ExecuteAccounts, ExecuteCluster;
  }

  /** A request that names its organization by text that is no identifier fails and changes nothing. */
  lemma NoIdentifierFails(env: Env, s: Stores, user: string, op: Op, choices: seq<Choice>)
    requires user != "" && AskedId(op).Some? && AskedId(op).value != "" && env.uuid(AskedId(op).value).None?
    ensures Handle(env, s, user, op, choices) == (s, Reject(Internal))
  {
    HandleRuns(env, s, user, op, choices);
    EnterAsks(env, s.now, user, op);
    hide *;
    AskingFails(env, s, Enter(env, s.now, user, op), AskedId(op).value, choices);
  }

  // ---- Blank names ----

  /** A permitted update without faults that finds a name leaves an empty one if and only if it sends blanks. */
  lemma UpdateEmptiesNameIff(env: Env, s: Stores, user: string, id: string, n: string, name: string, slug: string,
                             plan: string, choices: seq<Choice>)
    requires Schema(env, s) && user != "" && id != "" && Spells(env, id, n) && FaultFree(choices)
    requires Permitted(s, user, n, slug, plan) && n in s.tables.orgs && s.tables.orgs[n].name != ""
    ensures var s' := Handle(env, s, user, UpdateOrganization(id, name, slug, plan), choices).0;
            && n in s'.tables.orgs
            && (s'.tables.orgs[n].name == "" <==> name != "" && AllSpace(name))
  {
    UpdateMeaning(env, s, user, id, n, name, slug, plan, choices);
    var before, after := TrimSpaceKeepsTheRest(name);
    if AllSpace(name) && TrimSpace(name) != "" {
      assert TrimSpace(name)[0] in name;
      TrimSpaceTrims(name);
    }
    hide Handle, Permitted, TrimSpace, NormalSlug, Schema, FaultFree;
  }
}
