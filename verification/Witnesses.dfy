/** Whole runs, from requests arriving with a session to the end, in which the exceptions of the main results
    really happen. */
module Witnesses {
  import opened Wrappers
  import opened Text
  import opened Stores
  import opened Programs
  import opened Runs
  import opened Lifecycle
  import opened Saga
  import opened Races
  import opened Sessions
  import L = Linearizability
  import S = Stores
  import B = Builders
  import Bearer
  import Slugs
  import Ownership
  import Scopes

  const TOKEN := "a.b.c"

  /** The token stands for user `u`, from the beginning of time for an hour. */
  predicate Session(env: Env, u: string) {
    u != "" && env.verify(TOKEN) == Some(AccessClaims(u, "", 0))
  }

  function Signed(op: Op): Request {
    Request(op, Some([Bearer.SCHEME + TOKEN]))
  }

  lemma TokenIsJWT()
    ensures Bearer.LooksLikeJWT(TOKEN) && Trimmed(TOKEN)
  {
    SplitJoin(["a", "b", "c"], '.');
    assert ["a", "b", "c"][1..] == ["b", "c"] && ["b", "c"][1..] == ["c"];
    assert Join(["c"], '.') == "c" && Join(["b", "c"], '.') == "b.c" && Join(["a", "b", "c"], '.') == "a.b.c";
  }

  lemma SignedBegins(env: Env, op: Op, u: string)
    requires Session(env, u) && !Scopes.Public(MethodOf(op))
    ensures Begin(env, 0, Signed(op)) == Enter(env, 0, u, op)
  {
    TokenIsJWT();
    Bearer.CredentialSurvives(TOKEN);
    assert Bearer.Extract([Bearer.SCHEME + TOKEN]) == Some(TOKEN);
    hide Enter, MethodOf, Bearer.Extract, Bearer.LooksLikeJWT;
  }

  lemma RunStep(env: Env, y: Sys, acts: seq<Action>, a: Action)
    ensures Run(env, y, acts + [a]) == Next(env, Run(env, y, acts), a)
  {
    assert (acts + [a])[..|acts|] == acts;
    hide Next;
  }

  lemma StepArrive(env: Env, y: Sys, r: ReqId, op: Op, u: string)
    requires r !in y.procs && y.s.now == 0 && Session(env, u) && !Scopes.Public(MethodOf(op))
    ensures Next(env, y, Arrive(r, Signed(op))) == y.(procs := y.procs[r := Enter(env, 0, u, op)])
  {
    SignedBegins(env, op, u);
    hide Enter, Begin, MethodOf, NextEvent;
  }

  lemma StepCheck(env: Env, y: Sys, r: ReqId, u: string, act: Act)
    requires r in y.procs && y.procs[r] == Obj(Check(u, act)) && RoleOf(env, y.s.tables, u, act.ns).Some?
    ensures var y' := Next(env, y, Call(r, OK));
            var q := if act.Create? && KindOf(act.arg).BuilderKind? then Obj(Ensure(act)) else Validated(act);
            y'.s == y.s && y'.procs == y.procs[r := q]
  {
    hide ResumeGate, ResumeAccount, ResumeOrg, IssueFirst, IssueAccount, IssueOrg, ExecuteAccounts, ExecuteCluster;
    hide Validated, AfterFirst;
  }

  lemma StepRole(env: Env, y: Sys, r: ReqId, u: string, text: string)
    requires r in y.procs && y.procs[r] == Org(DeleteRole(u, text)) && RoleOf(env, y.s.tables, u, text) == Some(Owner)
    ensures var y' := Next(env, y, Call(r, OK)); y'.s == y.s && y'.procs == y.procs[r := Org(DeleteSpace(text))]
  {
    hide ResumeGate, ResumeAccount, ResumeObj, IssueAccount, IssueObj, ExecuteAccounts, ExecuteCluster;
  }

  const ROW := OrgRow("n", "n", "starter")
  const SPEC := B.BuilderSpec("t", "", 1, 300, map[])

  /** One organization `n` owned by `u`, with its namespace. */
  function OneOrganization(u: string, n: string): Stores {
    S.Stores.Stores(Accounts(map[], map[]), Tables(map[n := ROW], map[(u, n) := Owner]), Cluster({n}, map[], 0), {n}, 0)
  }

  lemma OneOrganizationIsProper(env: Env, u: string, n: string)
    requires Normal(env, n)
    ensures Schema(env, OneOrganization(u, n)) && n in OneOrganization(u, n).tables.orgs
  {
  }

  lemma OwnerHasRole(env: Env, u: string, n: string, text: string)
    requires Spells(env, text, n)
    ensures RoleOf(env, OneOrganization(u, n).tables, u, text) == Some(Owner)
  {
  }

  lemma RunOfThree(env: Env, y: Sys, a: Action, b: Action, c: Action)
    ensures Run(env, y, [a, b, c]) == Next(env, Next(env, Next(env, y, a), b), c)
  {
    assert Run(env, y, []) == y;
    assert [] + [a] == [a] && [a] + [b] == [a, b] && [a, b] + [c] == [a, b, c];
    hide *;
    RunStep(env, y, [], a);
    RunStep(env, y, [a], b);
    RunStep(env, y, [a, b], c);
  }

  lemma RunOfFour(env: Env, y: Sys, a: Action, b: Action, c: Action, d: Action)
    ensures Run(env, y, [a, b, c, d]) == Next(env, Next(env, Next(env, Next(env, y, a), b), c), d)
  {
    assert [a, b, c] + [d] == [a, b, c, d];
    hide *;
    RunOfThree(env, y, a, b, c);
    RunStep(env, y, [a, b, c], d);
  }

  lemma RunOfFive(env: Env, y: Sys, a: Action, b: Action, c: Action, d: Action, e: Action)
    ensures Run(env, y, [a, b, c, d, e]) == Next(env, Next(env, Next(env, Next(env, Next(env, y, a), b), c), d), e)
  {
    assert [a, b, c, d] + [e] == [a, b, c, d, e];
    hide *;
    RunOfFour(env, y, a, b, c, d);
    RunStep(env, y, [a, b, c, d], e);
  }

  function Creation(n: string): Act {
    Create(n, "b", ForBuilder(SPEC))
  }

  lemma EnterBoth(env: Env, u: string, text: string)
    requires u != "" && text != ""
    ensures Enter(env, 0, u, OnObjects(Creation(text))) == Obj(Check(u, Creation(text)))
    ensures Validated(Creation(text)) == Obj(First(Creation(text)))
    ensures Enter(env, 0, u, DeleteOrganization(text)) == Org(DeleteRole(u, text))
    ensures !Scopes.Public(MethodOf(OnObjects(Creation(text)))) && !Scopes.Public(MethodOf(DeleteOrganization(text)))
  {
  }

  // ---- Two requests that overlap ----

  /** A builder creation and a deletion of the organization arrive, and both pass their check. */
  function ToTheBrink(n: string): seq<Action> {
    [Arrive(0, Signed(OnObjects(Creation(n)))), Arrive(1, Signed(DeleteOrganization(n))), Call(0, OK), Call(1, OK)]
  }

  /** The deletion is carried out, and then the creation. */
  const OVER_THE_BRINK := [Call(1, OK), Call(1, OK), Call(0, OK), Call(0, OK)]

  lemma AtTheBrink(env: Env, u: string, n: string)
    requires Session(env, u) && n != "" && Normal(env, n)
    ensures var y := Run(env, Boot(OneOrganization(u, n)), ToTheBrink(n));
            && y.s == OneOrganization(u, n)
            && 0 in y.procs && y.procs[0] == Obj(Ensure(Creation(n)))
            && 1 in y.procs && y.procs[1] == Org(DeleteSpace(n))
  {
    var y0 := Boot(OneOrganization(u, n));
    var a := ToTheBrink(n);
    RunOfFour(env, y0, a[0], a[1], a[2], a[3]);
    EnterBoth(env, u, n);
    OwnerHasRole(env, u, n, n);
    hide Next, Run, Enter, Signed, MethodOf, RoleOf;
    StepArrive(env, y0, 0, OnObjects(Creation(n)), u);
    var y1 := Next(env, y0, a[0]);
    StepArrive(env, y1, 1, DeleteOrganization(n), u);
    var y2 := Next(env, y1, a[1]);
    StepCheck(env, y2, 0, u, Creation(n));
    StepRole(env, Next(env, y2, a[2]), 1, u, n);
  }

  /** The builder's object comes into its namespace. */
  lemma StepCreate(env: Env, y: Sys, r: ReqId, n: string)
    requires r in y.procs && y.procs[r] == Obj(First(Creation(n)))
    requires n in y.s.cluster.namespaces && Key(BuilderKind, n, "b") !in y.s.cluster.objects
    ensures var y' := Next(env, y, Call(r, OK));
            && r in y'.procs && y'.procs == y.procs[r := y'.procs[r]] && L.Succeeds(y'.procs[r])
            && y'.s.tables == y.s.tables && y'.s.cluster.namespaces == y.s.cluster.namespaces
  {
    L.StepFirst(env, y, r, Creation(n));
    hide Next, NewBody, ViewOf;
  }

  lemma OverTheBrink(env: Env, y: Sys, u: string, n: string)
    requires n != "" && u != "" && Normal(env, n) && y.s == OneOrganization(u, n)
    requires 0 in y.procs && y.procs[0] == Obj(Ensure(Creation(n)))
    requires 1 in y.procs && y.procs[1] == Org(DeleteSpace(n))
    ensures var y' := Run(env, y, OVER_THE_BRINK);
            && 0 in y'.procs && L.Succeeds(y'.procs[0]) && 1 in y'.procs && y'.procs[1] == Finished(Deleted)
            && n in y'.s.cluster.namespaces && n !in y'.s.tables.orgs
  {
    RunOfFour(env, y, Call(1, OK), Call(1, OK), Call(0, OK), Call(0, OK));
    EnterBoth(env, u, n);
    assert Creation(n).ns == n && Spells(env, n, n);
    hide Next, Run, Enter, MethodOf, Validated, Creation, L.Succeeds;
    var y1 := Next(env, y, Call(1, OK));
    var y2 := Next(env, y1, Call(1, OK));
    var y3 := Next(env, y2, Call(0, OK));
    StepDeleteSpace(env, y, 1, n);
    StepDeleteRow(env, y1, 1, n, n);
    StepEnsure(env, y2, 0, Creation(n));
    StepCreate(env, y3, 0, n);
  }

  lemma FromTheStart(s0: Stores, y: Sys, n: string)
    requires n in s0.tables.orgs && n in y.s.cluster.namespaces && n !in y.s.tables.orgs
    ensures Orphan(s0, y, n)
  {
  }

  /** A complete run without any fault leaves an orphaned namespace: a builder is created while the organization is
      deleted, and both requests report success. */
  lemma OrphansHappen(env: Env, u: string, n: string)
    requires Session(env, u) && n != "" && Normal(env, n)
    ensures var s0 := OneOrganization(u, n);
            var y := Run(env, Boot(s0), ToTheBrink(n) + OVER_THE_BRINK);
            && Schema(env, s0) && Orphan(s0, y, n)
            && 0 in y.procs && L.Succeeds(y.procs[0]) && 1 in y.procs && y.procs[1] == Finished(Deleted)
  {
    var y0 := Boot(OneOrganization(u, n));
    OneOrganizationIsProper(env, u, n);
    AtTheBrink(env, u, n);
    assert u != "";
    hide *;
    RunAppend(env, y0, ToTheBrink(n), OVER_THE_BRINK);
    OverTheBrink(env, Run(env, y0, ToTheBrink(n)), u, n);
    FromTheStart(OneOrganization(u, n), Run(env, y0, ToTheBrink(n) + OVER_THE_BRINK), n);
  }

  // ---- Another spelling ----

  lemma StepDeleteNoSpace(env: Env, y: Sys, r: ReqId, text: string)
    requires r in y.procs && y.procs[r] == Org(DeleteSpace(text)) && text !in y.s.cluster.namespaces
    ensures var y' := Next(env, y, Call(r, OK)); y'.s == y.s && y'.procs == y.procs[r := Org(DeleteRow(text))]
  {
    StepDeleteSpace(env, y, r, text);
    hide Next;
  }

  /** The owner's request to delete the organization, named by another spelling of its identifier. */
  function DeleteBy(text: string): seq<Action> {
    [Arrive(0, Signed(DeleteOrganization(text))), Call(0, OK), Call(0, OK), Call(0, OK)]
  }

  /** A member's request to create a builder, by another spelling of the organization's identifier. */
  function CreateBy(text: string): seq<Action> {
    [Arrive(0, Signed(OnObjects(Creation(text)))), Call(0, OK), Call(0, OK), Call(0, OK)]
  }

  /** A complete run of one request, without any fault, leaves an orphaned namespace: the owner deletes the
      organization by another spelling of its identifier. */
  lemma OtherSpellingOrphans(env: Env, u: string, n: string, text: string)
    requires Session(env, u) && Normal(env, n) && Spells(env, text, n) && text != n && text != ""
    ensures var s0 := OneOrganization(u, n);
            var y := Run(env, Boot(s0), DeleteBy(text));
            && Schema(env, s0) && Orphan(s0, y, n) && 0 in y.procs && y.procs[0] == Finished(Deleted)
  {
    var s0 := OneOrganization(u, n);
    var y0, a := Boot(s0), Arrive(0, Signed(DeleteOrganization(text)));
    OneOrganizationIsProper(env, u, n);
    EnterBoth(env, u, text);
    OwnerHasRole(env, u, n, text);
    assert y0.s == s0 && s0.now == 0 && 0 !in y0.procs;
    assert text !in s0.cluster.namespaces && n in s0.cluster.namespaces;
    assert DeleteBy(text) == [a, Call(0, OK), Call(0, OK), Call(0, OK)];
    hide *;
    RunOfFour(env, y0, a, Call(0, OK), Call(0, OK), Call(0, OK));
    StepArrive(env, y0, 0, DeleteOrganization(text), u);
    var y1 := Next(env, y0, a);
    StepRole(env, y1, 0, u, text);
    var y2 := Next(env, y1, Call(0, OK));
    StepDeleteNoSpace(env, y2, 0, text);
    var y3 := Next(env, y2, Call(0, OK));
    StepDeleteRow(env, y3, 0, text, n);
    FromTheStart(s0, Next(env, y3, Call(0, OK)), n);
  }

  lemma StrayIsMade(env: Env, u: string, n: string, text: string)
    requires Session(env, u) && Spells(env, text, n) && text != n && text != ""
    ensures var y := Run(env, Boot(OneOrganization(u, n)), CreateBy(text));
            text in y.s.cluster.namespaces && 0 in y.procs && L.Succeeds(y.procs[0])
  {
    var s0 := OneOrganization(u, n);
    var y0, a := Boot(s0), Arrive(0, Signed(OnObjects(Creation(text))));
    EnterBoth(env, u, text);
    OwnerHasRole(env, u, n, text);
    assert Creation(text).ns == text && Creation(text).Create? && KindOf(Creation(text).arg).BuilderKind?;
    assert y0.s == s0 && s0.now == 0 && 0 !in y0.procs && s0.cluster == Cluster({n}, map[], 0);
    assert CreateBy(text) == [a, Call(0, OK), Call(0, OK), Call(0, OK)];
    hide *;
    RunOfFour(env, y0, a, Call(0, OK), Call(0, OK), Call(0, OK));
    StepArrive(env, y0, 0, OnObjects(Creation(text)), u);
    var y1 := Next(env, y0, a);
    StepCheck(env, y1, 0, u, Creation(text));
    var y2 := Next(env, y1, Call(0, OK));
    StepEnsure(env, y2, 0, Creation(text));
    EnsureKeepsObjects(s0.cluster, text);
    StepCreate(env, Next(env, y2, Call(0, OK)), 0, text);
  }

  lemma EnsureKeepsObjects(c: Cluster, n: string)
    ensures ExecuteCluster(c, CreateNamespace(n)).0.objects == c.objects
  {
  }

  /** A complete run of one request, without any fault, makes a namespace that no organization is named after: a
      member creates a builder by another spelling of the identifier. */
  lemma OtherSpellingStrays(env: Env, u: string, n: string, text: string)
    requires Session(env, u) && Normal(env, n) && Spells(env, text, n) && text != n && text != ""
    ensures var s0 := OneOrganization(u, n);
            var y := Run(env, Boot(s0), CreateBy(text));
            && Schema(env, s0) && text in y.s.cluster.namespaces && !HadRow(s0, y.log, text)
            && 0 in y.procs && L.Succeeds(y.procs[0])
  {
    var s0 := OneOrganization(u, n);
    OneOrganizationIsProper(env, u, n);
    hide *;
    RunKeepsInv(env, s0, CreateBy(text));
    NoRowOfThatName(env, s0, Run(env, Boot(s0), CreateBy(text)), text, n);
    StrayIsMade(env, u, n, text);
  }

  lemma NoRowOfThatName(env: Env, s0: Stores, y: Sys, text: string, n: string)
    requires Inv(env, s0, y) && Schema(env, s0) && Spells(env, text, n) && text != n
    ensures !HadRow(s0, y.log, text)
  {
    assert Orderly(env, s0, y);
    hide Inv, Orderly, Schema, HadRow;
    if HadRow(s0, y.log, text) {
      RowsAreNormal(env, s0, y, text);
    }
  }

  // ---- A skipped wake ----

  const STATUS := B.BuilderStatus("", 0, "")

  function BuilderKey(n: string): Key {
    Key(BuilderKind, n, "b")
  }

  /** The organization with one builder, woken within the current second. */
  function OneBuilder(env: Env, u: string, n: string): Stores {
    var content := Content(BuilderBody(B.Write(SPEC), STATUS), map[LAST_USED := env.stamp(0)]);
    OneOrganization(u, n).(cluster := Cluster({n}, map[BuilderKey(n) := Object(content, 1)], 1))
  }

  lemma StepEnsureThere(env: Env, y: Sys, r: ReqId, act: Act)
    requires r in y.procs && y.procs[r] == Obj(Ensure(act)) && act.ns in y.s.cluster.namespaces
    ensures var y' := Next(env, y, Call(r, OK)); y'.s == y.s && y'.procs == y.procs[r := Validated(act)]
  {
    hide ResumeGate, ResumeAccount, ResumeOrg, IssueFirst, IssueAccount, IssueOrg, ExecuteAccounts, ExecuteTables;
    hide Validated, AfterFirst;
  }

  const WAKE := 0
  const DELETE := 1
  const CREATE := 2

  function Waking(n: string): Act { Wake(n, "b") }
  function Deleting(n: string): Act { Delete(BuilderKind, n, "b") }

  lemma EnterThree(env: Env, u: string, n: string)
    requires u != "" && n != ""
    ensures Enter(env, 0, u, OnObjects(Waking(n))) == Obj(Check(u, Waking(n)))
    ensures Validated(Waking(n)) == Obj(First(Waking(n)))
    ensures Enter(env, 0, u, OnObjects(Deleting(n))) == Obj(Check(u, Deleting(n)))
    ensures Validated(Deleting(n)) == Obj(First(Deleting(n)))
    ensures Enter(env, 0, u, OnObjects(Creation(n))) == Obj(Check(u, Creation(n)))
    ensures Validated(Creation(n)) == Obj(First(Creation(n)))
    ensures !Scopes.Public(MethodOf(OnObjects(Waking(n)))) && !Scopes.Public(MethodOf(OnObjects(Deleting(n))))
    ensures !Scopes.Public(MethodOf(OnObjects(Creation(n))))
  {
  }

  /** A wake, a deletion and a creation of the builder arrive. */
  function Arrivals(n: string): seq<Action> {
    [Arrive(WAKE, Signed(OnObjects(Waking(n)))), Arrive(DELETE, Signed(OnObjects(Deleting(n)))),
     Arrive(CREATE, Signed(OnObjects(Creation(n))))]
  }

  /** All pass their checks, and the creation finds the namespace. */
  const CHECKS := [Call(WAKE, OK), Call(DELETE, OK), Call(CREATE, OK), Call(CREATE, OK)]

  lemma AllArrive(env: Env, u: string, n: string)
    requires Session(env, u) && n != "" && Normal(env, n)
    ensures var y := Run(env, Boot(OneBuilder(env, u, n)), Arrivals(n));
            && y.s == OneBuilder(env, u, n) && WAKE in y.procs && DELETE in y.procs && CREATE in y.procs
            && y.procs[WAKE] == Obj(Check(u, Waking(n))) && y.procs[DELETE] == Obj(Check(u, Deleting(n)))
            && y.procs[CREATE] == Obj(Check(u, Creation(n)))
  {
    var y0 := Boot(OneBuilder(env, u, n));
    var a := Arrivals(n);
    RunOfThree(env, y0, a[0], a[1], a[2]);
    EnterThree(env, u, n);
    hide Next, Run, Enter, Signed, MethodOf;
    StepArrive(env, y0, WAKE, OnObjects(Waking(n)), u);
    var y1 := Next(env, y0, a[0]);
    StepArrive(env, y1, DELETE, OnObjects(Deleting(n)), u);
    StepArrive(env, Next(env, y1, a[1]), CREATE, OnObjects(Creation(n)), u);
  }

  lemma AllPass(env: Env, y: Sys, u: string, n: string)
    requires RoleOf(env, y.s.tables, u, n).Some? && n in y.s.cluster.namespaces && u != "" && n != ""
    requires WAKE in y.procs && DELETE in y.procs && CREATE in y.procs
    requires y.procs[WAKE] == Obj(Check(u, Waking(n))) && y.procs[DELETE] == Obj(Check(u, Deleting(n)))
    requires y.procs[CREATE] == Obj(Check(u, Creation(n)))
    ensures var y' := Run(env, y, CHECKS);
            && y'.s == y.s && WAKE in y'.procs && DELETE in y'.procs && CREATE in y'.procs
            && y'.procs[WAKE] == Obj(First(Waking(n))) && y'.procs[DELETE] == Obj(First(Deleting(n)))
            && y'.procs[CREATE] == Obj(First(Creation(n)))
  {
    RunOfFour(env, y, CHECKS[0], CHECKS[1], CHECKS[2], CHECKS[3]);
    EnterThree(env, u, n);
    assert Waking(n).ns == n && Deleting(n).ns == n && Creation(n).ns == n;
    assert Creation(n).Create? && KindOf(Creation(n).arg).BuilderKind?;
    assert !Waking(n).Create? && !Deleting(n).Create?;
    hide Next, Run, Enter, MethodOf, Validated, Waking, Deleting, Creation, RoleOf;
    StepCheck(env, y, WAKE, u, Waking(n));
    var y1 := Next(env, y, CHECKS[0]);
    StepCheck(env, y1, DELETE, u, Deleting(n));
    var y2 := Next(env, y1, CHECKS[1]);
    StepCheck(env, y2, CREATE, u, Creation(n));
    StepEnsureThere(env, Next(env, y2, CHECKS[2]), CREATE, Creation(n));
  }

  lemma Skipped(env: Env, y: Sys, u: string, n: string)
    requires y.s == OneBuilder(env, u, n)
    requires WAKE in y.procs && DELETE in y.procs && CREATE in y.procs
    requires y.procs[WAKE] == Obj(First(Waking(n))) && y.procs[DELETE] == Obj(First(Deleting(n)))
    requires y.procs[CREATE] == Obj(First(Creation(n)))
    ensures var y' := Run(env, y, [Call(WAKE, OK), Call(DELETE, OK), Call(CREATE, OK), Call(WAKE, OK)]);
            && WAKE in y'.procs && L.Succeeds(y'.procs[WAKE])
            && BuilderKey(n) in y'.s.cluster.objects
            && LAST_USED !in y'.s.cluster.objects[BuilderKey(n)].content.annotations
  {
    RunOfFour(env, y, Call(WAKE, OK), Call(DELETE, OK), Call(CREATE, OK), Call(WAKE, OK));
    hide Next, Run;
    L.WakeCanBeSkipped(env, y, WAKE, DELETE, CREATE, n, "b", ForBuilder(SPEC));
  }

  /** A run without any fault in which a wake reports success and the builder ends up without its stamp. */
  lemma SkippedWakesHappen(env: Env, u: string, n: string)
    requires Session(env, u) && n != "" && Normal(env, n)
    ensures var acts := (Arrivals(n) + CHECKS) + [Call(WAKE, OK), Call(DELETE, OK), Call(CREATE, OK), Call(WAKE, OK)];
            var y := Run(env, Boot(OneBuilder(env, u, n)), acts);
            && WAKE in y.procs && L.Succeeds(y.procs[WAKE])
            && BuilderKey(n) in y.s.cluster.objects
            && LAST_USED !in y.s.cluster.objects[BuilderKey(n)].content.annotations
  {
    var y0 := Boot(OneBuilder(env, u, n));
    AllArrive(env, u, n);
    assert RoleOf(env, OneBuilder(env, u, n).tables, u, n).Some? && n in OneBuilder(env, u, n).cluster.namespaces;
    hide Run, OneBuilder, L.Succeeds, Arrivals, Waking, Deleting, Creation;
    AllPass(env, Run(env, y0, Arrivals(n)), u, n);
    RunAppend(env, y0, Arrivals(n), CHECKS);
    Skipped(env, Run(env, y0, Arrivals(n) + CHECKS), u, n);
    RunAppend(env, y0, Arrivals(n) + CHECKS, [Call(WAKE, OK), Call(DELETE, OK), Call(CREATE, OK), Call(WAKE, OK)]);
  }

  // ---- Lost replies ----

  /** The one user of the service so far, and no organization. */
  function OneUser(u: string): Stores {
    S.Stores.Stores(Accounts(map["e" := UserRow(u, "", "")], map[]), Tables(map[], map[]), Cluster({}, map[], 0), {}, 0)
  }

  const FOUND := CreateOrganization("n", "n", "starter")

  lemma EnterCreation(env: Env, u: string)
    requires u != ""
    ensures Enter(env, 0, u, FOUND) == Org(CreateInsert(u, ROW)) && !Scopes.Public(MethodOf(FOUND))
  {
    TrimSpaceTrims("n");
    TrimSpaceTrims("starter");
    assert Trimmed("n") && Trimmed("starter");
    assert ToLower("n") == "n";
    Bearer.SplitWithout("n", '-');
    assert Slugs.ValidSlug("n");
  }

  /** The row is stored, whether or not the reply arrives. */
  lemma StepInsert(env: Env, y: Sys, r: ReqId, u: string, c: Choice)
    requires r in y.procs && y.procs[r] == Org(CreateInsert(u, ROW)) && y.s == OneUser(u)
    requires Normal(env, c.id) && !c.fault.FailStop?
    ensures var y' := Next(env, y, Call(r, c));
            && y'.s.tables == Tables(map[c.id := ROW], map[]) && y'.s.accounts == y.s.accounts
            && y'.s.cluster == y.s.cluster
            && y'.procs == y.procs[r := if c.fault.NoFault? then Org(CreateOwner(u, c.id, ROW)) else Reject(Internal)]
            && |y'.log| == |y.log| + 1 && RowMade(y'.log[|y.log|], c.id)
  {
    hide ResumeGate, ResumeAccount, ResumeObj, IssueAccount, IssueObj, ExecuteAccounts, ExecuteCluster;
  }

  lemma StepOwner(env: Env, y: Sys, r: ReqId, u: string, id: string)
    requires r in y.procs && y.procs[r] == Org(CreateOwner(u, id, ROW))
    requires y.s.accounts == OneUser(u).accounts && y.s.tables == Tables(map[id := ROW], map[])
    ensures var y' := Next(env, y, Call(r, OK));
            && y'.procs == y.procs[r := Org(CreateEnsure(id, ROW))] && y.log <= y'.log
  {
    assert y.s.accounts.users["e"].id == u;
    hide ResumeGate, ResumeAccount, ResumeObj, IssueAccount, IssueObj, ExecuteAccounts, ExecuteCluster;
  }

  /** The row and its owner are stored. */
  lemma CreatedSoFar(env: Env, u: string, id: string)
    requires Session(env, u) && Normal(env, id)
    ensures var y := Next(env, Next(env, Next(env, Boot(OneUser(u)), Arrive(0, Signed(FOUND))),
                                    Call(0, Choice(NoFault, id))), Call(0, OK));
            0 in y.procs && y.procs[0] == Org(CreateEnsure(id, ROW)) && 0 < |y.log| && RowMade(y.log[0], id)
  {
    var y0 := Boot(OneUser(u));
    EnterCreation(env, u);
    assert 0 !in y0.procs && y0.log == [] && y0.s == OneUser(u) && OneUser(u).now == 0;
    var y1 := Next(env, y0, Arrive(0, Signed(FOUND)));
    hide *;
    StepArrive(env, y0, 0, FOUND, u);
    assert y1.procs[0] == Org(CreateInsert(u, ROW)) && y1.log == [] && y1.s == OneUser(u);
    StepInsert(env, y1, 0, u, Choice(NoFault, id));
    var y2 := Next(env, y1, Call(0, Choice(NoFault, id)));
    assert y2.procs[0] == Org(CreateOwner(u, id, ROW));
    assert y1.s.accounts == y0.s.accounts;
    StepOwner(env, y2, 0, u, id);
  }

  /** A complete run of one request: the creation of an organization stores the row, makes the namespace, is not
      told so, takes the row back and reports an error. The namespace is orphaned. */
  lemma LostRepliesHappen(env: Env, u: string, id: string)
    requires Session(env, u) && Normal(env, id)
    ensures var s0 := OneUser(u);
            var acts := [Arrive(0, Signed(FOUND)), Call(0, Choice(NoFault, id)), Call(0, OK),
                         Call(0, Choice(LostReply, "")), Call(0, OK)];
            var y := Run(env, Boot(s0), acts);
            Schema(env, s0) && Orphan(s0, y, id) && 0 in y.procs && y.procs[0] == Reject(Internal)
  {
    var s0, a, lost := OneUser(u), Arrive(0, Signed(FOUND)), Choice(LostReply, "");
    CreatedSoFar(env, u, id);
    assert Schema(env, s0);
    var y3 := Next(env, Next(env, Next(env, Boot(s0), a), Call(0, Choice(NoFault, id))), Call(0, OK));
    var y4 := Next(env, y3, Call(0, lost));
    var y5 := Next(env, y4, Call(0, OK));
    hide *;
    RunOfFive(env, Boot(s0), a, Call(0, Choice(NoFault, id)), Call(0, OK), Call(0, lost), Call(0, OK));
    StepLostEnsure(env, y3, 0, id, ROW);
    StepUndo(env, y4, 0, id);
    assert y3.log <= y4.log <= y5.log && y5.log[0] == y3.log[0];
    MadeAndLeft(s0, y5, id, 0);
  }

  lemma MadeAndLeft(s0: Stores, y: Sys, n: string, b: nat)
    requires b < |y.log| && RowMade(y.log[b], n) && n in y.s.cluster.namespaces && n !in y.s.tables.orgs
    ensures Orphan(s0, y, n)
  {
  }

  /** A creation whose very first reply is lost leaves a row without owner, for good and with its slug taken. */
  lemma StrandedRowsHappen(env: Env, u: string, id: string)
    requires Session(env, u) && Normal(env, id)
    ensures var y := Run(env, Boot(OneUser(u)), [Arrive(0, Signed(FOUND)), Call(0, Choice(LostReply, id))]);
            Ownership.Stranded(env, y, id) && 0 in y.procs && y.procs[0] == Reject(Internal)
  {
    var a, b := Arrive(0, Signed(FOUND)), Call(0, Choice(LostReply, id));
    var y0 := Boot(OneUser(u));
    EnterCreation(env, u);
    RunStep(env, y0, [], a);
    RunStep(env, y0, [a], b);
    assert [] + [a] == [a] && [a] + [b] == [a, b];
    assert Run(env, y0, []) == y0;
    hide Next, Enter, MethodOf, Signed, Run;
    StepArrive(env, y0, 0, FOUND, u);
    StepInsert(env, Next(env, y0, a), 0, u, Choice(LostReply, id));
  }
}
