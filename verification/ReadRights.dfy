/** The read scopes and the write scopes are told apart by what the operations can do: those that need a read scope
    never change anything, and each of the others can. */
module ReadRights {
  import opened Wrappers
  import opened Text
  import opened Stores
  import opened Programs
  import opened Lifecycle
  import opened Sequential
  import opened Linearizability
  import opened ObjectMeanings
  import opened OrganizationRequests
  import opened AccessRules
  import B = Builders
  import Bearer
  import S = Stores
  import SlugTexts
  import T = Templates

  // ---- Reading ----

  /** The points of an operation that only reads. */
  predicate ReadPoint(pc: Pc) {
    match pc
    case Finished(_) => true
    case Org(o) => o.OrgList? || o.OrgRead? || o.MembersCheck? || o.MembersRead?
    case Obj(b) => (b.Check? || b.First?) && (b.act.List? || b.act.Get?)
    case _ => false
  }

  lemma ReadStep(env: Env, s: Stores, pc: Pc, c: Choice)
    requires Live(pc) && ReadPoint(pc)
    ensures var (s', q) := Step(env, s, pc, c); s' == s && ReadPoint(q)
  {
    hide ExecuteAccounts, ResumeGate, ResumeAccount, IssueAccount, ViewOf;
  }

  lemma {:induction false} ReadAloneKeeps(env: Env, s: Stores, pc: Pc, choices: seq<Choice>)
    requires ReadPoint(pc)
    ensures RunAlone(env, s, pc, choices).0 == s
    decreases CallsLeft(pc)
  {
    if Live(pc) {
      var q := Step(env, s, pc, Head(choices)).1;
      ReadStep(env, s, pc, Head(choices));
      AloneStep(env, s, pc, choices);
      ResumeAdvances(env, s.now, pc, Perform(s, Issue(env, pc, Head(choices).id), Head(choices).fault).1);
      ReadAloneKeeps(env, s, q, Rest(choices));
    }
    hide Issue, Execute, Resume;
  }

  /** An operation that needs only a read scope changes nothing, in whatever state, whatever the faults. */
  lemma OnlyReadsChangesNothing(env: Env, s: Stores, user: string, op: Op, choices: seq<Choice>)
    requires OnlyReads(op)
    ensures Handle(env, s, user, op, choices).0 == s
  {
    assert ReadPoint(Enter(env, s.now, user, op)) by {
      hide TrimSpace;
    }
    ReadAloneKeeps(env, s, Enter(env, s.now, user, op), choices);
    HandleRuns(env, s, user, op, choices);
    hide Enter, RunAlone;
  }

  // ---- Writing ----

  const PLAIN := Env(x => x, x => Some(x), (a, b) => a == b, _ => None, x => Some(x), _ => "now", _ => None, _ => "")

  const ROW := OrgRow("Name", "slug", "pro")
  const BUILDER := Content(BuilderBody(B.BuilderResource(None, "", None, None, map[]), B.BuilderStatus("", 0, "")),
                           map[])
  const TEMPLATE := Content(TemplateBody(T.TemplateResource("old", false, "", T.ResourceQuantities(map[], map[]),
                                                            T.CacheConfig("", None, None))), map[])

  /** One user, who owns one organization with one builder and one template. */
  function SmallWorld(): Stores {
    var objects := map[Key(BuilderKind, "n", "b") := Object(BUILDER, 1),
                       Key(TemplateKind, "n", "t") := Object(TEMPLATE, 2)];
    S.Stores.Stores(Accounts(map["e" := UserRow("u", "", "")], map[]),
                    Tables(map["n" := ROW], map[("u", "n") := Owner]),
                    Cluster({"n"}, objects, 2), {"n"}, 0)
  }

  /** Some call of the same method changes the stores. */
  ghost predicate CanChange(op: Op) {
    exists op', choices ::
      MethodOf(op') == MethodOf(op) && Handle(PLAIN, SmallWorld(), "u", op', choices).0 != SmallWorld()
  }

  lemma Changes(op: Op, op': Op, choices: seq<Choice>)
    requires MethodOf(op') == MethodOf(op) && Handle(PLAIN, SmallWorld(), "u", op', choices).0 != SmallWorld()
    ensures CanChange(op)
  {
    hide Handle, MethodOf, SmallWorld;
  }

  lemma SmallWorldIsProper()
    ensures Schema(PLAIN, SmallWorld()) && HasUser(SmallWorld().accounts, "u")
    ensures RoleOf(PLAIN, SmallWorld().tables, "u", "n") == Some(Owner)
    ensures Housed(SmallWorld().cluster) && Normal(PLAIN, "n") && Normal(PLAIN, "m")
    ensures forall k :: k in Contents(SmallWorld().cluster) <==>
                          k == Key(BuilderKind, "n", "b") || k == Key(TemplateKind, "n", "t")
    ensures Contents(SmallWorld().cluster)[Key(BuilderKind, "n", "b")] == BUILDER
    ensures Contents(SmallWorld().cluster)[Key(TemplateKind, "n", "t")] == TEMPLATE
  {
    assert SmallWorld().accounts.users["e"].id == "u";
  }

  lemma RoomForAnother()
    ensures "m" !in SmallWorld().cluster.namespaces && "m" !in SmallWorld().issued
    ensures forall low | |low| == 1 :: !SlugInUse(SmallWorld().tables, low, "m")
    ensures FaultFree([Choice(NoFault, "m")]) && Head([Choice(NoFault, "m")]).id == "m"
  {
  }

  lemma CreationChanges(op: Op)
    requires op.CreateOrganization?
    ensures CanChange(op)
  {
    SmallWorldIsProper();
    OneLetter();
    RoomForAnother();
    assert CreationInOrder("x", "x", "");
    hide *;
    var low := CreationMeaning(PLAIN, SmallWorld(), "u", "x", "x", "", [Choice(NoFault, "m")]);
    assert |low| == 1 by {
      assert SlugTexts.SmallOf(low, "x");
      LengthStays(low, "x");
    }
    Changes(op, CreateOrganization("x", "x", ""), [Choice(NoFault, "m")]);
  }

  lemma LengthStays(low: string, s: string)
    requires SlugTexts.SmallOf(low, s)
    ensures |low| == |s|
  {
    hide SlugTexts.SmallLetter;
  }

  lemma RenamingChanges(op: Op)
    requires op.UpdateOrganization?
    ensures CanChange(op)
  {
    var s := SmallWorld();
    SmallWorldIsProper();
    OneLetter();
    assert s.tables.orgs["n"].name == "Name" && s.tables.members[("u", "n")] == Owner;
    assert UpdateInOrder("", "");
    hide Handle, MethodOf, TrimSpace, SmallWorld, Schema, SlugTexts.SmallOf, UpdateInOrder, SlugInUse;
    var low := UpdateInFull(PLAIN, s, "u", "n", "n", "x", "", "", []);
    Changes(op, UpdateOrganization("n", "x", "", ""), []);
  }

  lemma OneLetter()
    ensures TrimSpace("x") == "x" && TrimSpace("") == "" && SlugTexts.SlugText("x")
  {
    TrimSpaceTrims("x");
    assert Trimmed("x");
    LetterMakesSlug();
    hide SlugTexts.SlugText;
  }

  lemma DeletionChanges(op: Op)
    requires op.DeleteOrganization?
    ensures CanChange(op)
  {
    SmallWorldIsProper();
    assert "n" in SmallWorld().tables.orgs;
    hide Handle, MethodOf;
    DeleteClearsIffNormal(PLAIN, SmallWorld(), "n", "n", "u", []);
    Changes(op, DeleteOrganization("n"), []);
  }

  lemma LetterMakesSlug()
    ensures SlugTexts.SlugText("x")
  {
    Bearer.SplitWithout("x", '-');
    assert SlugTexts.SlugLetter('x') by {
      Rows();
      InRow(SMALL, 'a', 'x');
    }
  }

  const BUILDER_SPEC := B.BuilderSpec("t", "other", 1, 300, map[])
  const TEMPLATE_SPEC := T.TemplateSpec("new", false, "", None, None)

  function SpecFor(kind: Kind): SpecArg {
    if kind == BuilderKind then ForBuilder(BUILDER_SPEC) else ForTemplate(TEMPLATE_SPEC)
  }

  function NameFor(kind: Kind): string {
    if kind == BuilderKind then "b" else "t"
  }

  /** A request of the same kind on the one builder or template, or for a new one. */
  function Sample(act: Act): Act {
    var kind := KeyOf(act).kind;
    match act
    case Create(_, _, _) => Create("n", "new", SpecFor(kind))
    case Update(_, _, _) => Update("n", NameFor(kind), SpecFor(kind))
    case Delete(_, _, _) => Delete(kind, "n", NameFor(kind))
    case _ => Act.Wake("n", "b")
  }

  lemma SampleMethod(act: Act)
    requires !act.List? && !act.Get?
    ensures MethodOf(OnObjects(Sample(act))) == MethodOf(OnObjects(act))
  {
  }

  /** The objects after a sample request. */
  ghost function After(act: Act): map<Key, Content> {
    Contents(Handle(PLAIN, SmallWorld(), "u", OnObjects(act), []).0.cluster)
  }

  ghost function Before(): map<Key, Content> {
    Contents(SmallWorld().cluster)
  }

  lemma CreateChanges(kind: Kind)
    ensures After(Create("n", "new", SpecFor(kind))) != Before()
  {
    var s := SmallWorld();
    SmallWorldIsProper();
    var key := Named("n", "new", SpecFor(kind));
    assert key.name == "new" && key !in Before();
    assert s.cluster.namespaces == {"n"} && ByMember(PLAIN, s, "u", "n", []);
    hide Handle, Contents, RoleOf, Shows, StoresArg, SmallWorld, FaultFree, ByMember, OthersStay;
    CreateAddsOne(PLAIN, s, "u", "n", "new", SpecFor(kind), []);
  }

  lemma UpdateChanges(kind: Kind)
    ensures After(Update("n", NameFor(kind), SpecFor(kind))) != Before()
  {
    var s := SmallWorld();
    SmallWorldIsProper();
    var key := Named("n", NameFor(kind), SpecFor(kind));
    assert key in Before() && !StoresArg(PLAIN, Before()[key].body, SpecFor(kind));
    assert ByMember(PLAIN, s, "u", "n", []);
    hide Handle, Contents, RoleOf, Shows, StoresArg, SmallWorld, FaultFree, ByMember, OthersStay;
    UpdateKeepsTheRest(PLAIN, s, "u", "n", NameFor(kind), SpecFor(kind), []);
  }

  lemma DeleteChanges(kind: Kind)
    ensures After(Delete(kind, "n", NameFor(kind))) != Before()
  {
    var s := SmallWorld();
    SmallWorldIsProper();
    assert Key(kind, "n", NameFor(kind)) in Before() && ByMember(PLAIN, s, "u", "n", []);
    hide Handle, Contents, RoleOf, SmallWorld, FaultFree, ByMember, OthersStay;
    DeleteTakesOne(PLAIN, s, "u", kind, "n", NameFor(kind), []);
  }

  lemma WakeChanges()
    ensures After(Act.Wake("n", "b")) != Before()
  {
    var s, key := SmallWorld(), Key(BuilderKind, "n", "b");
    SmallWorldIsProper();
    assert key in Before() && Before()[key].annotations == map[] && ByMember(PLAIN, s, "u", "n", []);
    hide Handle, Contents, RoleOf, Shows, SmallWorld, FaultFree, ByMember, OthersStay;
    WakeOnlyStamps(PLAIN, s, "u", "n", "b", []);
    assert "builder.builder-hub.dev/last-used" in After(Act.Wake("n", "b"))[key].annotations;
  }

  lemma SampleChanges(act: Act)
    requires !act.List? && !act.Get?
    ensures After(Sample(act)) != Before()
  {
    match act
    case Create(_, _, _) => CreateChanges(KeyOf(act).kind);
    case Update(_, _, _) => UpdateChanges(KeyOf(act).kind);
    case Delete(_, _, _) => DeleteChanges(KeyOf(act).kind);
    case _ => WakeChanges();
    hide After, Before, KeyOf, SpecFor, NameFor;
  }

  /** Every method that needs a write scope can change the stores. */
  lemma WritesCanChange(op: Op)
    requires !OpenToAll(op) && !OnOwnAccount(op) && !OnlyReads(op)
    ensures CanChange(op)
  {
    if op.OnObjects? {
      SampleMethod(op.act);
      SampleChanges(op.act);
      Changes(op, OnObjects(Sample(op.act)), []);
    } else if op.CreateOrganization? {
      CreationChanges(op);
    } else if op.UpdateOrganization? {
      RenamingChanges(op);
    } else {
      DeletionChanges(op);
    }
    hide MethodOf, Handle, CanChange, Sample, Contents, SmallWorld;
  }
}
