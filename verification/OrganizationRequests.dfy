/** Requests that create or update an organization, run without faults: for which texts they succeed, what they store
    and what they reply. */
module OrganizationRequests {
  import opened Text
  import opened Stores
  import opened Programs
  import opened Lifecycle
  import opened Sequential
  import opened SlugTexts
  import Slugs

  const PLANS: set<string> := {"starter", "pro", "enterprise"}

  lemma LegalPlans(plan: string)
    ensures LegalPlan(plan) <==> plan in PLANS
  {
  }

  predicate SlugInUse(t: Tables, slug: string, exceptId: string) {
    exists m | m in t.orgs :: m != exceptId && t.orgs[m].slug == slug
  }

  /** The fields of a creation request make a row. */
  predicate CreationInOrder(name: string, slug: string, plan: string) {
    && TrimSpace(name) != "" && SlugText(TrimSpace(slug))
    && (TrimSpace(plan) == "" || TrimSpace(plan) in PLANS)
  }

  lemma NoEmptySlug()
    ensures !SlugText("")
  {
    assert Split("", '-') == [""] && "" in [""];
  }

  lemma WellFormedIff(user: string, name: string, slug: string, plan: string)
    ensures WellFormed(user, name, slug, plan) <==> user != "" && CreationInOrder(name, slug, plan)
    ensures AskedRow(name, slug, plan) ==
            OrgRow(TrimSpace(name), NormalSlug(slug), if TrimSpace(plan) == "" then "starter" else TrimSpace(plan))
  {
    NoEmptySlug();
    SlugTextMeaning(slug);
    LegalPlans(TrimSpace(plan));
    hide TrimSpace, SlugText, Slugs.ValidSlug, NormalSlug;
  }

  /** A creation by a stored user, with a new identifier and without faults: it is rejected exactly if the name is
      blank, the slug is no text of letters, digits and single hyphens, or the plan is none of the three; it finds
      the slug in use exactly if a row has it, with small letters for capitals; and otherwise it adds exactly one
      row with the trimmed name, this slug and the plan, `starter` for none, one owner and one namespace. */
  lemma CreationMeaning(env: Env, s: Stores, user: string, name: string, slug: string, plan: string,
                        choices: seq<Choice>) returns (low: string)
    requires Schema(env, s) && user != "" && HasUser(s.accounts, user) && FaultFree(choices)
    requires Normal(env, Head(choices).id) && Head(choices).id !in s.issued
    ensures SmallOf(low, TrimSpace(slug))
    ensures var n := Head(choices).id;
            var row := OrgRow(TrimSpace(name), low, if TrimSpace(plan) == "" then "starter" else TrimSpace(plan));
            Handle(env, s, user, CreateOrganization(name, slug, plan), choices) ==
            if !CreationInOrder(name, slug, plan) then (s, Reject(InvalidArgument))
            else if SlugInUse(s.tables, low, n) then (s, Reject(AlreadyExists))
            else (s.(tables := Tables(s.tables.orgs[n := row], s.tables.members[(user, n) := Owner]),
                     cluster := s.cluster.(namespaces := s.cluster.namespaces + {n}), issued := s.issued + {n}),
                  Finished(OrgReply(n, row, 1)))
  {
    low := NormalSlug(slug);
    var row := AskedRow(name, slug, plan);
    SlugTextMeaning(slug);
    WellFormedIff(user, name, slug, plan);
    NoFaults(choices);
    EnterCreate(env, s.now, user, name, slug, plan);
    HandleRuns(env, s, user, CreateOrganization(name, slug, plan), choices);
    assert FaultAt(choices, 0) == FaultAt(choices, 1) == FaultAt(choices, 2) == NoFault;
    if WellFormed(user, name, slug, plan) {
      InsertAlone(env, s, user, row, choices);
      if !SlugTaken(s.tables, row.slug, Head(choices).id) {
        CreateFromInsert(env, s, user, row, choices);
      }
    }
    hide RunAlone, Handle, Enter, Schema, WellFormed, AskedRow, HasUser, NormalSlug, TrimSpace, SmallOf;
    hide CreationInOrder;
  }

  /** The non-empty fields of an update request are in order. */
  predicate UpdateInOrder(slug: string, plan: string) {
    (slug == "" || SlugText(TrimSpace(slug))) && (plan == "" || plan in PLANS)
  }

  /** The row an update makes of one: an empty field leaves the column alone. */
  function NewRow(row: OrgRow, name: string, slug: string, low: string, plan: string): OrgRow {
    OrgRow(if name == "" then row.name else TrimSpace(name),
           if slug == "" then row.slug else low,
           if plan == "" then row.plan else plan)
  }

  lemma FieldsLegalIff(slug: string, plan: string)
    ensures FieldsLegal(slug, plan) <==> UpdateInOrder(slug, plan)
  {
    SlugTextMeaning(slug);
    LegalPlans(plan);
    hide TrimSpace, SlugText, Slugs.ValidSlug, NormalSlug;
  }

  /** An update without faults, with the exact conditions of its errors: outsiders are told there is no such
      organization, plain members may not, an owner's or admin's request with nothing filled in reads, one with a bad
      slug or plan is rejected, one with a slug of another row finds it in use, and any other changes exactly the
      filled-in fields of exactly this row. */
  lemma UpdateInFull(env: Env, s: Stores, user: string, id: string, n: string, name: string, slug: string,
                     plan: string, choices: seq<Choice>) returns (low: string)
    requires Schema(env, s) && user != "" && id != "" && Spells(env, id, n) && FaultFree(choices)
    ensures SmallOf(low, TrimSpace(slug)) && ((user, n) in s.tables.members ==> n in s.tables.orgs)
    ensures Handle(env, s, user, UpdateOrganization(id, name, slug, plan), choices) ==
            if (user, n) !in s.tables.members then (s, Reject(NotFound))
            else if s.tables.members[(user, n)] == Member then (s, Reject(PermissionDenied))
            else if !UpdateInOrder(slug, plan) then (s, Reject(InvalidArgument))
            else if slug != "" && SlugInUse(s.tables, low, n) then (s, Reject(AlreadyExists))
            else
              var row := NewRow(s.tables.orgs[n], name, slug, low, plan);
              (s.(tables := s.tables.(orgs := s.tables.orgs[n := row])),
               Finished(OrgReply(n, row, |Members(s.tables, n)|)))
  {
    low := NormalSlug(slug);
    SlugTextMeaning(slug);
    FieldsLegalIff(slug, plan);
    NoFaults(choices);
    NoFaults(Rest(choices));
    assert FaultAt(Rest(choices), 0) == FaultAt(Rest(choices), 1) == FaultAt(choices, 0) == NoFault;
    EnterUpdate(env, s.now, user, id, name, slug, plan);
    HandleRuns(env, s, user, UpdateOrganization(id, name, slug, plan), choices);
    UpdateRoleAlone(env, s, user, id, n, name, slug, plan, choices);
    assert (user, n) in s.tables.members ==> n in s.tables.orgs;
    hide Schema;
    if MayUpdate(s.tables, user, n) {
      assert Wanted(s.tables.orgs[n], name, slug, plan) == NewRow(s.tables.orgs[n], name, slug, low, plan);
      NothingWanted(s, n);
      RolesAreMembers(s.tables, n);
      ReadAlone(env, s, user, id, n, Rest(choices));
      WriteThenReadAlone(env, s, user, id, n, name, slug, plan, Rest(choices));
    }
    hide RunAlone, Handle, Enter, NormalSlug, TrimSpace, ChangeOf, RolesIn, Members, Wanted, NewRow, FieldsLegal;
    hide UpdateInOrder, SmallOf;
  }
}
