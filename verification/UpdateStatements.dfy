/** The update of an organization: the statement is put together field by field, and the database reads it back
    as exactly the change that was asked for. */
module UpdateStatements {
  import opened Wrappers
  import opened Text
  import opened Stores
  import opened SetBuilder
  import opened Programs

  const NO_CHANGE := OrgChange(None, None, None)

  /** The optional columns, in the order the statement lists them. */
  function OrgFields(c: OrgChange): seq<Field> {
    [Field("name", c.name), Field("slug", c.slug), Field("plan", c.plan)]
  }

  function RowOf(org: OrgRow): Row {
    map["name" := org.name, "slug" := org.slug, "plan" := org.plan]
  }

  lemma OrgFieldsLegal(c: OrgChange)
    ensures Legal(OrgFields(c))
    ensures AnyPresent(OrgFields(c)) <==> c != NO_CHANGE
  {
    assert OrgFields(c)[0] in OrgFields(c) && OrgFields(c)[1] in OrgFields(c) && OrgFields(c)[2] in OrgFields(c);
  }

  lemma DirectThree(c: OrgChange, org: OrgRow)
    ensures Direct(OrgFields(c), RowOf(org)) == RowOf(Changed(org, c))
  {
    var f0, f1, f2 := Field("name", c.name), Field("slug", c.slug), Field("plan", c.plan);
    assert OrgFields(c)[1..] == [f1, f2] && [f1, f2][1..] == [f2] && [f2][1..] == [];
    var r1 := if f0.value.Some? then RowOf(org)["name" := f0.value.value] else RowOf(org);
    var r2 := if f1.value.Some? then r1["slug" := f1.value.value] else r1;
    var r3 := if f2.value.Some? then r2["plan" := f2.value.value] else r2;
    assert Direct(OrgFields(c), RowOf(org)) == Direct([f1, f2], r1) == Direct([f2], r2) == r3;
    assert r3 == RowOf(Changed(org, c));
  }

  /** The statement for the three columns, run on the table, changes the one row as intended and no other; with
      no field present it is not a statement at all. */
  lemma ThreeFieldStatement(c: OrgChange, id: string, orgs: map<string, OrgRow>)
    ensures SetBuilder.Execute(Statement(OrgFields(c)), [id] + Arguments(OrgFields(c)),
              map n | n in orgs :: RowOf(orgs[n])) ==
            if c == NO_CHANGE then None
            else if id in orgs then Some((map n | n in orgs :: RowOf(orgs[n]))[id := RowOf(Changed(orgs[id], c))])
            else Some(map n | n in orgs :: RowOf(orgs[n]))
  {
    OrgFieldsLegal(c);
    var table := map n | n in orgs :: RowOf(orgs[n]);
    StatementMeaning(OrgFields(c), id, table);
    if id in orgs {
      DirectThree(c, orgs[id]);
    }
    hide SetBuilder.Execute, Statement, OrgFields, Direct, RowOf, Legal, Arguments, AnyPresent;
  }

  // ---- The statement as the database's own update ----

  /** One assignment of the statement, as part of a change. */
  function WithColumn(c: OrgChange, column: string, v: string): Option<OrgChange> {
    if column == "name" then Some(c.(name := Some(v)))
    else if column == "slug" then Some(c.(slug := Some(v)))
    else if column == "plan" then Some(c.(plan := Some(v)))
    else None
  }

  function ReadSets(sets: seq<(string, nat)>, args: seq<string>, c: OrgChange): Option<OrgChange> {
    if sets == [] then Some(c)
    else if !(1 <= sets[0].1 <= |args|) then None
    else match WithColumn(c, sets[0].0, args[sets[0].1 - 1])
      case Some(c') => ReadSets(sets[1..], args, c')
      case None => None
  }

  /** The call a statement and its arguments amount to, if they make sense. */
  function ReadStatement(env: Env, q: string, args: seq<string>): Option<TableCall> {
    match Parse(q)
    case Some(u) =>
      if !(1 <= u.idArgument <= |args|) then None
      else (match ReadSets(u.sets, args, NO_CHANGE)
        case Some(c) => Some(UpdateOrg(env.uuid(args[u.idArgument - 1]), c))
        case None => None)
    case None => None
  }

  function Overlay(fields: seq<Field>, c: OrgChange): Option<OrgChange> {
    if fields == [] then Some(c)
    else if fields[0].value.None? then Overlay(fields[1..], c)
    else match WithColumn(c, fields[0].column, fields[0].value.value)
      case Some(c') => Overlay(fields[1..], c')
      case None => None
  }

  lemma {:induction false} ReadSetsIsOverlay(fields: seq<Field>, args: seq<string>, argNum: nat, c: OrgChange)
    requires argNum >= 1 && |args| == argNum + |Arguments(fields)| && args[argNum..] == Arguments(fields)
    ensures ReadSets(Sets(fields, argNum), args, c) == Overlay(fields, c)
  {
    if fields != [] {
      var more := fields[1..];
      if fields[0].value.Some? {
        assert args[argNum] == Arguments(fields)[0] == fields[0].value.value;
        assert args[argNum + 1..] == Arguments(more);
        assert Sets(fields, argNum)[1..] == Sets(more, argNum + 1);
        var c' := WithColumn(c, fields[0].column, fields[0].value.value);
        if c'.Some? {
          ReadSetsIsOverlay(more, args, argNum + 1, c'.value);
        }
      } else {
        ReadSetsIsOverlay(more, args, argNum, c);
      }
    }
    hide WithColumn;
  }

  lemma OverlayThree(c: OrgChange)
    ensures Overlay(OrgFields(c), NO_CHANGE) == Some(c)
  {
    var f0, f1, f2 := Field("name", c.name), Field("slug", c.slug), Field("plan", c.plan);
    assert OrgFields(c)[1..] == [f1, f2] && [f1, f2][1..] == [f2] && [f2][1..] == [];
    var c1 := NO_CHANGE.(name := c.name);
    var c2 := c1.(slug := c.slug);
    assert Overlay([f2], c2) == Some(c);
    assert Overlay([f1, f2], c1) == Overlay([f2], c2);
  }

  /** The database reads the generated statement as the update of that organization by that change. */
  lemma StatementReadsBack(env: Env, c: OrgChange, id: string)
    requires c != NO_CHANGE
    ensures ReadStatement(env, Statement(OrgFields(c)), [id] + Arguments(OrgFields(c))) ==
            Some(UpdateOrg(env.uuid(id), c))
  {
    var fields := OrgFields(c);
    var args := [id] + Arguments(fields);
    OrgFieldsLegal(c);
    ParseStatement(fields);
    assert args[1..] == Arguments(fields);
    ReadSetsIsOverlay(fields, args, 1, NO_CHANGE);
    OverlayThree(c);
    hide Parse, Statement, OrgFields, Legal, Arguments, AnyPresent, Sets, ReadSets, Overlay;
  }

  lemma AddField(fields: seq<Field>, f: Field, argNum: nat)
    ensures Arguments(fields + [f]) == Arguments(fields) + (if f.value.Some? then [f.value.value] else [])
    ensures Clauses(fields + [f], argNum) ==
            Clauses(fields, argNum) + (if f.value.Some?
                then [Clause(f.column, argNum + |Arguments(fields)| + 1)] else [])
  {
    var all := fields + [f];
    if fields == [] {
      assert all[1..] == [];
    } else {
      assert all[0] == fields[0] && all[1..] == fields[1..] + [f];
      AddField(fields[1..], f, if fields[0].value.Some? then argNum + 1 else argNum);
    }
  }

  /** Puts the statement and its arguments together, one optional field after the other. */
  method BuildUpdate(id: string, name: string, slug: string, plan: string) returns (q: string, args: seq<string>)
    ensures q == Statement(OrgFields(ChangeOf(name, slug, plan)))
    ensures args == [id] + Arguments(OrgFields(ChangeOf(name, slug, plan)))
  {
    ghost var c := ChangeOf(name, slug, plan);
    ghost var f0, f1, f2 := Field("name", c.name), Field("slug", c.slug), Field("plan", c.plan);
    AddField([], f0, 1);
    AddField([f0], f1, 1);
    AddField([f0, f1], f2, 1);
    assert [] + [f0] == [f0] && [f0] + [f1] == [f0, f1] && [f0, f1] + [f2] == OrgFields(c);
    hide ToLower, TrimSpace, Clause, JoinComma;
    var setClause: seq<string> := [];
    args := [];
    var argNum := 1;
    if name != "" {
      argNum := argNum + 1;
      setClause := setClause + [Clause("name", argNum)];
      args := args + [TrimSpace(name)];
    }
    assert setClause == Clauses([f0], 1) && args == Arguments([f0]) && argNum == 1 + |args|;
    if slug != "" {
      argNum := argNum + 1;
      setClause := setClause + [Clause("slug", argNum)];
      args := args + [ToLower(TrimSpace(slug))];
    }
    assert setClause == Clauses([f0, f1], 1) && args == Arguments([f0, f1]) && argNum == 1 + |args|;
    if plan != "" {
      argNum := argNum + 1;
      setClause := setClause + [Clause("plan", argNum)];
      args := args + [plan];
    }
    assert setClause == Clauses(OrgFields(c), 1) && args == Arguments(OrgFields(c));
    args := [id] + args;
    q := HEAD + JoinComma(setClause) + WHERE + "1";
  }
}
