/** The handlers on builders, call by call. Each does exactly what its program does when nothing comes in between. */
module BuilderHandlers {
  import opened Wrappers
  import opened Stores
  import opened Programs
  import opened Sequential
  import opened Backends
  import opened Sessions
  import B = Builders

  /** Where an object request goes on once its membership check has passed. */
  function Admitted(act: Act): (pc: Pc)
    ensures !pc.Crashed?
  {
    if act.Create? && KindOf(act.arg).BuilderKind? then Obj(Ensure(act)) else Validated(act)
  }

  /** The membership check in front of every object request. */
  method EnsureOrgMember(db: Backend, user: string, ns: string, ghost act: Act) returns (err: Option<Code>)
    requires act.ns == ns
    modifies db
    ensures err.Some? ==>
              RunAlone(db.env, old(db.s), EnterObjects(user, act), old(db.choices)) == (db.s, Reject(err.value))
    ensures err.None? ==>
              RunAlone(db.env, old(db.s), EnterObjects(user, act), old(db.choices))
              == RunAlone(db.env, db.s, Admitted(act), db.choices)
  {
    hide Perform, ResumeGate, ResumeAccount, ResumeOrg, IssueAccount, IssueOrg, IssueFirst, AfterFirst, Validated;
    if user == "" {
      return Some(Unauthenticated);
    }
    if ns == "" {
      return Some(InvalidArgument);
    }
    var a := db.Exec(Obj(Check(user, act)), OnTables(CheckMember(user, db.env.uuid(ns))));
    if !a.MemberIs? {
      return Some(Internal);
    }
    if !a.yes {
      return Some(PermissionDenied);
    }
    return None;
  }

  /** The listing, converted object by object. */
  method ViewsOf(env: Env, objects: map<Key, Object>) returns (views: map<Key, View>)
    ensures views == map k | k in objects :: ViewOf(env, objects[k].content)
  {
    views := map[];
    var todo := objects.Keys;
    while todo != {}
      invariant todo <= objects.Keys
      invariant views == map k | k in objects && k !in todo :: ViewOf(env, objects[k].content)
      decreases |todo|
    {
      var k :| k in todo;
      views := views[k := ViewOf(env, objects[k].content)];
      todo := todo - {k};
    }
  }

  /** The annotations a merge patch from one object to another with more or changed annotations sets. */
  function MergeFrom(original: map<string, string>, modified: map<string, string>): map<string, string> {
    map k | k in modified && !(k in original && original[k] == modified[k]) :: modified[k]
  }

  lemma MergeFromIsWakePatch(annotations: map<string, string>, stamp: string)
    ensures MergeFrom(annotations, annotations[LAST_USED := stamp]) == WakePatch(annotations, stamp)
  {
  }

  class BuilderService {
    const db: Backend

    constructor (db: Backend)
      ensures this.db == db
    {
      this.db := db;
    }

    method ListBuilders(user: string, ns: string) returns (r: Reply)
      modifies db
      ensures (db.s, Finished(r)) == Handle(db.env, old(db.s), user, OnObjects(List(BuilderKind, ns)), old(db.choices))
    {
      hide Perform, ResumeGate, ResumeAccount, ResumeOrg, IssueAccount, IssueOrg, ViewOf;
      var err := EnsureOrgMember(db, user, ns, List(BuilderKind, ns));
      if err.Some? {
        return Rejected(err.value);
      }
      var a := db.Exec(Obj(First(List(BuilderKind, ns))), OnCluster(ListObjects(BuilderKind, ns)));
      if !a.Objects? {
        return Rejected(Internal);
      }
      var views := ViewsOf(db.env, a.objects);
      return ObjectsReply(views);
    }

    method GetBuilder(user: string, ns: string, name: string) returns (r: Reply)
      modifies db
      ensures (db.s, Finished(r)) ==
                Handle(db.env, old(db.s), user, OnObjects(Get(BuilderKind, ns, name)), old(db.choices))
    {
      hide Perform, ResumeGate, ResumeAccount, ResumeOrg, IssueAccount, IssueOrg, ViewOf;
      ghost var act := Get(BuilderKind, ns, name);
      var err := EnsureOrgMember(db, user, ns, act);
      if err.Some? {
        return Rejected(err.value);
      }
      if name == "" {
        return Rejected(InvalidArgument);
      }
      var a := db.Exec(Obj(First(act)), OnCluster(GetObject(Key(BuilderKind, ns, name))));
      if !a.ObjectIs? {
        return Rejected(if a.Missing? then NotFound else Internal);
      }
      return ObjectReply(Key(BuilderKind, ns, name), ViewOf(db.env, a.obj.content));
    }

    method CreateBuilder(user: string, ns: string, name: string, spec: Option<B.BuilderSpec>) returns (r: Reply)
      modifies db
      ensures var arg := if spec.Some? then ForBuilder(spec.value) else NoSpec(BuilderKind);
              (db.s, Finished(r)) == Handle(db.env, old(db.s), user, OnObjects(Create(ns, name, arg)), old(db.choices))
    {
      hide Perform, ResumeGate, ResumeAccount, ResumeOrg, IssueAccount, IssueOrg, ViewOf;
      ghost var act := Create(ns, name, if spec.Some? then ForBuilder(spec.value) else NoSpec(BuilderKind));
      var err := EnsureOrgMember(db, user, ns, act);
      if err.Some? {
        return Rejected(err.value);
      }
      var ok, _ := db.EnsureOrgNamespace(Obj(Ensure(act)), ns);
      if !ok {
        return Rejected(Internal);
      }
      if name == "" || spec.None? || spec.value.templateRef == "" {
        return Rejected(InvalidArgument);
      }
      var content := Content(BuilderBody(B.Write(spec.value), NO_STATUS), map[]);
      var a := db.Exec(Obj(First(act)), OnCluster(CreateObject(Key(BuilderKind, ns, name), content)));
      if !a.ObjectIs? {
        return Rejected(Internal);
      }
      return ObjectReply(Key(BuilderKind, ns, name), ViewOf(db.env, a.obj.content));
    }

    method UpdateBuilder(user: string, ns: string, name: string, spec: Option<B.BuilderSpec>) returns (r: Reply)
      modifies db
      ensures var arg := if spec.Some? then ForBuilder(spec.value) else NoSpec(BuilderKind);
              (db.s, Finished(r)) == Handle(db.env, old(db.s), user, OnObjects(Update(ns, name, arg)), old(db.choices))
    {
      hide Perform, ResumeGate, ResumeAccount, ResumeOrg, IssueAccount, IssueOrg, ViewOf;
      ghost var act := Update(ns, name, if spec.Some? then ForBuilder(spec.value) else NoSpec(BuilderKind));
      var err := EnsureOrgMember(db, user, ns, act);
      if err.Some? {
        return Rejected(err.value);
      }
      if name == "" || spec.None? {
        return Rejected(InvalidArgument);
      }
      var key := Key(BuilderKind, ns, name);
      var a := db.Exec(Obj(First(act)), OnCluster(GetObject(key)));
      if !a.ObjectIs? {
        return Rejected(if a.Missing? then NotFound else Internal);
      }
      var b := a.obj;
      var status := if b.content.body.BuilderBody? then b.content.body.status else NO_STATUS;
      b := b.(content := b.content.(body := BuilderBody(B.Write(spec.value), status)));
      var c := db.Exec(Obj(WriteBack(act, a.obj)), OnCluster(UpdateObject(key, b)));
      if !c.ObjectIs? {
        return Rejected(Internal);
      }
      return ObjectReply(key, ViewOf(db.env, c.obj.content));
    }

    method DeleteBuilder(user: string, ns: string, name: string) returns (r: Reply)
      modifies db
      ensures (db.s, Finished(r)) ==
                Handle(db.env, old(db.s), user, OnObjects(Delete(BuilderKind, ns, name)), old(db.choices))
    {
      hide Perform, ResumeGate, ResumeAccount, ResumeOrg, IssueAccount, IssueOrg, ViewOf;
      ghost var act := Delete(BuilderKind, ns, name);
      var err := EnsureOrgMember(db, user, ns, act);
      if err.Some? {
        return Rejected(err.value);
      }
      if name == "" {
        return Rejected(InvalidArgument);
      }
      var a := db.Exec(Obj(First(act)), OnCluster(DeleteObject(Key(BuilderKind, ns, name))));
      if !a.Done? && !a.Missing? {
        return Rejected(Internal);
      }
      return Deleted;
    }

    method WakeBuilder(user: string, ns: string, name: string) returns (r: Reply)
      modifies db
      ensures (db.s, Finished(r)) == Handle(db.env, old(db.s), user, OnObjects(Act.Wake(ns, name)), old(db.choices))
    {
      hide Perform, ResumeGate, ResumeAccount, ResumeOrg, IssueAccount, IssueOrg, ViewOf, WakePatch;
      ghost var act := Act.Wake(ns, name);
      var err := EnsureOrgMember(db, user, ns, act);
      if err.Some? {
        return Rejected(err.value);
      }
      if name == "" {
        return Rejected(InvalidArgument);
      }
      var key := Key(BuilderKind, ns, name);
      var a := db.Exec(Obj(First(act)), OnCluster(GetObject(key)));
      if !a.ObjectIs? {
        return Rejected(if a.Missing? then NotFound else Internal);
      }
      var original, modified := a.obj.content, a.obj.content;
      var stamp := db.env.stamp(db.s.now / SECOND);
      modified := modified.(annotations := modified.annotations[LAST_USED := stamp]);
      MergeFromIsWakePatch(original.annotations, stamp);
      var b := db.Exec(Obj(PatchBack(act, a.obj, stamp)),
                       OnCluster(PatchObject(key, MergeFrom(original.annotations, modified.annotations))));
      if !b.ObjectIs? {
        return Rejected(Internal);
      }
      return ObjectReply(key, ViewOf(db.env, b.obj.content));
    }
  }
}
