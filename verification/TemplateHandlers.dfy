/** The handlers on templates, call by call. Unlike a new builder, a new template does not create the namespace. */
module TemplateHandlers {
  import opened Wrappers
  import opened Stores
  import opened Programs
  import opened Sequential
  import opened Backends
  import opened BuilderHandlers
  import T = Templates

  class TemplateService {
    const db: Backend

    constructor (db: Backend)
      ensures this.db == db
    {
      this.db := db;
    }

    method ListTemplates(user: string, ns: string) returns (r: Reply)
      modifies db
      ensures (db.s, Finished(r)) == Handle(db.env, old(db.s), user, OnObjects(List(TemplateKind, ns)), old(db.choices))
    {
      hide Perform, ResumeGate, ResumeAccount, ResumeOrg, IssueAccount, IssueOrg, ViewOf;
      ghost var act := List(TemplateKind, ns);
      var err := EnsureOrgMember(db, user, ns, act);
      if err.Some? {
        return Rejected(err.value);
      }
      var a := db.Exec(Obj(First(act)), OnCluster(ListObjects(TemplateKind, ns)));
      if !a.Objects? {
        return Rejected(Internal);
      }
      var views := ViewsOf(db.env, a.objects);
      return ObjectsReply(views);
    }

    method GetTemplate(user: string, ns: string, name: string) returns (r: Reply)
      modifies db
      ensures (db.s, Finished(r)) ==
                Handle(db.env, old(db.s), user, OnObjects(Get(TemplateKind, ns, name)), old(db.choices))
    {
      hide Perform, ResumeGate, ResumeAccount, ResumeOrg, IssueAccount, IssueOrg, ViewOf;
      ghost var act := Get(TemplateKind, ns, name);
      var err := EnsureOrgMember(db, user, ns, act);
      if err.Some? {
        return Rejected(err.value);
      }
      if name == "" {
        return Rejected(InvalidArgument);
      }
      var a := db.Exec(Obj(First(act)), OnCluster(GetObject(Key(TemplateKind, ns, name))));
      if !a.ObjectIs? {
        return Rejected(if a.Missing? then NotFound else Internal);
      }
      return ObjectReply(Key(TemplateKind, ns, name), ViewOf(db.env, a.obj.content));
    }

    method CreateTemplate(user: string, ns: string, name: string, spec: Option<T.TemplateSpec>) returns (r: Reply)
      modifies db
      ensures var arg := if spec.Some? then ForTemplate(spec.value) else NoSpec(TemplateKind);
              (db.s, Finished(r)) == Handle(db.env, old(db.s), user, OnObjects(Create(ns, name, arg)), old(db.choices))
    {
      hide Perform, ResumeGate, ResumeAccount, ResumeOrg, IssueAccount, IssueOrg, ViewOf;
      ghost var act := Create(ns, name, if spec.Some? then ForTemplate(spec.value) else NoSpec(TemplateKind));
      var err := EnsureOrgMember(db, user, ns, act);
      if err.Some? {
        return Rejected(err.value);
      }
      if name == "" || spec.None? {
        return Rejected(InvalidArgument);
      }
      var resource := T.ProtoSpecToTemplateSpec(db.env.parse, spec.value);
      var content := Content(TemplateBody(resource), map[]);
      var a := db.Exec(Obj(First(act)), OnCluster(CreateObject(Key(TemplateKind, ns, name), content)));
      if !a.ObjectIs? {
        return Rejected(Internal);
      }
      return ObjectReply(Key(TemplateKind, ns, name), ViewOf(db.env, a.obj.content));
    }

    method UpdateTemplate(user: string, ns: string, name: string, spec: Option<T.TemplateSpec>) returns (r: Reply)
      modifies db
      ensures var arg := if spec.Some? then ForTemplate(spec.value) else NoSpec(TemplateKind);
              (db.s, Finished(r)) == Handle(db.env, old(db.s), user, OnObjects(Update(ns, name, arg)), old(db.choices))
    {
      hide Perform, ResumeGate, ResumeAccount, ResumeOrg, IssueAccount, IssueOrg, ViewOf;
      ghost var act := Update(ns, name, if spec.Some? then ForTemplate(spec.value) else NoSpec(TemplateKind));
      var err := EnsureOrgMember(db, user, ns, act);
      if err.Some? {
        return Rejected(err.value);
      }
      if name == "" || spec.None? {
        return Rejected(InvalidArgument);
      }
      var key := Key(TemplateKind, ns, name);
      var a := db.Exec(Obj(First(act)), OnCluster(GetObject(key)));
      if !a.ObjectIs? {
        return Rejected(if a.Missing? then NotFound else Internal);
      }
      var resource := T.ProtoSpecToTemplateSpec(db.env.parse, spec.value);
      var tmpl := a.obj;
      tmpl := tmpl.(content := tmpl.content.(body := TemplateBody(resource)));
      var c := db.Exec(Obj(WriteBack(act, a.obj)), OnCluster(UpdateObject(key, tmpl)));
      if !c.ObjectIs? {
        return Rejected(Internal);
      }
      return ObjectReply(key, ViewOf(db.env, c.obj.content));
    }

    method DeleteTemplate(user: string, ns: string, name: string) returns (r: Reply)
      modifies db
      ensures (db.s, Finished(r)) ==
                Handle(db.env, old(db.s), user, OnObjects(Delete(TemplateKind, ns, name)), old(db.choices))
    {
      hide Perform, ResumeGate, ResumeAccount, ResumeOrg, IssueAccount, IssueOrg, ViewOf;
      ghost var act := Delete(TemplateKind, ns, name);
      var err := EnsureOrgMember(db, user, ns, act);
      if err.Some? {
        return Rejected(err.value);
      }
      if name == "" {
        return Rejected(InvalidArgument);
      }
      var a := db.Exec(Obj(First(act)), OnCluster(DeleteObject(Key(TemplateKind, ns, name))));
      if !a.Done? && !a.Missing? {
        return Rejected(Internal);
      }
      return Deleted;
    }
  }
}
