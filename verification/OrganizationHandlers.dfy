/** The handlers of the organization service, call by call. Each does exactly what its program does when nothing
    comes in between. */
module OrganizationHandlers {
  import opened Wrappers
  import opened Text
  import opened Slugs
  import opened Stores
  import opened Programs
  import opened Sequential
  import opened UpdateStatements
  import opened Backends
  import SetBuilder

  class OrganizationService {
    const db: Backend

    constructor (db: Backend)
      ensures this.db == db
    {
      this.db := db;
    }

    method CreateOrganization(user: string, name: string, slug: string, plan: string) returns (r: Reply)
      modifies db
      ensures (db.s, Finished(r)) ==
                Handle(db.env, old(db.s), user, Op.CreateOrganization(name, slug, plan), old(db.choices))
    {
      hide Perform, ResumeGate, ResumeAccount, ResumeObj, IssueAccount, IssueObj, TrimSpace, ToLower, ValidSlug;
      if user == "" {
        return Rejected(Unauthenticated);
      }
      if TrimSpace(name) == "" || TrimSpace(slug) == "" {
        return Rejected(InvalidArgument);
      }
      var slug' := ToLower(TrimSpace(slug));
      if !ValidSlug(slug') {
        return Rejected(InvalidArgument);
      }
      var plan' := TrimSpace(plan);
      if plan' == "" {
        plan' := "starter";
      }
      if plan' != "starter" && plan' != "pro" && plan' != "enterprise" {
        return Rejected(InvalidArgument);
      }
      var row := OrgRow(TrimSpace(name), slug', plan');
      var id := db.GeneratedId();
      var a := db.Exec(Org(CreateInsert(user, row)), OnTables(InsertOrg(Generated(db.env, id), row)));
      if !a.NewRow? {
        return Rejected(if a.Duplicate? then AlreadyExists else Internal);
      }
      var orgId := a.id;
      var b := db.Exec(Org(CreateOwner(user, orgId, row)), OnTables(InsertOwner(user, orgId)));
      if !b.Done? {
        var _ := db.Exec(Org(CreateUndo(orgId)), OnTables(DeleteOrg(Some(orgId))));
        return Rejected(Internal);
      }
      var ok, _ := db.EnsureOrgNamespace(Org(CreateEnsure(orgId, row)), orgId);
      if !ok {
        var _ := db.Exec(Org(CreateUndo(orgId)), OnTables(DeleteOrg(Some(orgId))));
        return Rejected(Internal);
      }
      return OrgReply(orgId, row, 1);
    }

    method GetOrganization(user: string, id: string) returns (r: Reply)
      modifies db
      ensures (db.s, Finished(r)) == Handle(db.env, old(db.s), user, Op.GetOrganization(id), old(db.choices))
    {
      hide Perform, ResumeGate, ResumeAccount, ResumeObj, IssueAccount, IssueObj;
      if user == "" {
        return Rejected(Unauthenticated);
      }
      if id == "" {
        return Rejected(InvalidArgument);
      }
      var a := db.Exec(Org(OrgRead(user, id)), OnTables(SelectOrg(user, db.env.uuid(id))));
      if !a.OrgIs? {
        return Rejected(if a.Missing? then NotFound else Internal);
      }
      return OrgReply(a.id, a.org, a.memberCount);
    }

    /** The last part of an update, once the request is known to be in order and to ask for a change. */
    method WriteUpdate(user: string, id: string, name: string, slug: string, plan: string) returns (r: Reply)
      requires user != "" && id != "" && !(name == "" && slug == "" && plan == "")
      modifies db
      ensures (db.s, Finished(r)) ==
              RunAlone(db.env, old(db.s), Org(UpdateWrite(user, id, ChangeOf(name, slug, plan))), old(db.choices))
    {
      hide Perform, ResumeGate, ResumeAccount, ResumeObj, IssueAccount, IssueObj, TrimSpace, ToLower;
      hide ReadStatement, SetBuilder.Statement, SetBuilder.Arguments, OrgFields;
      var q, args := BuildUpdate(id, name, slug, plan);
      StatementReadsBack(db.env, ChangeOf(name, slug, plan), id);
      var a := db.ExecStatement(Org(UpdateWrite(user, id, ChangeOf(name, slug, plan))), q, args);
      if !a.Done? {
        return Rejected(if a.Duplicate? then AlreadyExists else Internal);
      }
      r := GetOrganization(user, id);
    }

    method UpdateOrganization(user: string, id: string, name: string, slug: string, plan: string) returns (r: Reply)
      modifies db
      ensures (db.s, Finished(r)) ==
                Handle(db.env, old(db.s), user, Op.UpdateOrganization(id, name, slug, plan), old(db.choices))
    {
      hide Perform, ResumeGate, ResumeAccount, ResumeObj, IssueAccount, IssueObj, TrimSpace, ToLower, ValidSlug;
      if user == "" {
        return Rejected(Unauthenticated);
      }
      if id == "" {
        return Rejected(InvalidArgument);
      }
      var a := db.Exec(Org(UpdateRole(user, id, name, slug, plan)), OnTables(SelectRole(user, db.env.uuid(id))));
      if !a.RoleIs? {
        return Rejected(if a.Missing? then NotFound else Internal);
      }
      if a.role != Owner && a.role != Admin {
        return Rejected(PermissionDenied);
      }
      if name == "" && slug == "" && plan == "" {
        r := GetOrganization(user, id);
        return;
      }
      if slug != "" {
        var slug' := ToLower(TrimSpace(slug));
        if !ValidSlug(slug') {
          return Rejected(InvalidArgument);
        }
      }
      if plan != "" && plan != "starter" && plan != "pro" && plan != "enterprise" {
        return Rejected(InvalidArgument);
      }
      r := WriteUpdate(user, id, name, slug, plan);
    }

    method DeleteOrganization(user: string, id: string) returns (r: Reply)
      modifies db
      ensures (db.s, Finished(r)) == Handle(db.env, old(db.s), user, Op.DeleteOrganization(id), old(db.choices))
    {
      hide Perform, ResumeGate, ResumeAccount, ResumeObj, IssueAccount, IssueObj;
      if user == "" {
        return Rejected(Unauthenticated);
      }
      if id == "" {
        return Rejected(InvalidArgument);
      }
      var a := db.Exec(Org(DeleteRole(user, id)), OnTables(SelectRole(user, db.env.uuid(id))));
      if !a.RoleIs? {
        return Rejected(if a.Missing? then NotFound else Internal);
      }
      if a.role != Owner {
        return Rejected(PermissionDenied);
      }
      var ok, _ := db.DeleteOrgNamespace(Org(DeleteSpace(id)), id);
      if !ok {
        return Rejected(Internal);
      }
      var b := db.Exec(Org(DeleteRow(id)), OnTables(DeleteOrg(db.env.uuid(id))));
      if !b.Done? {
        return Rejected(Internal);
      }
      if b.rows == 0 {
        return Rejected(NotFound);
      }
      return Deleted;
    }

    method ListOrganizations(user: string) returns (r: Reply)
      modifies db
      ensures (db.s, Finished(r)) == Handle(db.env, old(db.s), user, Op.ListOrganizations, old(db.choices))
    {
      hide Perform, ResumeGate, ResumeAccount, ResumeObj, IssueAccount, IssueObj;
      if user == "" {
        return Rejected(Unauthenticated);
      }
      var a := db.Exec(Org(OrgList(user)), OnTables(SelectOrgs(user)));
      if !a.Orgs? {
        return Rejected(Internal);
      }
      return OrgsReply(a.orgs);
    }

    method ListOrganizationMembers(user: string, id: string) returns (r: Reply)
      modifies db
      ensures (db.s, Finished(r)) == Handle(db.env, old(db.s), user, Op.ListOrganizationMembers(id), old(db.choices))
    {
      hide Perform, ResumeGate, ResumeAccount, ResumeObj, IssueAccount, IssueObj, TrimSpace;
      if user == "" {
        return Rejected(Unauthenticated);
      }
      var orgId := TrimSpace(id);
      if orgId == "" {
        return Rejected(InvalidArgument);
      }
      var a := db.Exec(Org(MembersCheck(user, orgId)), OnTables(CheckMember(user, db.env.uuid(orgId))));
      if !a.MemberIs? {
        return Rejected(Internal);
      }
      if !a.yes {
        return Rejected(PermissionDenied);
      }
      var b := db.Exec(Org(MembersRead(orgId)), OnTables(SelectMembers(db.env.uuid(orgId))));
      if !b.MemberRows? {
        return Rejected(Internal);
      }
      return MembersReply(b.members);
    }
  }
}
