/** The whole service: a request passes an interceptor and is then handled. */
module Servers {
  import opened Wrappers
  import opened Programs
  import opened Sequential
  import opened Backends
  import opened Interceptors
  import opened AccessRules
  import opened AuthHandlers
  import opened OrganizationHandlers
  import opened BuilderHandlers
  import opened TemplateHandlers

  class Server {
    const db: Backend

    constructor (db: Backend)
      ensures this.db == db
    {
      this.db := db;
    }

    method DispatchBuilders(user: string, act: Act) returns (r: Reply)
      requires KeyOf(act).kind.BuilderKind?
      modifies db
      ensures (db.s, Finished(r)) == Handle(db.env, old(db.s), user, OnObjects(act), old(db.choices))
    {
      hide Handle;
      var service := new BuilderService(db);
      match act
      case List(_, ns) => r := service.ListBuilders(user, ns);
      case Get(_, ns, name) => r := service.GetBuilder(user, ns, name);
      case Create(ns, name, arg) =>
        r := service.CreateBuilder(user, ns, name, if arg.ForBuilder? then Some(arg.b) else None);
      case Update(ns, name, arg) =>
        r := service.UpdateBuilder(user, ns, name, if arg.ForBuilder? then Some(arg.b) else None);
      case Delete(_, ns, name) => r := service.DeleteBuilder(user, ns, name);
      case Wake(ns, name) => r := service.WakeBuilder(user, ns, name);
    }

    method DispatchTemplates(user: string, act: Act) returns (r: Reply)
      requires KeyOf(act).kind.TemplateKind?
      modifies db
      ensures (db.s, Finished(r)) == Handle(db.env, old(db.s), user, OnObjects(act), old(db.choices))
    {
      hide Handle;
      var service := new TemplateService(db);
      match act
      case List(_, ns) => r := service.ListTemplates(user, ns);
      case Get(_, ns, name) => r := service.GetTemplate(user, ns, name);
      case Create(ns, name, arg) =>
        r := service.CreateTemplate(user, ns, name, if arg.ForTemplate? then Some(arg.t) else None);
      case Update(ns, name, arg) =>
        r := service.UpdateTemplate(user, ns, name, if arg.ForTemplate? then Some(arg.t) else None);
      case Delete(_, ns, name) => r := service.DeleteTemplate(user, ns, name);
    }

    method DispatchOrganizations(user: string, op: Op) returns (r: Reply)
      requires !OpenToAll(op) && !OnOwnAccount(op) && !op.OnObjects?
      modifies db
      ensures (db.s, Finished(r)) == Handle(db.env, old(db.s), user, op, old(db.choices))
    {
      hide Handle;
      var service := new OrganizationService(db);
      match op
      case ListOrganizations => r := service.ListOrganizations(user);
      case GetOrganization(id) => r := service.GetOrganization(user, id);
      case CreateOrganization(name, slug, plan) => r := service.CreateOrganization(user, name, slug, plan);
      case UpdateOrganization(id, name, slug, plan) => r := service.UpdateOrganization(user, id, name, slug, plan);
      case DeleteOrganization(id) => r := service.DeleteOrganization(user, id);
      case ListOrganizationMembers(id) => r := service.ListOrganizationMembers(user, id);
    }

    method DispatchAccounts(user: string, op: Op) returns (r: Reply)
      requires OnOwnAccount(op) && (op.CreateUserApiKey? ==> |op.secret| == 32)
      modifies db
      ensures (db.s, Finished(r)) == Handle(db.env, old(db.s), user, op, old(db.choices))
    {
      hide Handle;
      var service := new AuthService(db);
      match op
      case GetMe => r := service.GetMe(user);
      case UpdateProfile(name) => r := service.UpdateProfile(user, name);
      case CreateUserApiKey(name, scopes, days, secret) => r := service.CreateUserApiKey(user, name, scopes, days,
          secret);
      case ListUserApiKeys => r := service.ListUserApiKeys(user);
      case RevokeUserApiKey(id) => r := service.RevokeUserApiKey(user, id);
    }

    method DispatchPublic(op: Op) returns (r: Reply)
      requires OpenToAll(op)
      modifies db
      ensures (db.s, Finished(r)) == Handle(db.env, old(db.s), "", op, old(db.choices))
    {
      var service := new AuthService(db);
      match op
      case Register(email, password, name) => hide Handle; r := service.Register(email, password, name);
      case Login(email, password) => hide Handle; r := service.Login(email, password);
      case RefreshToken(token) => hide Handle; r := service.RefreshToken(token);
      case HealthCheck => r := Healthy;
    }

    /** One request, from its arrival to its reply. Random bytes for a new key come in the request; there are 32. */
    method Serve(req: Request) returns (r: Reply)
      requires req.op.CreateUserApiKey? ==> |req.op.secret| == 32
      modifies db
      ensures (db.s, Finished(r)) ==
              RunAlone(db.env, old(db.s), Start(db.env, old(db.s.now), req), old(db.choices))
    {
      hide Enter, Begin, Decide;
      DecisionIsGate(db.env, db.s, req, db.choices);
      var gate := new Gatekeeper(db);
      var d := gate.UnaryServerInterceptor(req);
      if d.Turned? {
        return Rejected(d.code);
      }
      if OpenToAll(req.op) {
        PublicGoesThrough(db.env, old(db.s), req, old(db.choices));
        r := DispatchPublic(req.op);
      } else if req.op.OnObjects? {
        if KeyOf(req.op.act).kind.BuilderKind? {
          r := DispatchBuilders(d.user, req.op.act);
        } else {
          r := DispatchTemplates(d.user, req.op.act);
        }
      } else if OnOwnAccount(req.op) {
        r := DispatchAccounts(d.user, req.op);
      } else {
        r := DispatchOrganizations(d.user, req.op);
      }
    }
  }
}
