/** The handlers on accounts, sessions and API keys, call by call. */
module AuthHandlers {
  import opened Wrappers
  import opened Text
  import opened Stores
  import opened Programs
  import opened Sequential
  import opened Backends
  import opened Sessions
  import ApiKeys
  import Scopes
  import B = Builders

  class AuthService {
    const db: Backend

    constructor (db: Backend)
      ensures this.db == db
    {
      this.db := db;
    }

    method Register(email: string, password: string, name: string) returns (r: Reply)
      modifies db
      ensures (db.s, Finished(r)) == Handle(db.env, old(db.s), "", Op.Register(email, password, name), old(db.choices))
    {
      hide Perform, ResumeGate, ResumeOrg, ResumeObj, IssueOrg, IssueObj, TrimSpace, AccessClaims, RefreshClaims;
      var email' := TrimSpace(email);
      var name' := TrimSpace(name);
      if email' == "" || password == "" || name' == "" {
        return Rejected(InvalidArgument);
      }
      var hash := db.env.hashPassword(password);
      if hash.None? {
        return Rejected(Internal);
      }
      var id := db.GeneratedId();
      var a := db.Exec(Account(UserInsert(email', hash.value, name')),
                       OnAccounts(InsertUser(id, email', hash.value, name')));
      if !a.NewRow? {
        return Rejected(if a.Duplicate? then AlreadyExists else Internal);
      }
      return SessionReply(a.id, AccessClaims(a.id, email', db.s.now), RefreshClaims(a.id, email', db.s.now));
    }

    method Login(email: string, password: string) returns (r: Reply)
      modifies db
      ensures (db.s, Finished(r)) == Handle(db.env, old(db.s), "", Op.Login(email, password), old(db.choices))
    {
      hide Perform, ResumeGate, ResumeOrg, ResumeObj, IssueOrg, IssueObj, AccessClaims, RefreshClaims;
      if email == "" || password == "" {
        return Rejected(InvalidArgument);
      }
      var a := db.Exec(Account(LoginSelect(email, password)), OnAccounts(SelectLogin(email)));
      if !a.LoginIs? {
        return Rejected(if a.Missing? then Unauthenticated else Internal);
      }
      if !db.env.checkPassword(a.user.passwordHash, password) {
        return Rejected(Unauthenticated);
      }
      var id := a.user.id;
      return SessionReply(id, AccessClaims(id, email, db.s.now), RefreshClaims(id, email, db.s.now));
    }

    method RefreshToken(token: string) returns (r: Reply)
      ensures (db.s, Finished(r)) == Handle(db.env, db.s, "", Op.RefreshToken(token), db.choices)
    {
      hide AccessClaims;
      if token == "" {
        return Rejected(InvalidArgument);
      }
      var claims := Validate(db.env.verify(token), "refresh", db.s.now);
      if claims.None? {
        return Rejected(Unauthenticated);
      }
      return Refreshed(AccessClaims(claims.value.user, claims.value.email, db.s.now));
    }

    method GetMe(user: string) returns (r: Reply)
      modifies db
      ensures (db.s, Finished(r)) == Handle(db.env, old(db.s), user, Op.GetMe, old(db.choices))
    {
      hide Perform, ResumeGate, ResumeOrg, ResumeObj, IssueOrg, IssueObj;
      if user == "" {
        return Rejected(Unauthenticated);
      }
      var a := db.Exec(Account(ProfileRead(user)), OnAccounts(SelectUser(user)));
      if !a.Users? {
        return Rejected(if a.Missing? then NotFound else Internal);
      }
      return ProfileReply(a.users);
    }

    method UpdateProfile(user: string, name: string) returns (r: Reply)
      modifies db
      ensures (db.s, Finished(r)) == Handle(db.env, old(db.s), user, Op.UpdateProfile(name), old(db.choices))
    {
      hide Perform, ResumeGate, ResumeOrg, ResumeObj, IssueOrg, IssueObj, TrimSpace;
      if user == "" {
        return Rejected(Unauthenticated);
      }
      var name' := TrimSpace(name);
      if name' == "" {
        return Rejected(InvalidArgument);
      }
      var a := db.Exec(Account(ProfileWrite(user, name')), OnAccounts(RenameUser(user, name')));
      if !a.Done? {
        return Rejected(Internal);
      }
      if a.rows == 0 {
        return Rejected(NotFound);
      }
      var b := db.Exec(Account(ProfileConfirm(user, name')), OnAccounts(SelectUser(user)));
      if !b.Users? {
        return Rejected(if b.Missing? then NotFound else Internal);
      }
      return ProfileReply(map e | e in b.users :: b.users[e].(name := name'));
    }

    method CreateUserApiKey(user: string, name: string, scopes: seq<string>, days: B.int32, secret: seq<ApiKeys.byte>)
        returns (r: Reply)
      requires |secret| == 32
      modifies db
      ensures (db.s, Finished(r)) ==
                Handle(db.env, old(db.s), user, Op.CreateUserApiKey(name, scopes, days, secret), old(db.choices))
    {
      hide Perform, ResumeGate, ResumeOrg, ResumeObj, IssueOrg, IssueObj, TrimSpace, ApiKeys.Token, Scopes.CheckScopes;
      if user == "" {
        return Rejected(Unauthenticated);
      }
      var name' := TrimSpace(name);
      if name' == "" {
        return Rejected(InvalidArgument);
      }
      if |scopes| == 0 {
        return Rejected(InvalidArgument);
      }
      var e := Scopes.ValidateScopes(scopes);
      if e.Some? {
        return Rejected(InvalidArgument);
      }
      var expiresAt: Option<nat>;
      if days == -1 {
        expiresAt := None;
      } else if days == 0 {
        expiresAt := Some(db.s.now + 365 * DAY);
      } else {
        if days < 1 || days > 3650 {
          return Rejected(InvalidArgument);
        }
        expiresAt := Some(db.s.now + days * DAY);
      }
      var buffer := new ApiKeys.byte[32](i requires 0 <= i < 32 => secret[i]);
      assert buffer[..] == secret;
      var full, prefix := ApiKeys.GenerateUserAPIKey(buffer);
      var hash := db.env.hash(full);
      var row := KeyRow("", user, name', prefix, scopes, 0, expiresAt, None);
      var id := db.GeneratedId();
      var a := db.Exec(Account(KeyInsert(hash, row, full)), OnAccounts(InsertKey(id, hash, row)));
      if !a.NewRow? {
        return Rejected(Internal);
      }
      return KeyIssued(row.(id := a.id, createdAt := db.s.now), full);
    }

    method ListUserApiKeys(user: string) returns (r: Reply)
      modifies db
      ensures (db.s, Finished(r)) == Handle(db.env, old(db.s), user, Op.ListUserApiKeys, old(db.choices))
    {
      hide Perform, ResumeGate, ResumeOrg, ResumeObj, IssueOrg, IssueObj;
      if user == "" {
        return Rejected(Unauthenticated);
      }
      var a := db.Exec(Account(KeysRead(user)), OnAccounts(SelectKeys(user)));
      if !a.Keys? {
        return Rejected(Internal);
      }
      return KeysReply(a.keys);
    }

    method RevokeUserApiKey(user: string, id: string) returns (r: Reply)
      modifies db
      ensures (db.s, Finished(r)) == Handle(db.env, old(db.s), user, Op.RevokeUserApiKey(id), old(db.choices))
    {
      hide Perform, ResumeGate, ResumeOrg, ResumeObj, IssueOrg, IssueObj, TrimSpace;
      if user == "" {
        return Rejected(Unauthenticated);
      }
      var keyId := TrimSpace(id);
      if keyId == "" {
        return Rejected(InvalidArgument);
      }
      var a := db.Exec(Account(KeyDelete(user, keyId)), OnAccounts(DeleteKey(user, db.env.uuid(keyId))));
      if !a.Done? {
        return Rejected(Internal);
      }
      if a.rows == 0 {
        return Rejected(NotFound);
      }
      return Deleted;
    }
  }
}
