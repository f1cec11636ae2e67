/** What each builder and template request of a member does to the stored objects and what it shows of them, run alone
    and without faults: field by field, for the object it names and for all others. */
module ObjectMeanings {
  import opened Wrappers
  import opened Stores
  import opened Programs
  import opened Lifecycle
  import opened Sequential
  import opened Linearizability
  import opened ObjectRequests
  import B = Builders
  import T = Templates

  // ---- Fields ----

  /** The stored spec has the fields of the request; empty names and numbers that are not positive stay unset. */
  predicate StoresBuilder(cr: B.BuilderResource, p: B.BuilderSpec) {
    && cr.mode == p.mode && cr.labels == p.labels
    && (if p.templateRef == "" then cr.templateRef.None? else cr.templateRef == Some(p.templateRef))
    && (if p.replicas < 1 then cr.replicas.None? else cr.replicas == Some(p.replicas))
    && (if p.idleTimeoutSeconds < 1 then cr.idleTimeoutSeconds.None?
        else cr.idleTimeoutSeconds == Some(p.idleTimeoutSeconds))
  }

  /** The shown spec has the fields of the stored one; an unset reference is empty, unset replicas are 1, and an unset
      idle timeout is 300 seconds. */
  predicate ShowsBuilder(p: B.BuilderSpec, cr: B.BuilderResource) {
    && p.mode == cr.mode && p.labels == cr.labels
    && p.templateRef == (match cr.templateRef case Some(t) => t case None => "")
    && p.replicas == (match cr.replicas case Some(n) => n case None => 1)
    && p.idleTimeoutSeconds == (match cr.idleTimeoutSeconds case Some(n) => n case None => 300)
  }

  ghost predicate StoresEntries(env: Env, q: map<string, T.Quantity>, m: map<string, string>) {
    && (forall k :: k in q <==> k in m && env.parse(m[k]).Some?)
    && (forall k | k in q :: env.parse(m[k]) == Some(q[k]))
  }

  ghost predicate ShowsEntries(env: Env, m: map<string, string>, q: map<string, T.Quantity>) {
    (forall k :: k in m <==> k in q) && (forall k | k in m :: m[k] == env.show(q[k]))
  }

  /** The stored template has the fields of the request and the quantities that parse; without a cache block its cache
      is empty. */
  ghost predicate StoresTemplate(env: Env, t: T.TemplateResource, s: T.TemplateSpec) {
    && t.buildkitImage == s.buildkitImage && t.rootless == s.rootless && t.arch == s.arch
    && t.cacheConfig == (match s.cacheConfig case Some(c) => c case None => T.CacheConfig("", None, None))
    && StoresEntries(env, t.resources.limits, match s.resources case Some(r) => r.limits case None => map[])
    && StoresEntries(env, t.resources.requests, match s.resources case Some(r) => r.requests case None => map[])
  }

  /** The shown template has the fields of the stored one and its quantities printed; without any there is no block. */
  ghost predicate ShowsTemplate(env: Env, s: T.TemplateSpec, t: T.TemplateResource) {
    && s.buildkitImage == t.buildkitImage && s.rootless == t.rootless && s.arch == t.arch
    && s.cacheConfig == Some(t.cacheConfig)
    && (s.resources.None? <==> t.resources.limits == map[] && t.resources.requests == map[])
    && (s.resources.Some? ==>
          && ShowsEntries(env, s.resources.value.limits, t.resources.limits)
          && ShowsEntries(env, s.resources.value.requests, t.resources.requests))
  }

  ghost predicate StoresArg(env: Env, body: Body, arg: SpecArg) {
    match arg
    case ForBuilder(p) => body.BuilderBody? && StoresBuilder(body.builder, p)
    case ForTemplate(t) => body.TemplateBody? && StoresTemplate(env, body.template, t)
    case NoSpec(_) => false
  }

  ghost predicate Shows(env: Env, view: View, c: Content) {
    match c.body
    case BuilderBody(cr, status) => view.BuilderView? && ShowsBuilder(view.b, cr) && view.status == status
    case TemplateBody(t) => view.TemplateView? && ShowsTemplate(env, view.t, t)
  }

  lemma ViewShows(env: Env, c: Content)
    ensures Shows(env, ViewOf(env, c), c)
  {
  }

  lemma NewBodyStores(env: Env, arg: SpecArg, status: B.BuilderStatus)
    requires !arg.NoSpec?
    ensures StoresArg(env, NewBody(env, arg, status), arg)
    ensures arg.ForBuilder? ==> NewBody(env, arg, status).status == status
  {
  }

  /** The status of a builder; templates have none. */
  function StatusOf(c: Content): Option<B.BuilderStatus> {
    if c.body.BuilderBody? then Some(c.body.status) else None
  }

  // ---- Requests ----

  /** A member's request on the namespace, without faults. */
  predicate ByMember(env: Env, s: Stores, user: string, ns: string, choices: seq<Choice>) {
    user != "" && ns != "" && RoleOf(env, s.tables, user, ns).Some? && FaultFree(choices)
  }

  /** The key of the object a creation or an update names. */
  function Named(ns: string, name: string, arg: SpecArg): Key {
    Key(if arg.ForTemplate? || arg == NoSpec(TemplateKind) then TemplateKind else BuilderKind, ns, name)
  }

  lemma NamedIsKey(ns: string, name: string, arg: SpecArg)
    ensures KeyOf(Create(ns, name, arg)) == KeyOf(Update(ns, name, arg)) == Named(ns, name, arg)
  {
    match arg
    case NoSpec(kind) => assert kind == BuilderKind || kind == TemplateKind;
    case _ =>
  }

  /** All other objects are as they were. */
  predicate OthersStay(was: map<Key, Content>, now: map<Key, Content>, key: Key) {
    && (forall k | k in was && k != key :: k in now && now[k] == was[k])
    && (forall k | k in now && k != key :: k in was)
  }

  /** An update replaces the spec of exactly the named object: its annotations and its status stay, and so does every
      other object. The reply shows the new object. Without the object it says so and changes nothing. */
  lemma UpdateKeepsTheRest(env: Env, s: Stores, user: string, ns: string, name: string, arg: SpecArg,
                           choices: seq<Choice>)
    requires ByMember(env, s, user, ns, choices) && name != "" && !arg.NoSpec?
    ensures var (s', end) := Handle(env, s, user, OnObjects(Update(ns, name, arg)), choices);
            var was, now, key := Contents(s.cluster), Contents(s'.cluster), Named(ns, name, arg);
            && OnlyObjects(s, s')
            && if key !in was then now == was && end == Reject(NotFound)
               else && key in now && OthersStay(was, now, key)
                    && now[key].annotations == was[key].annotations
                    && StoresArg(env, now[key].body, arg)
                    && (was[key].body.BuilderBody? && arg.ForBuilder? ==> StatusOf(now[key]) == StatusOf(was[key]))
                    && end.reply.ObjectReply? && end.reply.key == key && Shows(env, end.reply.view, now[key])
  {
    var act := Update(ns, name, arg);
    MembersRequestIsExact(env, s, user, act, choices);
    var was, key := Contents(s.cluster), Named(ns, name, arg);
    assert KeyOf(act) == key && Prepared(s, act) == s;
    if key in was {
      var old' := was[key];
      NewBodyStores(env, arg, if old'.body.BuilderBody? then old'.body.status else NO_STATUS);
      ViewShows(env, WithSpec(env, old', arg));
    }
    hide Handle, Contents, StoresArg, Shows, ViewOf, NewBody, FaultFree, RoleOf;
  }

  /** A creation adds exactly the named object, with the spec of the request, no annotations and an empty status, if
      the name is free; a builder's namespace is made if it was missing, while a template needs one to be there. */
  lemma CreateAddsOne(env: Env, s: Stores, user: string, ns: string, name: string, arg: SpecArg, choices: seq<Choice>)
    requires ByMember(env, s, user, ns, choices) && name != "" && !arg.NoSpec?
    requires arg.ForBuilder? ==> arg.b.templateRef != ""
    ensures var (s', end) := Handle(env, s, user, OnObjects(Create(ns, name, arg)), choices);
            var was, now, key := Contents(s.cluster), Contents(s'.cluster), Named(ns, name, arg);
            && s' == s.(cluster := s'.cluster)
            && s'.cluster.namespaces == s.cluster.namespaces + (if arg.ForBuilder? then {ns} else {})
            && if key in was || (arg.ForTemplate? && ns !in s.cluster.namespaces)
               then now == was && end == Reject(Internal)
               else && key in now && OthersStay(was, now, key)
                    && now[key].annotations == map[] && StoresArg(env, now[key].body, arg)
                    && (arg.ForBuilder? ==> StatusOf(now[key]) == Some(B.BuilderStatus("", 0, "")))
                    && end.reply.ObjectReply? && end.reply.key == key && Shows(env, end.reply.view, now[key])
  {
    var act := Create(ns, name, arg);
    MembersRequestIsExact(env, s, user, act, choices);
    var key := Named(ns, name, arg);
    assert KeyOf(act) == key;
    assert Contents(Prepared(s, act).cluster) == Contents(s.cluster);
    NewBodyStores(env, arg, NO_STATUS);
    ViewShows(env, Content(NewBody(env, arg, NO_STATUS), map[]));
    hide Handle, Contents, StoresArg, Shows, ViewOf, NewBody, FaultFree, RoleOf;
  }

  /** A wake stamps exactly the named builder with the current second and changes nothing else of it or of any other
      object. */
  lemma WakeOnlyStamps(env: Env, s: Stores, user: string, ns: string, name: string, choices: seq<Choice>)
    requires ByMember(env, s, user, ns, choices) && name != ""
    ensures var (s', end) := Handle(env, s, user, OnObjects(Wake(ns, name)), choices);
            var was, now, key := Contents(s.cluster), Contents(s'.cluster), Key(BuilderKind, ns, name);
            && OnlyObjects(s, s')
            && if key !in was then now == was && end == Reject(NotFound)
               else && key in now && OthersStay(was, now, key)
                    && now[key].body == was[key].body
                    && now[key].annotations ==
                         was[key].annotations["builder.builder-hub.dev/last-used" := env.stamp(s.now / 1_000_000_000)]
                    && end.reply.ObjectReply? && end.reply.key == key && Shows(env, end.reply.view, now[key])
  {
    var act := Act.Wake(ns, name);
    MembersRequestIsExact(env, s, user, act, choices);
    var was, key := Contents(s.cluster), Key(BuilderKind, ns, name);
    assert KeyOf(act) == key && Prepared(s, act) == s;
    if key in was {
      ViewShows(env, was[key]);
      SameBodySameView(env, was[key], Stamped(was[key], env.stamp(s.now / 1_000_000_000)));
    }
    hide Handle, Contents, Shows, ViewOf, FaultFree, RoleOf;
  }

  /** What is shown does not depend on the annotations. */
  lemma SameBodySameView(env: Env, c: Content, d: Content)
    requires d.body == c.body
    ensures ViewOf(env, d) == ViewOf(env, c)
    ensures forall v :: Shows(env, v, d) <==> Shows(env, v, c)
  {
  }

  /** A deletion takes away exactly the named object, and is content if there is none. */
  lemma DeleteTakesOne(env: Env, s: Stores, user: string, kind: Kind, ns: string, name: string, choices: seq<Choice>)
    requires ByMember(env, s, user, ns, choices) && name != ""
    ensures var (s', end) := Handle(env, s, user, OnObjects(Delete(kind, ns, name)), choices);
            var was, now, key := Contents(s.cluster), Contents(s'.cluster), Key(kind, ns, name);
            OnlyObjects(s, s') && key !in now && OthersStay(was, now, key) && end == Finished(Deleted)
  {
    var act := Delete(kind, ns, name);
    MembersRequestIsExact(env, s, user, act, choices);
    assert KeyOf(act) == Key(kind, ns, name) && Prepared(s, act) == s;
    hide Handle, Contents, FaultFree, RoleOf;
  }

  /** A read shows exactly the named object. */
  lemma GetShowsOne(env: Env, s: Stores, user: string, kind: Kind, ns: string, name: string, choices: seq<Choice>)
    requires ByMember(env, s, user, ns, choices) && name != ""
    ensures var (s', end) := Handle(env, s, user, OnObjects(Get(kind, ns, name)), choices);
            var was, key := Contents(s.cluster), Key(kind, ns, name);
            && OnlyObjects(s, s') && Contents(s'.cluster) == was
            && if key !in was then end == Reject(NotFound)
               else end.reply.ObjectReply? && end.reply.key == key && Shows(env, end.reply.view, was[key])
  {
    var act := Get(kind, ns, name);
    MembersRequestIsExact(env, s, user, act, choices);
    var was, key := Contents(s.cluster), Key(kind, ns, name);
    assert KeyOf(act) == key && Prepared(s, act) == s;
    if key in was {
      ViewShows(env, was[key]);
    }
    hide Handle, Contents, Shows, ViewOf, FaultFree, RoleOf;
  }

  /** A listing shows exactly the objects of the kind in the namespace. */
  lemma ListShowsAll(env: Env, s: Stores, user: string, kind: Kind, ns: string, choices: seq<Choice>)
    requires ByMember(env, s, user, ns, choices)
    ensures var (s', end) := Handle(env, s, user, OnObjects(List(kind, ns)), choices);
            var was := Contents(s.cluster);
            && OnlyObjects(s, s') && Contents(s'.cluster) == was && end.reply.ObjectsReply?
            && (forall k :: k in end.reply.views <==> k in was && k.kind == kind && k.ns == ns)
            && (forall k | k in end.reply.views :: Shows(env, end.reply.views[k], was[k]))
  {
    var act := List(kind, ns);
    MembersRequestIsExact(env, s, user, act, choices);
    assert Prepared(s, act) == s;
    var was := Contents(s.cluster);
    forall k | k in was ensures Shows(env, ViewOf(env, was[k]), was[k]) {
      ViewShows(env, was[k]);
    }
    hide Handle, Contents, Shows, ViewOf, FaultFree, RoleOf;
  }

  // ---- Rejected requests ----

  /** A member's request with something missing is rejected. Nothing changes, but that the namespace of a builder that
      was to be created is there. */
  lemma MissingFieldsAreRejected(env: Env, s: Stores, user: string, act: Act, choices: seq<Choice>)
    requires ByMember(env, s, user, act.ns, choices) && !FilledIn(act)
    ensures var (s', end) := Handle(env, s, user, OnObjects(act), choices);
            && end == Reject(InvalidArgument) && s' == s.(cluster := s'.cluster)
            && s'.cluster == s.cluster.(namespaces := s'.cluster.namespaces)
            && s'.cluster.namespaces == s.cluster.namespaces +
                 (if act.Create? && (act.arg.ForBuilder? || act.arg == NoSpec(BuilderKind)) then {act.ns} else {})
  {
    OtherRequestsAreRejected(env, s, user, act, choices);
    assert s.cluster.namespaces + {} == s.cluster.namespaces;
    assert RoleOf(env, s.tables, user, act.ns).Some? ==> env.uuid(act.ns).Some?;
    hide Handle, FaultFree, RoleOf, FilledIn;
  }
}
