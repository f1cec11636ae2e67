# Build API: a model of its two stores, its handlers and its gate

The build API keeps organizations, members, users and API keys in PostgreSQL, and each organization's builders
and templates in a Kubernetes namespace named after the organization's id. The two stores share no transaction.
This project models every RPC as a program that makes one call at a time to one of the stores, and proves what
holds over all interleavings, all failing calls, lost replies and crashes.

`dafny verify dfyconfig.toml` verifies everything.

## How the model is built

* `Stores` holds the tables (unique slugs, emails and key hashes, foreign keys, memberships that go with their
  organization), the API server (objects with resource versions, versioned writes, merge patches, namespaces that
  take their objects with them), the clock and the identifiers ever issued. A statement that names a row gets what
  the database makes of the text of the identifier: its normal form, or nothing, and then it fails. The API server
  gets the text as it came. A call works (`NoFault`), fails without
  any effect (`FailStop`), or takes effect while its reply is lost (`LostReply`).
* `Programs` is every handler with the interceptor in front of it, cut at its calls: `Begin` and `Enter` give the
  first point, `Issue` the call made at a point, `Resume` the point an answer leads to. `RunAlone` runs one request
  to its end; `Runs` interleaves any number of them with crashes, time and the operator's status reports, and
  keeps a log of all calls.
* `OrganizationHandlers`, `BuilderHandlers`, `TemplateHandlers`, `AuthHandlers` and `Interceptors` are the service's
  own code, statement by statement, as methods on classes that hold a `Backend` (the pool and the cluster client).
  Each leaves the stores and returns the reply its program does; `Servers` puts them together. `AloneRuns` shows
  that a request handled alone is one of the interleaved runs.
* `Lifecycle` states facts about single calls. `Saga`, `Ownership`, `NameRuns`, `Linearizability`, `AccessRuns`, `KeyRuns`,
  `SessionRuns`, `UserRuns`, `KeyOnlyRuns`, `BuilderRuns` and `ObjectParts` prove invariants of whole runs from such
  facts; `Sequential`, `AccountRequests`, `ObjectRequests` and `Isolation` are about requests that follow one another.
  `Witnesses` has complete runs in which the exceptions named by the main results happen.
* `SlugTexts`, `OrganizationRequests`, `SignIns`, `KeyRequests`, `ObjectMeanings`, `AccessRules`, `ReadRights` and
  `Refusals` say what each request does from end to end in terms of its own fields, with the constants, names and
  error codes written out, and without the functions the programs are made of.
* `Text`, `Slugs`, `SetBuilder`, `UpdateStatements`, `JsonMerge`, `WakePatches`, `ApiKeys`, `Bearer`, `Scopes`,
  `Sessions`, `Builders` and `Templates` are the pure parts, each proved against an independent definition: a
  regular-expression semantics, a parser for the generated SQL, section 2 of RFC 7396, section 5 of RFC 4648.

Hashing, password hashing, which can fail, signatures, the reading of identifiers by the database (`uuid`, with any
number of spellings for one identifier), quantity parsing and printing and the text of a time are the functions of
an `Env`. What is assumed of them stands in the `requires` of the lemma that needs it.

## What turned out

* A deleted organization's namespace is left behind exactly when a request admitted to the organization created it
  while the deletion was under way, when a creation lost the reply of its own namespace call and then took its row
  back, or when the deletion named the organization by another spelling of its identifier: the database takes an
  upper-case UUID, or one without hyphens, for the same row, but the handler passes the text on as the namespace's
  name. All three happen in complete runs (`Witnesses.OrphansHappen`, `LostRepliesHappen`, `OtherSpellingOrphans`);
  the last takes one request and no fault, and `Sequential.DeleteClearsIffNormal` says exactly when. In the same way
  a builder created under another spelling gets a namespace that no organization is named after
  (`Witnesses.OtherSpellingStrays`).
* A stored organization row is owned exactly if the insertion of its owner took effect. A row without one, outside a
  creation in flight, comes exactly from a creation that crashed, lost a reply, or whose compensating delete failed,
  before the owner was in. Nobody can then see, change or delete the row, and its slug stays taken forever.
* The merge patch of a wake is empty if the object it read already carried the stamp of the current second. If the
  object is deleted and re-created, or stamped otherwise, before the patch arrives, the wake reports success but
  leaves no stamp. This is the only way a successful update or wake can be lost (`Linearizability.SkipsWake`).
* The scopes of an API key are validated trimmed and stored as sent, so an entry with blanks around it is accepted
  and grants nothing.
* An update stores an empty name exactly if it sends a name of blanks (`Sequential.UpdateEmptiesNameIff`); creation
  rejects one. Over whole runs a name is empty exactly if the last update to write it wrote the empty one.
* Creating a builder makes the namespace before it validates name and spec, so it is there after a rejected request
  as well (`ObjectRequests.OtherRequestsAreRejected`). Creating a template never makes it.
* A change of profile replies with the requested name, which another change may have replaced by then.

## Model

| member | source | states |
|---|---|---|
| `Slugs.SlugLanguage` | internal/organizations/service.go:21 | The language of the slug expression is exactly the strings whose hyphen-separated parts are non-empty lower-case alphanumeric segments, and the parts join back to the string |
| `SlugTexts.LowerCaseAlphabet` | internal/organizations/service.go:135 | Lower-casing takes each of the 26 capitals to the small letter at its place in the alphabet and leaves every other ASCII character alone |
| `SlugTexts.SlugTextMeaning` | internal/organizations/service.go:135-138 | A text makes a slug if and only if, trimmed, it splits at hyphens into non-empty parts of letters of either case and digits; the stored slug has its length and differs from it only in capitals made small |
| `Text.NormalSlugIdempotent` | internal/organizations/service.go:135-138 | Trimming and lower-casing a slug twice changes nothing more than once, and leaves no capital |
| `Text.TrimSpaceKeepsTheRest` | internal/organizations/service.go:129-147 | Trimming takes away white space on both sides and nothing else |
| `Sequential.CreateAllOrNothing` | internal/organizations/service.go:124-192 | Under fail-stop faults creation succeeds exactly when the request is well formed, id and slug are free, the user exists and no call fails, and then adds one normalised row, one owner and the namespace; otherwise it reports an error and restores organizations, memberships and namespaces exactly unless the needed compensating delete failed |
| `OrganizationRequests.CreationMeaning` | internal/organizations/service.go:124-192 | A fault-free creation by a stored user with a new id gets InvalidArgument exactly if the trimmed name is empty, the trimmed slug is no text of letters, digits and single hyphens, or the trimmed plan is none of starter, pro, enterprise and not empty; AlreadyExists exactly if a row has the slug; and otherwise adds exactly one row, with `starter` for no plan, one owner and one namespace |
| `Sequential.UpdateIsConfined` | internal/organizations/service.go:194-269 | Whatever calls fail or lose their reply, an update leaves the stores as they were or changes exactly the asked-for fields of that row, the latter only for owners and admins with legal fields and a free slug |
| `Sequential.UpdateMeaning` | internal/organizations/service.go:194-269 | Without faults an update succeeds exactly when permitted, and the reply is the row as it then is; otherwise nothing changes |
| `OrganizationRequests.UpdateInFull` | internal/organizations/service.go:194-269 | A fault-free update, with the exact condition of each error: NotFound for outsiders, PermissionDenied for plain members, InvalidArgument for a bad slug or plan, AlreadyExists for a slug of another row; otherwise exactly the filled-in fields of exactly this row change, and the reply shows it |
| `Sequential.UpdateEmptiesNameIff` | internal/organizations/service.go:239-243 | A permitted fault-free update of a named organization leaves an empty name if and only if it sends a non-empty name of blanks only |
| `Sequential.DeleteConverges` | internal/organizations/service.go:271-309 | After any sequence of deletion attempts by anyone with any faults, all naming the organization by the normal form of its id, one fault-free attempt by an owner leaves exactly the state without row, memberships, namespace and objects, and reports NotFound only if an earlier attempt already removed the row |
| `Sequential.DeleteClearsIffNormal` | internal/organizations/service.go:271-309 | A fault-free deletion by an owner, by whatever spelling of the id, deletes the row and the namespace of exactly the text it sent, so the organization's namespace goes if and only if the text is the id's normal form |
| `Sequential.DeletedStaysDeleted` | internal/organizations/service.go:280-292 | Once the row is gone every further attempt, by any spelling, changes nothing and says NotFound, or Internal if its check fails |
| `Sequential.TriesKeepPartlyDeleted` | internal/organizations/service.go:294-305 | Deletion attempts, by whatever spellings and with any faults, leave some of the namespaces named by their texts deleted, the row deleted only together with at least one of these, and nothing else touched |
| `Sequential.GetMeaning` | internal/organizations/service.go:82-122 | Reading changes nothing; a member is shown the row and the number of members, anyone else is told there is no such organization |
| `Sequential.ListingIsExact` | internal/organizations/service.go:36-80 | The listing shows exactly the organizations the caller is a member of, each with the number of its members |
| `Sequential.MembersMeaning` | internal/organizations/service.go:312-367 | A member is shown exactly the members that have a user row, with id, email, name and role; anyone else is refused |
| `Sequential.NoIdentifierFails` | internal/organizations/service.go:205-214 | A request that names its organization by text that is no identifier fails with Internal and changes nothing, whatever the user and the faults |
| `Saga.RunKeepsInv` | internal/organizations/service.go:147-171 | Over every interleaved run with faults and crashes the schema holds, deleted rows never return, every namespace has the creation it stands by, and every request in the saga has done what its point requires |
| `Saga.OrphanIffOverlap` | internal/organizations/service.go:294-305 | In every run, the namespace of a deleted organization is there if and only if the request that made the standing namespace, from being admitted to making it, overlapped the request that deleted the row, from clearing the namespace or making the row to deleting it, the two requests being different or the creation's reply lost; or the request that deleted the row cleared the name of another spelling while the namespace stands |
| `Saga.SeparateRequestsLeaveNoOrphan` | internal/server/handlers.go:107-113 | Fail-stop runs whose requests do not overlap, and whose deletions name organizations by the normal form of their ids, never leave such a namespace |
| `Saga.Tombstones` | internal/organizations/service.go:299-305 | After a row is deleted no state holds the row or a membership of it, nobody is admitted to it, and every organization, builder or template request that checks it ends there with the error that names its kind and changes nothing |
| `Saga.SpacesAreNamedAfterRows` | internal/k8s/namespaces.go:13-28 | Every namespace the service ever makes is named by a spelling of an id that had an organization row earlier in the run, and by that id itself if and only if the spelling is the normal form |
| `Races.RaceLeavesOrphan` | internal/server/handlers.go:107-113 | From every reachable state in which a builder creation stands before its namespace call and a deletion before its own, three calls leave an orphaned namespace |
| `Races.LostReplyLeavesOrphan` | internal/organizations/service.go:167-171 | From every reachable state before a creation's namespace call, losing that reply leaves an orphaned namespace |
| `Witnesses.OrphansHappen` | internal/server/handlers.go:107-113 | A complete fault-free run of two requests that both report success and leave an orphaned namespace |
| `Witnesses.LostRepliesHappen` | internal/organizations/service.go:167-171 | A complete run of one creation that loses the reply of its namespace call, takes its row back and leaves an orphaned namespace |
| `Witnesses.OtherSpellingOrphans` | internal/organizations/service.go:280-305 | A complete fault-free run of one deletion, by another spelling of the id, that reports success and leaves an orphaned namespace |
| `Witnesses.OtherSpellingStrays` | internal/server/handlers.go:107-113 | A complete fault-free run of one builder creation, by another spelling of the id, that reports success in a namespace named after no row |
| `Witnesses.StrandedRowsHappen` | internal/organizations/service.go:149-157 | A complete run of one creation whose insert loses its reply and strands a row |
| `Witnesses.SkippedWakesHappen` | internal/server/handlers.go:194-206 | A complete fault-free run in which a wake succeeds and its stamp is missing |
| `Ownership.RowsStayValid` | internal/organizations/service.go:226-256 | From valid rows, every row in every reachable state has a slug of the grammar shared with no other row and a legal plan |
| `Ownership.EveryRowAccounted` | internal/organizations/service.go:147-171 | From owned organizations, every row in every reachable state is owned, belongs to a creation in flight, or was stranded by a creation that crashed, lost its reply or failed to undo itself |
| `Ownership.OwnedIffOwnerInserted` | internal/organizations/service.go:159-171 | From owned organizations, in every run a stored row is owned if and only if it was there at the start or the insertion of its owner by its own creation took effect |
| `Ownership.OwnerlessIffStranded` | internal/organizations/service.go:147-171 | From owned organizations, in every run a stored row is without owner and without creation in flight if and only if its creation lost the reply of the row's insertion, crashed or failed to undo itself, and its owner's insertion never took effect; it then has no member and no request about to touch it |
| `Ownership.OwnerlessIsStranded` | internal/organizations/service.go:159-171 | A row without owner and without creation in flight comes from a creation that broke off, has no member and no request about to touch it |
| `Ownership.StrandedForever` | internal/organizations/service.go:203-213 | Such a row never changes and never gains a member; it is in nobody's listing, every request for it is turned away, and its slug stays taken |
| `NameRuns.EmptyNameIffWritten` | internal/organizations/service.go:239-243 | From named organizations, in every run a stored name is empty if and only if the last update that wrote a name to the row wrote the empty one |
| `NameRuns.NamesStayNonEmpty` | internal/organizations/service.go:129-147 | From named organizations, in every run in which no update sends a name of blanks every stored name stays non-empty |
| `Linearizability.RunsAreLinearizable` | internal/server/handlers.go:136-212 | In every run with faults and crashes the object contents are at all times those of a run in which each committed request acts atomically at its last call, every success and every NotFound is the atomic reply, and a request told of an error did nothing unless its reply was lost |
| `Linearizability.CommitsOnce` | internal/server/handlers.go:136-161 | A request commits at most once, by the last call it ever makes |
| `Linearizability.WriteBackIsAtomic` | internal/server/handlers.go:146-160 | The versioned write of an update either replaces exactly the spec of the current object or does nothing; no object appears or disappears and all annotations and statuses stay |
| `Linearizability.PatchBackIsAtomic` | internal/server/handlers.go:193-211 | The patch of a wake sets exactly the stamp on the current object, and misses it if and only if the snapshot had the stamp and the object no longer does |
| `Linearizability.CreateOrDeleteIsAtomic` | internal/server/handlers.go:123-182 | A creation adds exactly the new object if its name is free and its namespace there, a deletion removes exactly the named object and is no error when there is none |
| `Linearizability.WakeCanBeSkipped` | internal/server/handlers.go:194-206 | From every state with a wake, a deletion and a creation of one freshly stamped builder past their checks, four calls make the wake succeed without a stamp |
| `WakePatches.WakePatchIsMergePatch` | internal/server/handlers.go:200-206 | The patch computed from the snapshot's JSON, applied by RFC 7396 to any later version, changes the last-used annotation and nothing else, also when there were no annotations |
| `WakePatches.WakeSetsStampIff` | internal/server/handlers.go:200-206 | It leaves the later version with the stamp and otherwise unchanged if and only if the snapshot lacked the stamp or the later version has it |
| `JsonMerge.ApplyDiff` | internal/server/handlers.go:206 | Applying the difference of two objects to the first gives the second, for null-free results |
| `JsonMerge.DiffIsEmptyIffEqual` | internal/server/handlers.go:206 | The difference is empty exactly when the objects are equal |
| `ObjectRequests.MembersRequestIsExact` | internal/server/handlers.go:66-212 | Any valid builder or template request of a member, run alone and without faults, leaves exactly the contents and gives exactly the reply of the atomic specification, and changes nothing else but for making a new builder's namespace |
| `ObjectRequests.OtherRequestsAreRejected` | internal/server/handlers.go:106-121 | All other requests, run alone and without faults: text that is no id gets Internal and someone who is not a member PermissionDenied, without any effect; a member's request with invalid fields gets InvalidArgument, and the only effect is the namespace of a builder that was to be created |
| `ObjectMeanings.UpdateKeepsTheRest` | internal/server/handlers.go:136-161 | A fault-free update of a member replaces the spec of exactly the named object, field by field as sent; its annotations and status stay, every other object stays, and the reply shows the new object; without the object it says NotFound and changes nothing |
| `ObjectMeanings.CreateAddsOne` | internal/server/handlers.go:106-133 | A fault-free creation adds exactly the named object with the fields as sent, no annotations and an empty status, exactly if the name is free and, for a template, the namespace is there |
| `ObjectMeanings.WakeOnlyStamps` | internal/server/handlers.go:185-212 | A fault-free wake sets exactly the annotation `builder.builder-hub.dev/last-used` of exactly the named builder to the current second |
| `ObjectMeanings.DeleteTakesOne` | internal/server/handlers.go:164-182 | A fault-free deletion removes exactly the named object |
| `ObjectMeanings.GetShowsOne` | internal/server/handlers.go:87-103 | A fault-free read shows the named object field by field, with 1 replica, 300 seconds and an empty reference for what is unset, or says NotFound |
| `ObjectMeanings.ListShowsAll` | internal/server/handlers.go:66-84 | A fault-free listing shows exactly the objects of the kind in the namespace |
| `ObjectMeanings.MissingFieldsAreRejected` | internal/server/handlers.go:114-122 | A member's request without name, without spec or, for a new builder, without template reference gets InvalidArgument and at most makes the namespace |
| `ObjectParts.EachPartHasItsWriter` | internal/server/handlers.go:136-212 | In every run with faults and crashes, each call keeps to its part of an object: annotations change only by a wake's stamp, the spec only to the one an update sent, the status only by the operator, and objects appear only by a creation and disappear only by a deletion or with their namespace |
| `Isolation.Noninterference` | internal/server/handlers.go:41-212 | For every namespace name: taking all builder and template requests by users who are not members of the organization it spells out of any sequential run leaves all tables, the contents of the namespace and every reply the members can observe as they were |
| `Isolation.ForeignIsInvisible` | internal/templates/service.go:159-181 | A builder or template request of a non-member, on whichever namespace, changes nothing an organization can see |
| `Isolation.KeptItem` | internal/templates/service.go:33-157 | Every other request keeps states that look alike to the organization alike, and its observable reply is the same in both |
| `AccessRuns.EveryCallIsLetIn` | internal/server/handlers.go:41-63 | Over every run each call on objects, member lists or an existing organization was preceded in its own request by a check its user passed, as member, as owner or admin for updates, as owner for deletions |
| `AccessRules.KeyOpens` | internal/auth/scopes.go:26-64 | A stored, unexpired key is let through to an operation if and only if its list has the name of what the operation works on with `:read` if it only reads and `:write` otherwise; it never opens the five operations on its own account, and a key that is unknown or expired opens nothing |
| `AccessRules.KeyUseIsNoted` | internal/auth/apikeys.go:37-56 | A fault-free look-up notes the time in the row it found, even if the operation is then refused, and changes nothing else |
| `AccessRules.CreatedKeyOpens` | internal/auth/handler.go:177-252 | A key just created opens exactly the operations whose scopes its request listed, for exactly the days it asked for |
| `AccessRules.SessionOpens` | internal/auth/middleware.go:99-107 | A token of session shape opens every operation, exactly while it is an access token whose signature checks and that has not expired |
| `AccessRules.OthersAreTurnedAway` | internal/auth/middleware.go:108-151 | Without a credential, or with one of neither shape, only the four operations open to all go through, and no call is made |
| `AccessRules.PublicGoesThrough` | internal/auth/middleware.go:20-25 | The four operations open to all go through as nobody, whatever the header says |
| `AccessRules.JWTShape` | internal/auth/middleware.go:27-30 | A token has session shape if and only if it is three non-empty texts without dots, with dots between them |
| `ReadRights.OnlyReadsChangesNothing` | internal/auth/scopes.go:35-55 | An operation that needs a read scope changes nothing, in whatever state and with whatever faults |
| `ReadRights.WritesCanChange` | internal/auth/scopes.go:35-55 | Every method that needs a write scope can change the stores |
| `Refusals.NobodyIsRefused` | internal/organizations/service.go:125-128 | Every handler but the four open to all answers nobody with Unauthenticated and changes nothing |
| `Refusals.BlankIsRejected` | internal/organizations/service.go:87-89 | A request without its id, its namespace or its profile name gets InvalidArgument and changes nothing |
| `Refusals.FailuresAreReported` | internal/auth/apikeys.go:41-55 | In every run a call that fails or loses its reply ends its request with Internal, but for the compensation of a creation, the look-up of a key, which is then not accepted, and the note of its use, which does not matter |
| `KeyRuns.IssuedKeyFindsItsRow` | internal/auth/handler.go:204-231 | An accepted creation stores creator, trimmed name, scopes and the end the days ask for under the hash of a 46-character token with a 12-character prefix, and presenting the token on any method that is not public leads to a look-up under that hash |
| `KeyRequests.KeyCreationIsExact` | internal/auth/handler.go:177-252 | A fault-free creation gets InvalidArgument exactly for a blank name, scopes that are not distinct ones of the six, or days outside -1, 0 and 1 to 3650; otherwise exactly one row is stored and shown, with the trimmed name, the first twelve characters of the token, the scopes as sent, the time of creation, and no end for -1, 365 days for 0 and that many days for any other number |
| `KeyRuns.KeyWorksWhileItLasts` | internal/auth/apikeys.go:37-56 | In every run a look-up of an issued key succeeds exactly if the key was not revoked since and has not expired, and then stands for its creator with the stored scopes |
| `KeyRuns.RejectedStaysRejected` | internal/auth/apikeys.go:37-56 | An issued key that was turned down once is turned down at every later look-up |
| `KeyRuns.OnlyIssuedKeysWork` | internal/auth/apikeys.go:14-19 | Without hash collisions a look-up succeeds only for a token that a creation stored before it |
| `KeyRuns.OnlyItsUserRevokes` | internal/auth/handler.go:301-319 | A key disappears only by a revocation of its own user that names its id, by whatever spelling |
| `KeyRuns.StoredKeysAreLeftAlone` | internal/auth/apikeys.go:54 | In every run each call leaves a stored key as it is, but for noting the time right after a look-up of that very key |
| `AccountRequests.KeyListingIsExact` | internal/auth/handler.go:254-299 | The caller is shown exactly the keys stored for them |
| `AccountRequests.RevocationIsExact` | internal/auth/handler.go:301-319 | A revocation removes exactly the caller's key the trimmed text names, says NotFound exactly if there is none, and Internal, without effect, exactly if the text is no id |
| `AccountRequests.ProfileChangeIsExact` | internal/auth/handler.go:126-157 | A change of profile renames exactly the caller and shows the new row; all other users and all keys stay |
| `KeyOnlyRuns.KeysLeaveAccountsAlone` | internal/auth/scopes.go:26-32 | Any run of requests that authenticate by API keys leaves users and keys unchanged apart from the time of last use |
| `KeyOnlyRuns.WithheldScopesProtect` | internal/auth/scopes.go:35-55 | In such a run, what no presented key has the write scope for stays as it was: without the organizations' scope the tables, without it and the builders' scope all builders and namespaces, without it and the templates' scope all templates, and with read scopes only every table and the whole cluster |
| `SessionRuns.SessionBound` | internal/auth/handler.go:159-175 | If no token is forged, an access token that is accepted descends from an earlier login or registration, stands for the user of that very login, and is accepted only before 604800 + 3600 seconds after it, however often it was refreshed and its user logged in again |
| `SessionRuns.TokensEndWithTheirLogin` | internal/auth/jwt.go:33-90 | In every run, every access token of a login, its own or refreshed from it at whatever time, stands for its user and is not accepted 604800 + 3600 seconds after that login or later |
| `SessionRuns.SessionsAreEarned` | internal/auth/handler.go:31-102 | In every run a session is opened only for a user newly stored under an unused address or for the right password of a stored user |
| `SignIns.RegistrationIsExact` | internal/auth/handler.go:31-70 | A fault-free registration stores exactly one user under the trimmed address with the hash of the password and the trimmed name and opens a session for it, with the exact conditions of InvalidArgument, Internal and AlreadyExists |
| `SignIns.LoginIsExact` | internal/auth/handler.go:72-102 | A fault-free login changes nothing and opens a session for the user stored under exactly the address sent if and only if the password passes for their hash |
| `SignIns.RegisteredCanLogIn` | internal/auth/handler.go:31-102 | Whoever registered can log in with the trimmed address and the password at any later time |
| `SignIns.RefreshIsExact` | internal/auth/handler.go:159-175 | A refresh yields an access token for an hour for the same user if and only if the token is an unexpired refresh token |
| `SignIns.SessionsRefreshForAWeek` | internal/auth/handler.go:72-175 | A login's refresh token yields access tokens for its user exactly until seven days are over |
| `SignIns.ProfileIsOwn` | internal/auth/handler.go:104-124 | The caller is shown exactly their own row, or NotFound without one, and nothing changes |
| `UserRuns.UsersAreKept` | internal/auth/handler.go:42-54 | In every run a stored user keeps address, id and password hash, a name changes only by its own user's request, and a user is added only by a registration under that address |
| `UserRuns.RegisteredCanAlwaysLogIn` | internal/auth/handler.go:72-102 | In every run, whatever happens in between, a login after a registration opens a session for the same user if and only if the password passes for the hash stored then |
| `Sessions.KindsAreSeparate` | internal/auth/jwt.go:70-90 | An access token never refreshes and a refresh token never authenticates |
| `Sessions.RefreshedExpiry` | internal/auth/jwt.go:33-68 | A refreshed access token keeps the user and outlives its refresh token by at most an hour |
| `Sessions.TokensWorkUntilExpiry` | internal/auth/jwt.go:33-90 | An access token identifies its user for exactly an hour and a refresh token yields fresh access tokens for exactly seven days, counted from the full second |
| `ApiKeys.DecodeEncode` | internal/auth/apikeys.go:27 | Decoding the URL-safe unpadded base64 of RFC 4648 section 5 gives back every byte sequence |
| `ApiKeys.SymbolsOfTheAlphabet` | internal/auth/apikeys.go:27 | The 64 symbols are those of the URL-safe alphabet of RFC 4648, in its order |
| `ApiKeys.GroupIsBigEndian` | internal/auth/apikeys.go:27 | Three bytes are encoded as the four base-64 digits of their 24-bit number, and a tail as with zero bytes behind it but without their symbols |
| `ApiKeys.TokenInjective` | internal/auth/apikeys.go:22-34 | Different secrets give different tokens |
| `ApiKeys.TokenShape` | internal/auth/apikeys.go:22-34 | A token of 32 bytes has 46 characters, none of them a dot or a blank, and a 12-character prefix |
| `ApiKeys.GenerateUserAPIKey` | internal/auth/apikeys.go:22-34 | The generator returns the token of its buffer and its first 12 characters |
| `Bearer.ExtractBearerToken` | internal/auth/middleware.go:129-151 | The first header value that carries a non-empty credential decides |
| `Bearer.ExtractSkips` | internal/auth/middleware.go:138-149 | Values in front that carry no credential do not matter |
| `Bearer.IssuedKeyIsRecognised` | internal/auth/middleware.go:27-30 | An issued key passes the header unchanged and never looks like a JWT |
| `Scopes.ValidateScopes` | internal/auth/handler.go:190-203 | The loop reports the first blank, unknown or repeated entry |
| `Scopes.CheckScopesMeaning` | internal/auth/handler.go:190-203 | It reports nothing exactly when the trimmed entries are distinct valid scopes |
| `Scopes.AcceptableMeaning` | internal/auth/handler.go:186-203 | Accepted lists are the non-empty lists of distinct valid scopes once trimmed, and have one to six entries |
| `Scopes.GrantedIsAskedIffTrimmed` | internal/auth/handler.go:226-231 | The stored list grants what was asked for exactly when every entry came trimmed, and never more |
| `Scopes.PaddedGrantsNothing` | internal/auth/handler.go:226-231 | The scope meant by a padded entry is not in the stored list |
| `Scopes.KeyRightsAreGrantedScopes` | internal/auth/middleware.go:32-52 | A key may call a method exactly when the method needs one of the granted scopes; `AccessRules.KeyOpens` says which that is |
| `Scopes.TablesPartitionMethods` | internal/auth/scopes.go:26-55 | Every method is public, bound to sessions, or scoped, and never two of these |
| `Scopes.HasScope` | internal/auth/scopes.go:57-64 | The search finds a scope exactly when it occurs verbatim |
| `SetBuilder.ParseStatement` | internal/organizations/service.go:236-256 | The generated text for any list of optional columns parses back to its assignments, and is not a statement exactly when no column is present |
| `SetBuilder.AssignIsDirect` | internal/organizations/service.go:236-254 | Every placeholder points at its own argument behind the id |
| `SetBuilder.StatementMeaning` | internal/organizations/service.go:236-256 | Executing the text with its arguments replaces exactly the present columns of exactly the row with the id |
| `SetBuilder.DirectColumn` | internal/organizations/service.go:239-253 | A present column gets its value and an absent one keeps its own |
| `UpdateStatements.ThreeFieldStatement` | internal/organizations/service.go:236-256 | The instance for name, slug and plan, on the rows of the table |
| `UpdateStatements.StatementReadsBack` | internal/organizations/service.go:255-256 | The database reads the generated statement as the update of that organization by that change |
| `UpdateStatements.BuildUpdate` | internal/organizations/service.go:236-255 | The three conditional steps produce the statement and the shifted arguments of the wanted change |
| `Builders.ReadWrite` | internal/server/handlers.go:219-270 | Reading a written spec gives its defaulted form, with 1 replica and 300 seconds, defaulting is idempotent, and whatever is written has replicas and timeout unset or positive |
| `Builders.ReadUpdateIsNoOpIffSettled` | internal/server/handlers.go:219-270 | Writing back what was read is invisible exactly if replicas and timeout are each unset or positive |
| `Builders.ReadUpdateKeepsStoredForm` | internal/server/handlers.go:219-270 | It keeps the stored resource itself exactly if nothing was left to a default |
| `BuilderRuns.StoredBuildersAreSettled` | internal/server/handlers.go:253-270 | Every builder in every state reachable through the service has them unset or positive, if those at the start have |
| `BuilderRuns.ReadThenUpdateIsInvisible` | internal/server/handlers.go:136-161 | So in every reachable state an update with the spec just read gets the same builder back |
| `Templates.WriteRead` | internal/templates/service.go:196-258 | Writing back what was read stores the same resource, if printed quantities parse to themselves |
| `Templates.NormalIsFixpoint` | internal/templates/service.go:196-258 | What a reader sees after a write is not changed by a second write and read |
| `Templates.NormalKeepsWhatParses` | internal/templates/service.go:262-304 | Exactly the entries that parse survive, re-printed, and a block without any becomes absent |
| `Templates.ParseEntries` | internal/templates/service.go:287-301 | In whatever order the map is visited, the result has exactly the entries that parse |
| `Templates.PrintEntries` | internal/templates/service.go:267-278 | In whatever order the map is visited, the result has every entry printed |
| `Templates.ResourceRequirementsToProto` | internal/templates/service.go:262-280 | The conversion equals its specification, absent for an empty block |
| `Templates.ProtoToResourceRequirements` | internal/templates/service.go:282-304 | The conversion equals its specification |
| `Templates.TemplateSpecToProto` | internal/templates/service.go:196-225 | The conversion equals the reading half of the laws above |
| `Templates.ProtoSpecToTemplateSpec` | internal/templates/service.go:227-258 | The conversion equals the writing half of the laws above |
| `Backends.Backend.EnsureOrgNamespace` | internal/k8s/namespaces.go:13-28 | Success leaves exactly the namespace added, whether or not it was there |
| `Backends.Backend.DeleteOrgNamespace` | internal/k8s/namespaces.go:32-41 | Success leaves no namespace of that name and, if it was there, no object in it; tables and accounts stay |
| `Backends.Backend.ExecStatement` | internal/organizations/service.go:256 | A statement acts as the call the database reads in it; one it cannot read fails without effect |
| `OrganizationHandlers.OrganizationService.CreateOrganization` | internal/organizations/service.go:124-192 | The handler ends with the stores and the reply of the creation program, under every outcome of every call, so `CreationMeaning` and `CreateAllOrNothing` hold of it |
| `OrganizationHandlers.OrganizationService.GetOrganization` | internal/organizations/service.go:82-122 | The handler ends as its program does, so `GetMeaning` holds of it |
| `OrganizationHandlers.OrganizationService.UpdateOrganization` | internal/organizations/service.go:194-269 | The handler, sending the generated statement, ends as the update program does, so `UpdateInFull` and `UpdateIsConfined` hold of it |
| `OrganizationHandlers.OrganizationService.DeleteOrganization` | internal/organizations/service.go:271-309 | The handler, namespace first and row second, ends as the deletion program does, so `DeleteConverges` holds of it |
| `OrganizationHandlers.OrganizationService.ListOrganizations` | internal/organizations/service.go:36-80 | The handler ends as its program does, so `ListingIsExact` holds of it |
| `OrganizationHandlers.OrganizationService.ListOrganizationMembers` | internal/organizations/service.go:312-367 | The handler ends as its program does, so `MembersMeaning` holds of it |
| `BuilderHandlers.EnsureOrgMember` | internal/server/handlers.go:41-63 | The check either ends the request with its error or lets the request's program go on behind the check |
| `BuilderHandlers.ViewsOf` | internal/server/handlers.go:79-83 | The conversion loop yields one view for every listed object and nothing else |
| `BuilderHandlers.BuilderService.ListBuilders` | internal/server/handlers.go:66-84 | The handler, converting the list in its loop, ends as its program does, so `MembersRequestIsExact` holds of it |
| `BuilderHandlers.BuilderService.GetBuilder` | internal/server/handlers.go:87-103 | The handler ends as its program does, so `MembersRequestIsExact` holds of it |
| `BuilderHandlers.BuilderService.CreateBuilder` | internal/server/handlers.go:106-133 | The handler, making the namespace before it validates, ends as the creation program does, under every outcome of every call, so `CreateAddsOne` holds of it |
| `BuilderHandlers.BuilderService.UpdateBuilder` | internal/server/handlers.go:136-161 | The handler, overwriting the spec of what it read and writing it back, ends as the update program does, under every outcome of every call, so `UpdateKeepsTheRest` holds of it |
| `BuilderHandlers.BuilderService.DeleteBuilder` | internal/server/handlers.go:164-182 | The handler, for which a missing builder is no error, ends as the deletion program does, so `DeleteTakesOne` holds of it |
| `BuilderHandlers.BuilderService.WakeBuilder` | internal/server/handlers.go:185-212 | The handler, sending the difference of original and stamped copy, ends as the wake program does, under every outcome of every call, so `WakeOnlyStamps` holds of it |
| `TemplateHandlers.TemplateService.ListTemplates` | internal/templates/service.go:33-49 | The handler, converting the list in its loop, ends as its program does, so `MembersRequestIsExact` holds of it |
| `TemplateHandlers.TemplateService.GetTemplate` | internal/templates/service.go:52-70 | The handler ends as its program does, so `MembersRequestIsExact` holds of it |
| `TemplateHandlers.TemplateService.CreateTemplate` | internal/templates/service.go:73-99 | The handler, converting by the loops and without making a namespace, ends as the creation program does, so `CreateAddsOne` holds of it |
| `TemplateHandlers.TemplateService.UpdateTemplate` | internal/templates/service.go:102-131 | The handler, converting by the loops and writing back what it read, ends as the update program does, so `UpdateKeepsTheRest` holds of it |
| `TemplateHandlers.TemplateService.DeleteTemplate` | internal/templates/service.go:134-157 | The handler, for which a missing template is no error, ends as the deletion program does, so `DeleteTakesOne` holds of it |
| `AuthHandlers.AuthService.Register` | internal/auth/handler.go:31-70 | The handler ends as the registration program does, so `RegistrationIsExact` holds of it |
| `AuthHandlers.AuthService.Login` | internal/auth/handler.go:72-102 | The handler ends as the login program does, so `LoginIsExact` holds of it |
| `AuthHandlers.AuthService.GetMe` | internal/auth/handler.go:104-124 | The handler ends as its program does, so `ProfileIsOwn` holds of it |
| `AuthHandlers.AuthService.UpdateProfile` | internal/auth/handler.go:126-157 | The handler ends as its program does, so `ProfileChangeIsExact` holds of it |
| `AuthHandlers.AuthService.RefreshToken` | internal/auth/handler.go:159-175 | The handler, which makes no call, ends as the refresh program does, so `RefreshIsExact` holds of it |
| `AuthHandlers.AuthService.CreateUserApiKey` | internal/auth/handler.go:177-252 | The handler, through the scope loop, the expiry cases and the generator, ends as the creation program does, so `KeyCreationIsExact` holds of it |
| `AuthHandlers.AuthService.ListUserApiKeys` | internal/auth/handler.go:254-299 | The handler ends as its program does, so `KeyListingIsExact` holds of it |
| `AuthHandlers.AuthService.RevokeUserApiKey` | internal/auth/handler.go:301-319 | The handler ends as its program does, so `RevocationIsExact` holds of it |
| `Interceptors.EnforceAccess` | internal/auth/middleware.go:32-52 | The cascade of tables allows exactly what the access rule allows, so `KeyOpens` and `SessionOpens` hold behind it |
| `Interceptors.Gatekeeper.LookupAPIKey` | internal/auth/apikeys.go:37-56 | The look-up finds the caller of an unexpired stored key and notes its use, whatever becomes of the note |
| `Interceptors.Gatekeeper.Authenticate` | internal/auth/middleware.go:99-118 | Tokens of JWT shape are validated as access tokens, marked tokens are looked up, all others are refused without a call |
| `Interceptors.Gatekeeper.UnaryServerInterceptor` | internal/auth/middleware.go:55-74 | It takes the decision of the specification `Decide`, with its effects |
| `Interceptors.Gatekeeper.StreamServerInterceptor` | internal/auth/middleware.go:77-97 | It takes the same decision with the same effects |
| `Interceptors.DecisionIsGate` | internal/auth/middleware.go:55-97 | A request runs as decided: turned away with that error, or as its handler's program for the identified user |
| `Servers.Server.Serve` | internal/auth/middleware.go:55-74 | Interceptor and handler together leave the stores and give the reply of the request's program |

## Left out

- KeyRuns.KeyWorksWhileItLasts: assumes that no other key with the same hash is stored in between; the hash is abstract.
- SessionRuns.SessionBound: assumes that a presented token whose signature checks was handed out before; signatures are abstract.
- Linearizability.RunsAreLinearizable: a wake counts as acting only outside the exception of an empty patch; `PatchBackIsAtomic` and `WakeSetsStampIff` say exactly when that is.
- Templates.NormalIsFixpoint: assumes that a printed quantity parses to itself.
- Text.NormalSlugIdempotent: lower-casing is modelled on the characters whose lower case is ASCII; other characters never occur in an accepted slug.
- OrganizationHandlers.OrganizationService.ListOrganizations: rows are a map, so the order of rows, `created_at` and the builder counts, which are 0 on error, are not modelled.
- Sequential.ListingIsExact: the same.
- Sequential.GetMeaning: `created_at` is not modelled, nor is the builder count, which a call of its own reads and which is 0 if that fails.
- OrganizationHandlers.OrganizationService.GetOrganization: the same.
- Sequential.MembersMeaning: members are a set, so their order and the time they joined are not modelled.
- OrganizationHandlers.OrganizationService.ListOrganizationMembers: the same.
- AccountRequests.KeyListingIsExact: keys are a map, so their order by creation time is not modelled.
- AuthHandlers.AuthService.ListUserApiKeys: the same.
- AuthHandlers.AuthService.GetMe: the `created_at` of the profile is not modelled, nor is that of the session's user in other replies.
- BuilderHandlers.ViewsOf: the list is a map from keys to views, so the order of items is not modelled.
- BuilderHandlers.BuilderService.ListBuilders: the same.
- TemplateHandlers.TemplateService.ListTemplates: the same.
- Servers.Server.Serve: the random bytes of a new key come with the request, and there are 32 of them.
- Which texts the database takes for which identifier is the function `uuid` of the `Env`, not the grammar of PostgreSQL. Names the API server refuses, such as upper-case ones, are calls that fail. User ids come from tokens and keys and are taken to be in normal form.
- Namespace deletion is synchronous; an API server keeps a namespace terminating for a while.
- Time has one clock in nanoseconds; the rounding of stored timestamps, calendar arithmetic and time formatting are not modelled, and a day has 86400 seconds.
- The custom-resource fields that the protocol does not show, such as tolerations and secret references, and what the operator does besides reporting a status.
- The separate reads of `created_at` whose errors the handlers ignore.
- Server start-up, listeners, CORS, cookies, logging, generated stubs, the unimplemented service in internal/buildapi, migrations tooling and deployment files: plumbing without a property of its own.
- bcrypt, SHA-256, HMAC and quantity parsing themselves.
