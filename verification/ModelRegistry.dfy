/** The cache of model runtimes, keyed by profile identity and key revision. */
module ModelRegistry {
  import opened CredentialStore
  import opened Wrappers

  datatype Profile = Profile(id: int, name: int, settings: Settings)

  /** The identity fields; the display name is not one of them. */
  datatype Settings = Settings(
    provider: int, baseUrl: int, modelName: int,
    embeddingUrl: Option<int>, embeddingModel: Option<int>, embeddingDimension: Option<int>)

  datatype Identity = Identity(settings: Settings, revision: int)

  datatype Runtime = Runtime(profile: Profile, credentials: ModelCredentials)

  datatype Failure = Stale | Unavailable | ProviderFailed(code: int)

  /** What the runtime service does with a profile and keys. */
  datatype Build = Made(profile: Profile) | RuntimeError(code: int) | OtherError

  datatype Cache = Cache(runtimes: map<int, Runtime>, identities: map<int, Identity>, expected: map<int, Identity>)

  predicate Refused(c: Cache, id: int, identity: Identity) {
    id in c.expected && c.expected[id] != identity
  }

  predicate Hits(c: Cache, id: int, identity: Identity) {
    id in c.runtimes && id in c.identities && c.identities[id] == identity
  }

  function Drop(c: Cache, id: int): Cache {
    c.(runtimes := c.runtimes - {id}, identities := c.identities - {id})
  }

  function Keep(c: Cache, id: int, runtime: Runtime, identity: Identity): Cache {
    c.(runtimes := c.runtimes[id := runtime], identities := c.identities[id := identity])
  }

  function Expect(c: Cache, id: int, expected: Option<Identity>): Cache {
    Drop(c.(expected := if expected.None? then c.expected - {id} else c.expected[id := expected.value]), id)
  }

  function Expectation(v: Vault, expected: Option<Profile>): Option<Identity> {
    match expected
    case None => None
    case Some(profile) => Some(Identity(profile.settings, Revision(v, profile.id)))
  }

  function Judge(profile: Profile, credentials: ModelCredentials, build: Build): Result<Runtime, Failure> {
    match build
    case Made(made) => if made == profile then Ok(Runtime(made, credentials)) else Err(Unavailable)
    case RuntimeError(code) => Err(ProviderFailed(code))
    case OtherError => Err(Unavailable)
  }

  /** A runtime filed under an identity has its settings, and the keys of its revision if that is still current. */
  predicate Coherent(v: Vault, id: int, runtime: Runtime, identity: Identity) {
    && runtime.profile.id == id && runtime.profile.settings == identity.settings
    && identity.revision <= Revision(v, id)
    && (identity.revision == Revision(v, id) ==> runtime.credentials == Keys(v, id))
  }

  predicate CoherentAt(v: Vault, c: Cache, id: int) {
    && (id in c.runtimes <==> id in c.identities)
    && (id in c.runtimes ==> Coherent(v, id, c.runtimes[id], c.identities[id]))
  }

  ghost predicate CoherentCache(v: Vault, c: Cache) {
    forall id :: CoherentAt(v, c, id)
  }

  lemma {:induction false} StillCoherent(v: Vault, w: Vault, c: Cache)
    requires CoherentCache(v, c)
    requires forall id :: Kept(v, w, id)
    ensures CoherentCache(w, c)
  {
    forall id ensures CoherentAt(w, c, id) {
      assert CoherentAt(v, c, id) && Kept(v, w, id);
    }
  }

  lemma {:induction false} RunStaysCoherent(v: Vault, changes: seq<Change>, c: Cache)
    requires CoherentCache(v, c)
    ensures CoherentCache(ApplyAll(v, changes), c)
  {
    forall id ensures Kept(v, ApplyAll(v, changes), id) {
      RunKeeps(v, changes, id);
    }
    StillCoherent(v, ApplyAll(v, changes), c);
  }

  lemma {:induction false} ChangeStaysCoherent(v: Vault, change: Change, c: Cache)
    requires CoherentCache(v, c)
    ensures CoherentCache(Apply(v, change), c)
  {
    forall id ensures Kept(v, Apply(v, change), id) {
      ApplyKeeps(v, change, id);
    }
    StillCoherent(v, Apply(v, change), c);
  }

  lemma {:induction false} DropCoherent(v: Vault, c: Cache, id: int)
    requires CoherentCache(v, c)
    ensures CoherentCache(v, Drop(c, id))
  {
    forall other ensures CoherentAt(v, Drop(c, id), other) {
      assert CoherentAt(v, c, other);
    }
  }

  lemma {:induction false} KeepCoherent(v: Vault, c: Cache, id: int, runtime: Runtime, identity: Identity)
    requires CoherentCache(v, c) && Coherent(v, id, runtime, identity)
    ensures CoherentCache(v, Keep(c, id, runtime, identity))
  {
    forall other ensures CoherentAt(v, Keep(c, id, runtime, identity), other) {
      assert CoherentAt(v, c, other);
    }
  }

  /** What get_or_create answers when the revision is read in v and, on a miss, the keys in w. */
  function Answer(c: Cache, v: Vault, w: Vault, profile: Profile, build: Build): Result<Runtime, Failure> {
    var identity := Identity(profile.settings, Revision(v, profile.id));
    if Refused(c, profile.id, identity) then Err(Stale)
    else if Hits(c, profile.id, identity) then Ok(c.runtimes[profile.id])
    else Judge(profile, Keys(w, profile.id), build)
  }

  function Afterwards(c: Cache, v: Vault, w: Vault, profile: Profile, build: Build): Cache {
    var identity := Identity(profile.settings, Revision(v, profile.id));
    if Refused(c, profile.id, identity) || Hits(c, profile.id, identity) then c
    else
      match Judge(profile, Keys(w, profile.id), build)
      case Ok(runtime) => Keep(Drop(c, profile.id), profile.id, runtime, identity)
      case Err(_) => Drop(c, profile.id)
  }

  lemma {:induction false} AfterwardsCoherent(c: Cache, v: Vault, before: seq<Change>, after: seq<Change>,
                                              profile: Profile, build: Build)
    requires CoherentCache(v, c)
    ensures var w := ApplyAll(v, before); CoherentCache(ApplyAll(w, after), Afterwards(c, v, w, profile, build))
  {
    var w := ApplyAll(v, before);
    var id, identity := profile.id, Identity(profile.settings, Revision(v, profile.id));
    RunStaysCoherent(v, before, c);
    if !Refused(c, id, identity) && !Hits(c, id, identity) {
      DropCoherent(w, c, id);
      RunKeeps(v, before, id);
      var judged := Judge(profile, Keys(w, id), build);
      if judged.Ok? {
        KeepCoherent(w, Drop(c, id), id, judged.value, identity);
      }
    }
    RunStaysCoherent(w, after, Afterwards(c, v, w, profile, build));
  }

  /**
   * A hit is what building now would give. A fresh runtime has the keys of the moment they were read,
   * and if the revision has not moved since it was taken these are the keys stored at the end.
   */
  lemma {:induction false} AnswerIsFresh(c: Cache, v: Vault, before: seq<Change>, after: seq<Change>,
                                         profile: Profile, build: Build)
    requires CoherentCache(v, c)
    requires var w := ApplyAll(v, before); Answer(c, v, w, profile, build).Ok?
    ensures
      var w := ApplyAll(v, before);
      var end := ApplyAll(w, after);
      var runtime := Answer(c, v, w, profile, build).value;
      && runtime.profile.id == profile.id && runtime.profile.settings == profile.settings
      && (Hits(c, profile.id, Identity(profile.settings, Revision(v, profile.id))) ==>
            runtime.credentials == Keys(v, profile.id))
      && (Revision(end, profile.id) == Revision(v, profile.id) ==> runtime.credentials == Keys(end, profile.id))
  {
    var w := ApplyAll(v, before);
    assert CoherentAt(v, c, profile.id);
    RunKeeps(v, before, profile.id);
    RunKeeps(w, after, profile.id);
  }

  // What a getter or an invalidation leaves behind, in terms of the cache before it

  /** The id's runtime is gone, and its expectation is the one given, or none. */
  predicate Announced(c: Cache, d: Cache, id: int, expected: Option<Identity>) {
    && d.runtimes == c.runtimes - {id} && d.identities == c.identities - {id}
    && d.expected == if expected.Some? then c.expected[id := expected.value] else c.expected - {id}
  }

  /** Nothing but the runtime of id has changed: it is the one built, or gone. */
  predicate Rebuilt(c: Cache, d: Cache, profile: Profile, identity: Identity, keys: ModelCredentials, build: Build,
                    r: Result<Runtime, Failure>) {
    var id := profile.id;
    && d.expected == c.expected
    && (build == Made(profile) ==>
          && r == Ok(Runtime(profile, keys))
          && d.runtimes == c.runtimes[id := r.value] && d.identities == c.identities[id := identity])
    && (build != Made(profile) ==>
          && r == Err(if build.RuntimeError? then ProviderFailed(build.code) else Unavailable)
          && d.runtimes == c.runtimes - {id} && d.identities == c.identities - {id})
  }

  /** A getter that found this revision, and on a miss these keys, has answered r and left d. */
  predicate Answers(c: Cache, d: Cache, profile: Profile, revision: int, keys: ModelCredentials, build: Build,
                    r: Result<Runtime, Failure>) {
    var id, identity := profile.id, Identity(profile.settings, revision);
    if id in c.expected && c.expected[id] != identity then r == Err(Stale) && d == c
    else if id in c.runtimes && id in c.identities && c.identities[id] == identity
    then r == Ok(c.runtimes[id]) && d == c
    else Rebuilt(c, d, profile, identity, keys, build, r)
  }

  lemma {:induction false} AnswersSo(c: Cache, v: Vault, w: Vault, profile: Profile, build: Build)
    ensures Answers(c, Afterwards(c, v, w, profile, build), profile, Revision(v, profile.id), Keys(w, profile.id),
                    build, Answer(c, v, w, profile, build))
  {
    var id, runtime := profile.id, Runtime(profile, Keys(w, profile.id));
    var identity := Identity(profile.settings, Revision(v, id));
    assert (c.runtimes - {id})[id := runtime] == c.runtimes[id := runtime];
    assert (c.identities - {id})[id := identity] == c.identities[id := identity];
  }

  class ModelRuntimeRegistry {
    const store: InMemoryCredentialStore
    var runtimes: map<int, Runtime>
    var runtimeIdentities: map<int, Identity>
    var expectedIdentities: map<int, Identity>

    constructor (store: InMemoryCredentialStore)
      ensures this.store == store && Contents() == Cache(map[], map[], map[])
    {
      this.store := store;
      runtimes, runtimeIdentities, expectedIdentities := map[], map[], map[];
    }

    function Contents(): Cache
      reads this
    {
      Cache(runtimes, runtimeIdentities, expectedIdentities)
    }

    ghost predicate Valid()
      reads this, store
    {
      CoherentCache(store.Contents(), Contents())
    }

    method RuntimeIdentity(profile: Profile) returns (r: Identity)
      ensures r == Identity(profile.settings, Revision(store.Contents(), profile.id))
    {
      var revision := store.ModelRevision(profile.id);
      r := Identity(profile.settings, revision);
    }

    /**
     * Runs under the registry's lock, which holds off other getters and invalidations but not changes
     * of the store: these may come between any two reads. build is what the runtime service will do.
     */
    method GetOrCreate(profile: Profile, build: Build)
        returns (r: Result<Runtime, Failure>, ghost before: seq<Change>, ghost after: seq<Change>)
      requires Valid()
      modifies this, store
      ensures Valid()
      ensures
        var v := old(store.Contents());
        var w := ApplyAll(v, before);
        && store.Contents() == ApplyAll(w, after)
        && Answers(old(Contents()), Contents(), profile, Revision(v, profile.id), Keys(w, profile.id), build, r)
        && r == Answer(old(Contents()), v, w, profile, build)
        && Contents() == Afterwards(old(Contents()), v, w, profile, build)
    {
      ghost var start, v := Contents(), store.Contents();
      var identity := RuntimeIdentity(profile);
      before := store.Interleave();
      ghost var w := ApplyAll(v, before);
      if profile.id in expectedIdentities && identity != expectedIdentities[profile.id] {
        r := Err(Stale);
      } else if profile.id in runtimes && profile.id in runtimeIdentities && runtimeIdentities[profile.id] == identity {
        r := Ok(runtimes[profile.id]);
      } else {
        r := Rebuild(profile, identity, build);
      }
      after := store.Interleave();
      AfterwardsCoherent(start, v, before, after, profile, build);
      AnswersSo(start, v, w, profile, build);
    }

    /** Drops the old runtime, if any, and builds with the keys stored now. */
    method Rebuild(profile: Profile, identity: Identity, build: Build) returns (r: Result<Runtime, Failure>)
      modifies this
      ensures r == Judge(profile, Keys(store.Contents(), profile.id), build)
      ensures
        var dropped := Drop(old(Contents()), profile.id);
        Contents() == if r.Ok? then Keep(dropped, profile.id, r.value, identity) else dropped
    {
      runtimes := runtimes - {profile.id};
      runtimeIdentities := runtimeIdentities - {profile.id};
      var found := store.GetModel(profile.id);
      var credentials := match found case Some(keys) => keys case None => NO_KEYS;
      r := BuildAndCache(profile, identity, credentials, build);
    }

    method BuildAndCache(profile: Profile, identity: Identity, credentials: ModelCredentials, build: Build)
        returns (r: Result<Runtime, Failure>)
      modifies this
      ensures r == Judge(profile, credentials, build)
      ensures Contents() == if r.Ok? then Keep(old(Contents()), profile.id, r.value, identity) else old(Contents())
    {
      match build {
        case RuntimeError(code) => r := Err(ProviderFailed(code));
        case OtherError => r := Err(Unavailable);
        case Made(made) =>
          if made != profile {
            r := Err(Unavailable);
          } else {
            var runtime := Runtime(made, credentials);
            runtimes := runtimes[profile.id := runtime];
            runtimeIdentities := runtimeIdentities[profile.id := identity];
            r := Ok(runtime);
          }
      }
    }

    method Invalidate(id: int, expected: Option<Profile>) returns (ghost during: seq<Change>)
      requires Valid()
      modifies this, store
      ensures Valid()
      ensures store.Contents() == ApplyAll(old(store.Contents()), during)
      ensures Announced(old(Contents()), Contents(), id,
                        if expected.None? then None
                        else Some(Identity(expected.value.settings,
                                           Revision(old(store.Contents()), expected.value.id))))
      ensures Contents() == Expect(old(Contents()), id, Expectation(old(store.Contents()), expected))
    {
      ghost var start, v := Contents(), store.Contents();
      match expected {
        case None =>
          during := store.Interleave();
          expectedIdentities := expectedIdentities - {id};
        case Some(profile) =>
          var identity := RuntimeIdentity(profile);
          during := store.Interleave();
          expectedIdentities := expectedIdentities[id := identity];
      }
      runtimes := runtimes - {id};
      runtimeIdentities := runtimeIdentities - {id};
      RunStaysCoherent(v, during, start);
      DropCoherent(store.Contents(), start, id);
      assert forall other :: CoherentAt(store.Contents(), Drop(start, id), other)
                             ==> CoherentAt(store.Contents(), Contents(), other);
    }

    method CloseAll()
      requires Valid()
      modifies this
      ensures Valid() && Contents() == Cache(map[], map[], map[])
    {
      runtimes, runtimeIdentities, expectedIdentities := map[], map[], map[];
    }
  }
}
