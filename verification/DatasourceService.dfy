/** Datasource profile changes, and the getter that runs beside them. Each
    change is decided first, and then written: profile, password, cache. */
module DatasourceService {
  import opened CredentialStore
  import opened DatasourceRegistry
  import opened Wrappers

  datatype ServiceError = NotFound | AlreadyExists | MissingPassword | Invalid | StoreFailed

  /** What a change writes. A delete writes no profile; creates marks the first write of an id. */
  datatype Plan = Plan(id: int, profile: Option<Profile>, password: Option<int>, creates: bool, invalidates: bool)

  function DecideCreate(profile: Profile, password: Option<int>): Result<Plan, ServiceError> {
    if password.None? then Err(MissingPassword) else Ok(Plan(profile.id, Some(profile), password, true, false))
  }

  /** Invalidates exactly when the configuration or the password was given anew. */
  function DecideReplace(current: Profile, profile: Profile, existing: Option<int>, password: Argument)
      : Result<Plan, ServiceError> {
    var changed := current.config != profile.config;
    if password == Given(None) then
      if changed then Err(MissingPassword) else Ok(Plan(profile.id, Some(profile), None, false, true))
    else
      var next := if password.Given? then password.key else existing;
      var validates := changed || password.Given?;
      if validates && next.None? then Err(MissingPassword)
      else Ok(Plan(profile.id, Some(profile), next, false, validates))
  }

  function DecideDelete(id: int): Plan {
    Plan(id, None, None, false, true)
  }

  function StoreProfile(profiles: map<int, Profile>, plan: Plan): map<int, Profile> {
    if plan.profile.None? then profiles - {plan.id} else profiles[plan.id := plan.profile.value]
  }

  function Expectation(plan: Plan): Option<Identity> {
    match plan.profile
    case None => None
    case Some(profile) => Some(IdentityOf(profile.config))
  }

  class RuntimeRegistry {
    const store: InMemoryCredentialStore
    const factory: ConnectorFactory
    var runtimes: map<int, Runtime>
    var expectedIdentities: map<int, Identity>

    constructor (store: InMemoryCredentialStore, factory: ConnectorFactory)
      requires factory.created == 0 && factory.closed == multiset{}
      ensures this.store == store && this.factory == factory && Valid()
      ensures runtimes == map[] && expectedIdentities == map[]
    {
      this.store, this.factory := store, factory;
      runtimes, expectedIdentities := map[], map[];
      new;
      assert forall id :: OwnedAt(Contents(), id);
      assert forall id, other :: Apart(Contents(), id, other);
      assert forall connector :: ClosedOnce(Contents().links, connector);
    }

    function Contents(): Cache
      reads this, factory
    {
      Cache(runtimes, expectedIdentities, factory.Contents())
    }

    ghost predicate Valid()
      reads this, factory
    {
      Owned(Contents())
    }

    /** Takes the runtime of id, if any, out of the cache and closes its connector. */
    method Release(id: int)
      modifies this, factory
      ensures Contents() == Evict(old(Contents()), id)
    {
      if id in runtimes {
        var runtime := runtimes[id];
        runtimes := runtimes - {id};
        factory.CloseConnector(runtime.connector);
      }
    }

    /**
     * Runs under the registry's lock; the password store changes meanwhile. On a miss the runtime is built,
     * and it is cached, or its connector closed.
     */
    method GetOrCreate(profile: Profile, trial: Trial)
        returns (r: Result<Runtime, Failure>, ghost before: seq<Change>, ghost after: seq<Change>, build: Build)
      requires Valid()
      modifies this, factory, store
      ensures Valid()
      ensures store.Contents() == ApplyAll(ApplyAll(old(store.Contents()), before), after)
      ensures
        var password := Password(ApplyAll(old(store.Contents()), before), profile.id);
        && Answers(old(Contents()), Contents(), profile, password, trial, r)
        && Carried(old(Contents()), Contents(), profile, password, build, r)
    {
      after := [];
      before := store.Interleave();
      ghost var password := Password(store.Contents(), profile.id);
      r, after, build := Get(profile, trial);
      CarriedAnswers(old(Contents()), Contents(), profile, password, trial, build, r);
    }

    /** What the getter does with the expectation and the password it finds. */
    method Get(profile: Profile, trial: Trial)
        returns (r: Result<Runtime, Failure>, ghost after: seq<Change>, build: Build)
      requires Valid()
      modifies this, factory, store
      ensures Valid() && store.Contents() == ApplyAll(old(store.Contents()), after)
      ensures
        var password := Password(old(store.Contents()), profile.id);
        && (LookUp(old(Contents()), profile, password).MustBuild? ==> Follows(profile, trial, build))
        && Carried(old(Contents()), Contents(), profile, password, build, r)
    {
      after, build := [], Made(profile);
      if profile.id in expectedIdentities && IdentityOf(profile.config) != expectedIdentities[profile.id] {
        return Err(Unavailable), after, build;
      }
      var password := store.GetDatasource(profile.id);
      after := store.Interleave();
      if password.None? {
        EvictOwned(Contents(), profile.id);
        Release(profile.id);
        return Err(CredentialMissing), after, build;
      }
      if profile.id in runtimes && IdentityOf(runtimes[profile.id].profile.config) == IdentityOf(profile.config) {
        return Ok(runtimes[profile.id]), after, build;
      }
      r, build := Rebuild(profile, password.value, trial);
    }

    /** Closes the old runtime, if any, and builds a new one. */
    method Rebuild(profile: Profile, password: int, trial: Trial) returns (r: Result<Runtime, Failure>, build: Build)
      requires Valid()
      modifies this, factory
      ensures Valid() && Follows(profile, trial, build)
      ensures var c := Evict(old(Contents()), profile.id);
        r == Answer(c, profile, password, build) && Contents() == Built(c, profile, password, build)
    {
      EvictOwned(Contents(), profile.id);
      Release(profile.id);
      ghost var start := Contents();
      var connector;
      build, connector := factory.BuildRuntime(profile, Some(password), trial);
      r := Settle(profile, password, build, connector, start);
    }

    /** What follows the runtime service's answer; a runtime for another profile is not kept. */
    method Settle(profile: Profile, password: int, build: Build, connector: int, ghost start: Cache)
        returns (r: Result<Runtime, Failure>)
      requires Owned(start) && profile.id !in start.runtimes
      requires Contents() == start.(links := Connect(start.links, build))
      requires build.Made? ==> connector == start.links.created
      modifies this, factory
      ensures Valid() && r == Answer(start, profile, password, build)
      ensures Contents() == Built(start, profile, password, build)
    {
      BuiltOwned(start, profile, password, build);
      match build {
        case Failed(failure, _) => r := Err(failure);
        case Made(made) =>
          if made != profile {
            factory.CloseConnector(connector);
            r := Err(Unavailable);
          } else {
            var runtime := Runtime(made, password, connector);
            runtimes := runtimes[profile.id := runtime];
            r := Ok(runtime);
          }
      }
    }

    method Invalidate(id: int, expected: Option<Profile>)
      requires Valid()
      modifies this, factory
      ensures Valid()
      ensures
        var identity := if expected.None? then None else Some(IdentityOf(expected.value.config));
        Announced(old(Contents()), Contents(), id, identity) && Contents() == Expect(old(Contents()), id, identity)
    {
      ghost var start := Contents();
      ExpectAnnounces(start, id, if expected.None? then None else Some(IdentityOf(expected.value.config)));
      match expected {
        case None =>
          expectedIdentities := expectedIdentities - {id};
          ExpectOwned(start, id, None);
        case Some(profile) =>
          expectedIdentities := expectedIdentities[id := IdentityOf(profile.config)];
          ExpectOwned(start, id, Some(IdentityOf(profile.config)));
      }
      Release(id);
    }

    /** Empties the maps first, then closes what was cached, one runtime at a time. */
    method CloseEverything()
      requires Valid()
      modifies this, factory
      ensures Valid() && Contents() == CloseAll(old(Contents())) && runtimes == map[] && expectedIdentities == map[]
    {
      ghost var start := Contents();
      var cached := runtimes;
      runtimes, expectedIdentities := map[], map[];
      var rest: map<int, Runtime> := cached;
      while rest != map[]
        invariant runtimes == map[] && expectedIdentities == map[] && cached == start.runtimes
        invariant forall id | id in rest :: id in cached && rest[id] == cached[id]
        invariant factory.created == start.links.created
        invariant factory.closed + multiset(Connectors(rest)) == start.links.closed + multiset(Connectors(cached))
        decreases |rest|
      {
        ghost var some := SomeKey(rest);
        var id :| id in rest;
        OthersConnectors(start, rest, id);
        factory.CloseConnector(rest[id].connector);
        rest := rest - {id};
      }
      assert Connectors(rest) == {};
      assert Contents() == CloseAll(start);
      CloseAllOwned(start);
    }
  }

  /** The persistent store; a write that does not work changes nothing. */
  class LocalProfileStore {
    var datasources: map<int, Profile>

    method Write(plan: Plan, works: bool)
      requires plan.profile.Some? ==> plan.profile.value.id == plan.id
      modifies this
      ensures datasources == if works then StoreProfile(old(datasources), plan) else old(datasources)
    {
      if !works {
        return;
      }
      match plan.profile {
        case None => datasources := datasources - {plan.id};
        case Some(profile) => datasources := datasources[plan.id := profile];
      }
    }
  }

  class DatasourceProfileService {
    const store: LocalProfileStore
    const credentials: InMemoryCredentialStore
    const registry: RuntimeRegistry

    constructor (store: LocalProfileStore, credentials: InMemoryCredentialStore, registry: RuntimeRegistry)
      requires registry.store == credentials
      ensures this.store == store && this.credentials == credentials && this.registry == registry
    {
      this.store, this.credentials, this.registry := store, credentials, registry;
    }

    ghost predicate Valid()
      reads this, registry, registry.factory
    {
      registry.store == credentials && registry.Valid()
    }

    /** All of the plan has been carried out. */
    twostate predicate Done(plan: Plan)
      reads this, store, credentials, registry, registry.factory
    {
      && store.datasources == StoreProfile(old(store.datasources), plan)
      && credentials.Contents() == Apply(old(credentials.Contents()), PutPassword(plan.id, plan.password))
      && registry.Contents() ==
         if plan.invalidates then Expect(old(registry.Contents()), plan.id, Expectation(plan))
         else old(registry.Contents())
    }

    twostate predicate Untouched()
      reads this, store, credentials, registry, registry.factory
    {
      && store.datasources == old(store.datasources) && credentials.Contents() == old(credentials.Contents())
      && registry.Contents() == old(registry.Contents())
    }

    /** Profile and password are as given; model keys and other profiles stay. */
    twostate predicate Wrote(id: int, profile: Option<Profile>, password: Option<int>)
      reads store, credentials
    {
      && store.datasources == (match profile
                               case None => old(store.datasources) - {id}
                               case Some(p) => old(store.datasources)[id := p])
      && credentials.datasourceCredentials == (match password
                                               case None => old(credentials.datasourceCredentials) - {id}
                                               case Some(p) => old(credentials.datasourceCredentials)[id := p])
      && credentials.modelCredentials == old(credentials.modelCredentials)
      && credentials.modelRevisions == old(credentials.modelRevisions)
    }

    /** Validation opens a connection of its own: valid is how that ends. */
    method Create(profile: Profile, password: Option<int>, valid: bool, works: bool)
        returns (r: Result<Profile, ServiceError>)
      requires Valid()
      modifies store, credentials, registry, registry.factory
      ensures Valid()
      ensures r ==
        if profile.id in old(store.datasources) then Err(AlreadyExists)
        else if password.None? then Err(MissingPassword)
        else if !valid then Err(Invalid)
        else if !works then Err(StoreFailed) else Ok(profile)
      ensures r.Err? ==> Untouched()
      ensures r.Ok? ==>
        && Wrote(profile.id, Some(profile), password) && registry.Contents() == old(registry.Contents())
        && Done(DecideCreate(profile, password).value)
    {
      if profile.id in store.datasources {
        return Err(AlreadyExists);
      }
      if password.None? {
        return Err(MissingPassword);
      }
      if !valid {
        return Err(Invalid);
      }
      store.Write(DecideCreate(profile, password).value, works);
      if !works {
        return Err(StoreFailed);
      }
      credentials.PutDatasource(profile.id, password);
      r := Ok(profile);
    }

    /**
     * A password is missing only for another configuration. The runtime is dropped, and the new identity
     * expected, exactly when the configuration changed or the password was given anew.
     */
    method Replace(profile: Profile, password: Argument, valid: bool, works: bool)
        returns (r: Result<Profile, ServiceError>)
      requires Valid()
      modifies store, credentials, registry, registry.factory
      ensures Valid()
      ensures profile.id !in old(store.datasources) ==> r == Err(NotFound)
      ensures r.Err? ==> Untouched()
      ensures profile.id in old(store.datasources) ==>
                var existing := Password(old(credentials.Contents()), profile.id);
                var next := if password.Given? then password.key else existing;
                var changed := old(store.datasources)[profile.id].config != profile.config;
                && r == (if next.None? && changed then Err(MissingPassword)
                         else if next.Some? && (changed || password.Given?) && !valid then Err(Invalid)
                         else if !works then Err(StoreFailed) else Ok(profile))
                && (r.Ok? ==> Wrote(profile.id, Some(profile), next))
                && (r.Ok? && (changed || password.Given?) ==>
                      Announced(old(registry.Contents()), registry.Contents(), profile.id,
                                Some(IdentityOf(profile.config))))
                && (r.Ok? && !changed && password.Omitted? ==> registry.Contents() == old(registry.Contents()))
      ensures profile.id in old(store.datasources) && r.Ok? ==>
                var decided := DecideReplace(old(store.datasources)[profile.id], profile,
                                             Password(old(credentials.Contents()), profile.id), password);
                decided.Ok? && Done(decided.value)
    {
      if profile.id !in store.datasources {
        return Err(NotFound);
      }
      var current := store.datasources[profile.id];
      var existing := credentials.GetDatasource(profile.id);
      var changed := current.config != profile.config;
      if password == Given(None) {
        if changed {
          return Err(MissingPassword);
        }
        store.Write(Plan(profile.id, Some(profile), None, false, true), works);
        if !works {
          return Err(StoreFailed);
        }
        credentials.DiscardDatasource(profile.id);
        registry.Invalidate(profile.id, Some(profile));
        return Ok(profile);
      }
      var next := match password case Omitted => existing case Given(secret) => secret;
      var validates := changed || password.Given?;
      if validates {
        if next.None? {
          return Err(MissingPassword);
        }
        if !valid {
          return Err(Invalid);
        }
      }
      store.Write(Plan(profile.id, Some(profile), next, false, validates), works);
      if !works {
        return Err(StoreFailed);
      }
      credentials.PutDatasource(profile.id, next);
      if validates {
        registry.Invalidate(profile.id, Some(profile));
      }
      r := Ok(profile);
    }

    method Delete(id: int, works: bool) returns (r: Result<bool, ServiceError>)
      requires Valid()
      modifies store, credentials, registry, registry.factory
      ensures Valid()
      ensures r ==
        if id !in old(store.datasources) then Err(NotFound) else if !works then Err(StoreFailed) else Ok(true)
      ensures r.Err? ==> Untouched()
      ensures r.Ok? ==>
        && Wrote(id, None, None) && Announced(old(registry.Contents()), registry.Contents(), id, None)
        && Done(DecideDelete(id))
    {
      if id !in store.datasources {
        return Err(NotFound);
      }
      store.Write(DecideDelete(id), works);
      if !works {
        return Err(StoreFailed);
      }
      credentials.DiscardDatasource(id);
      registry.Invalidate(id, None);
      r := Ok(true);
    }
  }

  lemma {:induction false} SomeKey<T>(m: map<int, T>) returns (id: int)
    requires m != map[]
    ensures id in m
  {
    assert m.Keys != {};
    id := Ids.Member(m.Keys);
  }

  lemma {:induction false} OthersConnectors(c: Cache, rest: map<int, Runtime>, id: int)
    requires Owned(c) && id in rest
    requires forall other | other in rest :: other in c.runtimes && rest[other] == c.runtimes[other]
    ensures |rest - {id}| < |rest|
    ensures multiset(Connectors(rest)) == multiset(Connectors(rest - {id})) + multiset{rest[id].connector}
  {
    assert (rest - {id}).Keys == rest.Keys - {id};
    assert rest == (rest - {id})[id := rest[id]];
    var connector := rest[id].connector;
    forall other | other in rest && other != id ensures rest[other].connector != connector {
      assert Apart(c, id, other);
    }
    assert connector !in Connectors(rest - {id});
    assert Connectors(rest) == Connectors(rest - {id}) + {connector};
  }
}
