/** Model profile changes: profile store, key store and runtime cache, written
    in this order, all of them or none. */
module ModelService {
  import opened CredentialStore
  import opened ModelRegistry
  import opened Wrappers

  datatype ServiceError = NotFound | AlreadyExists | StoreFailed

  function CreatedKeys(profile: Profile, generation: Option<int>, embedding: Option<int>): ModelCredentials {
    ModelCredentials(generation, if profile.settings.embeddingUrl.Some? then embedding else None)
  }

  /** A key that is not given again survives only if what it unlocks stays the same. */
  function ReplacedKeys(current: Settings, next: Settings, existing: ModelCredentials,
                        generation: Argument, embedding: Argument): ModelCredentials {
    ModelCredentials(
      match generation
      case Given(key) => key
      case Omitted =>
        if current.provider != next.provider || current.baseUrl != next.baseUrl then None else existing.generation,
      if next.embeddingUrl.None? then None
      else
        match embedding
        case Given(key) => key
        case Omitted =>
          if current.embeddingUrl != next.embeddingUrl || current.embeddingModel != next.embeddingModel then None
          else existing.embedding)
  }

  predicate SameGeneration(one: Settings, other: Settings) {
    one.provider == other.provider && one.baseUrl == other.baseUrl
  }

  predicate SameEmbedding(one: Settings, other: Settings) {
    one.embeddingUrl == other.embeddingUrl && one.embeddingModel == other.embeddingModel
  }

  /**
   * A given key is taken. One left out is kept exactly while what it unlocks stays the same; without an
   * embedding URL there is no embedding key.
   */
  predicate Inherits(current: Settings, next: Settings, existing: ModelCredentials,
                     generation: Argument, embedding: Argument, keys: ModelCredentials) {
    && (generation.Given? ==> keys.generation == generation.key)
    && (generation.Omitted? && SameGeneration(current, next) ==> keys.generation == existing.generation)
    && (generation.Omitted? && !SameGeneration(current, next) ==> keys.generation == None)
    && (next.embeddingUrl.None? ==> keys.embedding == None)
    && (next.embeddingUrl.Some? ==>
          && (embedding.Given? ==> keys.embedding == embedding.key)
          && (embedding.Omitted? && SameEmbedding(current, next) ==> keys.embedding == existing.embedding)
          && (embedding.Omitted? && !SameEmbedding(current, next) ==> keys.embedding == None))
  }

  /** The persistent store; a write that does not work changes nothing. */
  class LocalProfileStore {
    var models: map<int, Profile>

    method CreateModel(profile: Profile, works: bool) returns (r: Result<Profile, ServiceError>)
      modifies this
      ensures r ==
        if !works then Err(StoreFailed) else if profile.id in old(models) then Err(AlreadyExists) else Ok(profile)
      ensures models == if r.Ok? then old(models)[profile.id := profile] else old(models)
    {
      if !works {
        return Err(StoreFailed);
      }
      if profile.id in models {
        return Err(AlreadyExists);
      }
      models := models[profile.id := profile];
      r := Ok(profile);
    }

    method ReplaceModel(profile: Profile, works: bool) returns (r: Result<Profile, ServiceError>)
      modifies this
      ensures r ==
        if !works then Err(StoreFailed) else if profile.id !in old(models) then Err(NotFound) else Ok(profile)
      ensures models == if r.Ok? then old(models)[profile.id := profile] else old(models)
    {
      if !works {
        return Err(StoreFailed);
      }
      if profile.id !in models {
        return Err(NotFound);
      }
      models := models[profile.id := profile];
      r := Ok(profile);
    }

    method DeleteModel(id: int, works: bool) returns (r: Result<bool, ServiceError>)
      modifies this
      ensures r == if works then Ok(id in old(models)) else Err(StoreFailed)
      ensures models == if r.Ok? then old(models) - {id} else old(models)
    {
      if !works {
        return Err(StoreFailed);
      }
      r := Ok(id in models);
      models := models - {id};
    }
  }

  class ModelProfileService {
    const store: LocalProfileStore
    const credentials: InMemoryCredentialStore
    const registry: ModelRuntimeRegistry

    constructor (store: LocalProfileStore, credentials: InMemoryCredentialStore, registry: ModelRuntimeRegistry)
      requires registry.store == credentials
      ensures this.store == store && this.credentials == credentials && this.registry == registry
    {
      this.store, this.credentials, this.registry := store, credentials, registry;
    }

    ghost predicate Valid()
      reads this, registry, credentials
    {
      registry.store == credentials && registry.Valid()
    }

    twostate predicate Untouched()
      reads store, credentials, registry
    {
      && store.models == old(store.models) && credentials.Contents() == old(credentials.Contents())
      && registry.Contents() == old(registry.Contents())
    }

    /** The keys and, right after them, the expectation are written; during comes what else befalls the keys. */
    twostate predicate Wrote(id: int, profile: Option<Profile>, change: Change, during: seq<Change>)
      reads store, credentials, registry
    {
      var written := Apply(old(credentials.Contents()), change);
      && credentials.Contents() == ApplyAll(written, during)
      && registry.Contents() == Expect(old(registry.Contents()), id, Expectation(written, profile))
    }

    /** The profile, the keys and the expectation are written together; a failure writes none of them. */
    method Create(profile: Profile, generation: Option<int>, embedding: Option<int>, works: bool)
        returns (r: Result<Profile, ServiceError>, ghost keys: ModelCredentials, ghost during: seq<Change>)
      requires Valid()
      modifies store, credentials, registry
      ensures Valid()
      ensures r ==
        if !works then Err(StoreFailed)
        else if profile.id in old(store.models) then Err(AlreadyExists) else Ok(profile)
      ensures r.Err? ==> Untouched()
      ensures keys.generation == generation
      ensures keys.embedding == if profile.settings.embeddingUrl.Some? then embedding else None
      ensures r.Ok? ==>
        && store.models == old(store.models)[profile.id := profile]
        && Announced(old(registry.Contents()), registry.Contents(), profile.id,
                     Some(Identity(profile.settings, Revision(old(credentials.Contents()), profile.id) + 1)))
        && Wrote(profile.id, Some(profile), PutModel(profile.id, keys), during)
        && keys == CreatedKeys(profile, generation, embedding)
    {
      during, keys := [], CreatedKeys(profile, generation, embedding);
      r := store.CreateModel(profile, works);
      if r.Ok? {
        credentials.PutModelKeys(profile.id, CreatedKeys(profile, generation, embedding));
        ChangeStaysCoherent(old(credentials.Contents()), PutModel(profile.id, keys), old(registry.Contents()));
        RevisionMoves(old(credentials.Contents()), PutModel(profile.id, keys), profile.id);
        during := registry.Invalidate(profile.id, Some(profile));
      }
    }

    method Replace(profile: Profile, generation: Argument, embedding: Argument, works: bool)
        returns (r: Result<Profile, ServiceError>, ghost keys: ModelCredentials, ghost during: seq<Change>)
      requires Valid()
      modifies store, credentials, registry
      ensures Valid()
      ensures r ==
        if profile.id !in old(store.models) then Err(NotFound) else if !works then Err(StoreFailed) else Ok(profile)
      ensures r.Err? ==> Untouched()
      ensures r.Ok? ==>
        var current, existing := old(store.models)[profile.id].settings, Keys(old(credentials.Contents()), profile.id);
        && Inherits(current, profile.settings, existing, generation, embedding, keys)
        && store.models == old(store.models)[profile.id := profile]
        && Announced(old(registry.Contents()), registry.Contents(), profile.id,
                     Some(Identity(profile.settings, Revision(old(credentials.Contents()), profile.id) + 1)))
        && Wrote(profile.id, Some(profile), PutModel(profile.id, keys), during)
        && keys == ReplacedKeys(current, profile.settings, existing, generation, embedding)
    {
      during, keys := [], NO_KEYS;
      if profile.id !in store.models {
        return Err(NotFound), keys, during;
      }
      var current := store.models[profile.id];
      var found := credentials.GetModel(profile.id);
      var existing := match found case Some(held) => held case None => NO_KEYS;
      var next := ReplacedKeys(current.settings, profile.settings, existing, generation, embedding);
      keys := next;
      r := store.ReplaceModel(profile, works);
      if r.Ok? {
        credentials.PutModelKeys(profile.id, next);
        ChangeStaysCoherent(old(credentials.Contents()), PutModel(profile.id, keys), old(registry.Contents()));
        RevisionMoves(old(credentials.Contents()), PutModel(profile.id, keys), profile.id);
        during := registry.Invalidate(profile.id, Some(profile));
      }
    }

    method Delete(id: int, works: bool) returns (r: Result<bool, ServiceError>, ghost during: seq<Change>)
      requires Valid()
      modifies store, credentials, registry
      ensures Valid()
      ensures r ==
        if !works then Err(StoreFailed) else if id !in old(store.models) then Err(NotFound) else Ok(true)
      ensures r.Err? ==> Untouched()
      ensures r.Ok? ==>
        && store.models == old(store.models) - {id}
        && Announced(old(registry.Contents()), registry.Contents(), id, None)
        && Wrote(id, None, DiscardModel(id), during)
    {
      during := [];
      r := store.DeleteModel(id, works);
      if r.Ok? && !r.value {
        r := Err(NotFound);
      }
      if r.Ok? {
        credentials.DiscardModelKeys(id);
        ChangeStaysCoherent(old(credentials.Contents()), DiscardModel(id), old(registry.Contents()));
        during := registry.Invalidate(id, None);
      }
    }
  }
}
