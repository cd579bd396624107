/** Every interleaving of model profile changes, key changes and getters. */
module ModelRuns {
  // A step is what happens under one lock: the write lock orders profile changes, the registry lock getters
  // and invalidations, and the key store may change between any two reads.

  import opened CredentialStore
  import opened ModelRegistry
  import opened ModelService
  import opened Wrappers

  /** A caller handed this key over together with a profile that has this endpoint. */
  datatype Grant =
    | ForGeneration(id: int, key: int, provider: int, baseUrl: int)
    | ForEmbedding(id: int, key: int, url: int, model: Option<int>)

  datatype Operation =
    | Create(profile: Profile, generation: Option<int>, embedding: Option<int>)
    | Replace(profile: Profile, given: Argument, givenEmbedding: Argument)
    | Delete(id: int)

  /** What a change has decided to write; a delete writes no profile. before: the settings stored until then. */
  datatype Plan = Plan(id: int, before: Option<Settings>, profile: Option<Profile>, keys: ModelCredentials)

  datatype Writer = Quiet | Planned(plan: Plan) | Stored(plan: Plan) | Keyed(plan: Plan)

  /** Who has the registry lock. seen: the keys at the moment the getter took the revision. */
  datatype Holder =
    | Free
    | Checking(profile: Profile, identity: Identity, seen: ModelCredentials)
    | Loading(profile: Profile, identity: Identity, seen: ModelCredentials)
    | Building(profile: Profile, identity: Identity, seen: ModelCredentials, loaded: ModelCredentials)
    | Expecting(id: int, expected: Option<Identity>)

  datatype State = State(
    profiles: map<int, Profile>, vault: Vault, cache: Cache, writer: Writer, holder: Holder, granted: set<Grant>)

  datatype Action =
    | Begin(operation: Operation)
    | Abandon
    | WriteProfile
    | WriteKeys
    | StartInvalidate
    | FinishInvalidate
    | ClearKeys
    | CloseCache
    | StartGet(profile: Profile)
    | Check
    | LoadKeys
    | FinishGet(build: Build)

  predicate Starts(s: State) {
    && s.vault == Vault(map[], map[], map[]) && s.cache == Cache(map[], map[], map[])
    && s.writer.Quiet? && s.holder.Free? && s.granted == {}
    && forall id | id in s.profiles :: s.profiles[id].id == id
  }

  predicate Enabled(s: State, a: Action) {
    match a
    case Begin(operation) => s.writer.Quiet? && (
        match operation
        case Create(profile, _, _) => profile.id !in s.profiles
        case Replace(profile, _, _) => profile.id in s.profiles
        case Delete(id) => id in s.profiles)
    case Abandon => s.writer.Planned?
    case WriteProfile => s.writer.Planned?
    case WriteKeys => s.writer.Stored?
    case StartInvalidate => s.writer.Keyed? && s.holder.Free?
    case FinishInvalidate => s.writer.Keyed? && s.holder.Expecting?
    case ClearKeys => true
    case CloseCache => s.holder.Free?
    case StartGet(_) => s.holder.Free?
    case Check => s.holder.Checking?
    case LoadKeys => s.holder.Loading?
    case FinishGet(_) => s.holder.Building?
  }

  function Decide(s: State, operation: Operation): Plan
    requires Enabled(s, Begin(operation))
  {
    match operation
    case Create(profile, generation, embedding) =>
      Plan(profile.id, None, Some(profile), CreatedKeys(profile, generation, embedding))
    case Replace(profile, given, givenEmbedding) =>
      var current := s.profiles[profile.id].settings;
      Plan(profile.id, Some(current), Some(profile),
           ReplacedKeys(current, profile.settings, Keys(s.vault, profile.id), given, givenEmbedding))
    case Delete(id) => Plan(id, Some(s.profiles[id].settings), None, NO_KEYS)
  }

  function Grants(profile: Profile, generation: Option<int>, embedding: Option<int>): set<Grant> {
    var s := profile.settings;
    (if generation.Some? then {ForGeneration(profile.id, generation.value, s.provider, s.baseUrl)} else {})
    + (if embedding.Some? && s.embeddingUrl.Some?
       then {ForEmbedding(profile.id, embedding.value, s.embeddingUrl.value, s.embeddingModel)} else {})
  }

  function Granted(operation: Operation): set<Grant> {
    match operation
    case Create(profile, generation, embedding) => Grants(profile, generation, embedding)
    case Replace(profile, given, givenEmbedding) =>
      Grants(profile, if given.Given? then given.key else None,
             if givenEmbedding.Given? then givenEmbedding.key else None)
    case Delete(_) => {}
  }

  function StoreProfile(profiles: map<int, Profile>, plan: Plan): map<int, Profile> {
    if plan.profile.None? then profiles - {plan.id} else profiles[plan.id := plan.profile.value]
  }

  function KeyChange(plan: Plan): Change {
    if plan.profile.None? then DiscardModel(plan.id) else PutModel(plan.id, plan.keys)
  }

  function Next(s: State, a: Action): State
    requires Enabled(s, a)
  {
    match a
    case Begin(operation) => s.(writer := Planned(Decide(s, operation)), granted := s.granted + Granted(operation))
    case Abandon => s.(writer := Quiet)
    case WriteProfile => s.(profiles := StoreProfile(s.profiles, s.writer.plan), writer := Stored(s.writer.plan))
    case WriteKeys => s.(vault := Apply(s.vault, KeyChange(s.writer.plan)), writer := Keyed(s.writer.plan))
    case StartInvalidate => s.(holder := Expecting(s.writer.plan.id, Expectation(s.vault, s.writer.plan.profile)))
    case FinishInvalidate =>
      s.(cache := Expect(s.cache, s.holder.id, s.holder.expected), holder := Free, writer := Quiet)
    case ClearKeys => s.(vault := Apply(s.vault, ClearAll))
    case CloseCache => s.(cache := Cache(map[], map[], map[]))
    case StartGet(profile) =>
      var identity := Identity(profile.settings, Revision(s.vault, profile.id));
      s.(holder := Checking(profile, identity, Keys(s.vault, profile.id)))
    case Check =>
      var h := s.holder;
      if Refused(s.cache, h.profile.id, h.identity) || Hits(s.cache, h.profile.id, h.identity) then s.(holder := Free)
      else s.(cache := Drop(s.cache, h.profile.id), holder := Loading(h.profile, h.identity, h.seen))
    case LoadKeys =>
      s.(holder := Building(s.holder.profile, s.holder.identity, s.holder.seen, Keys(s.vault, s.holder.profile.id)))
    case FinishGet(build) =>
      var judged := Judge(s.holder.profile, s.holder.loaded, build);
      s.(holder := Free,
         cache := if judged.Ok? then Keep(s.cache, s.holder.profile.id, judged.value, s.holder.identity) else s.cache)
  }

  /** What the getter's caller receives at this step, if it is the last of the getter. */
  function Reply(s: State, a: Action): Option<Result<Runtime, Failure>>
    requires Enabled(s, a)
  {
    match a
    case Check =>
      if Refused(s.cache, s.holder.profile.id, s.holder.identity) then Some(Err(Stale))
      else if Hits(s.cache, s.holder.profile.id, s.holder.identity) then Some(Ok(s.cache.runtimes[s.holder.profile.id]))
      else None
    case FinishGet(build) => Some(Judge(s.holder.profile, s.holder.loaded, build))
    case _ => None
  }

  predicate IsRun(s: State, actions: seq<Action>)
    decreases |actions|
  {
    actions == [] || (Enabled(s, actions[0]) && IsRun(Next(s, actions[0]), actions[1..]))
  }

  function End(s: State, actions: seq<Action>): State
    requires IsRun(s, actions)
    decreases |actions|
  {
    if actions == [] then s else End(Next(s, actions[0]), actions[1..])
  }

  ghost predicate Reachable(s: State) {
    exists start, actions :: Starts(start) && IsRun(start, actions) && End(start, actions) == s
  }

  // What holds in every reachable state

  /** The keys were handed over for these endpoints. */
  predicate Fits(granted: set<Grant>, id: int, keys: ModelCredentials, settings: Settings) {
    && (keys.generation.Some? ==>
          ForGeneration(id, keys.generation.value, settings.provider, settings.baseUrl) in granted)
    && (keys.embedding.Some? ==>
          && settings.embeddingUrl.Some?
          && ForEmbedding(id, keys.embedding.value, settings.embeddingUrl.value, settings.embeddingModel) in granted)
  }

  /** A change of id is past its first write. */
  predicate Changing(s: State, id: int) {
    (s.writer.Stored? || s.writer.Keyed?) && s.writer.plan.id == id
  }

  predicate ProfileOk(s: State, id: int) {
    id in s.profiles ==> s.profiles[id].id == id
  }

  function StoredSettings(s: State, id: int): Option<Settings> {
    if id in s.profiles then Some(s.profiles[id].settings) else None
  }

  /** A change of id has written its keys and waits for the registry. */
  predicate Overtaken(s: State, id: int) {
    s.writer.Keyed? && s.writer.plan.id == id && s.writer.plan.profile.Some?
  }

  /** The settings that keys of id belong to: those of the change under way if it wrote them, or those before it. */
  function Source(s: State, id: int, keys: ModelCredentials): Option<Settings> {
    if Overtaken(s, id) && keys == s.writer.plan.keys then Some(s.writer.plan.profile.value.settings)
    else if Changing(s, id) then s.writer.plan.before
    else StoredSettings(s, id)
  }

  /** No keys, or keys that were handed over for the endpoints of their source. */
  predicate Sourced(s: State, id: int, keys: ModelCredentials) {
    keys == NO_KEYS
    || (Source(s, id, keys).Some? && Fits(s.granted, id, keys, Source(s, id, keys).value))
  }

  predicate KeysOk(s: State, id: int) {
    id in s.vault.models && !(s.writer.Stored? && s.writer.plan.id == id) ==>
      id in s.profiles && Fits(s.granted, id, Keys(s.vault, id), s.profiles[id].settings)
  }

  predicate ExpectedOk(s: State, id: int) {
    id in s.cache.expected ==>
      var e := s.cache.expected[id];
      && e.revision <= Revision(s.vault, id)
      && (Changing(s, id) || (id in s.profiles && s.profiles[id].settings == e.settings))
      && (e.revision == Revision(s.vault, id) ==> Fits(s.granted, id, Keys(s.vault, id), e.settings))
  }

  predicate WriterOk(s: State) {
    s.writer.Quiet? || (
      var plan := s.writer.plan;
      && (plan.profile.Some? ==> plan.profile.value.id == plan.id
                                 && Fits(s.granted, plan.id, plan.keys, plan.profile.value.settings))
      && (!s.writer.Planned? && plan.profile.Some? ==>
            plan.id in s.profiles && s.profiles[plan.id] == plan.profile.value)
      && (!s.writer.Planned? && plan.profile.None? ==> plan.id !in s.profiles))
  }

  predicate GetterOk(s: State, profile: Profile, identity: Identity, seen: ModelCredentials) {
    && identity.settings == profile.settings && identity.revision <= Revision(s.vault, profile.id)
    && (identity.revision == Revision(s.vault, profile.id) ==> seen == Keys(s.vault, profile.id))
    && (profile.id in s.cache.expected && s.cache.expected[profile.id] == identity ==>
          Fits(s.granted, profile.id, seen, profile.settings))
  }

  /** What a getter of id may find: the keys it saw, none, or those of a change that has yet to invalidate. */
  predicate Findable(s: State, id: int, seen: ModelCredentials, keys: ModelCredentials) {
    keys == seen || keys == NO_KEYS || (Overtaken(s, id) && keys == s.writer.plan.keys)
  }

  predicate HolderOk(s: State) {
    match s.holder
    case Free => true
    case Checking(profile, identity, seen) =>
      && GetterOk(s, profile, identity, seen) && Findable(s, profile.id, seen, Keys(s.vault, profile.id))
      && (Hits(s.cache, profile.id, identity) ==> s.cache.runtimes[profile.id].credentials == seen)
    case Loading(profile, identity, seen) =>
      && GetterOk(s, profile, identity, seen) && !Refused(s.cache, profile.id, identity)
      && Findable(s, profile.id, seen, Keys(s.vault, profile.id))
    case Building(profile, identity, seen, loaded) =>
      && GetterOk(s, profile, identity, seen) && !Refused(s.cache, profile.id, identity)
      && Findable(s, profile.id, seen, loaded)
      && (identity.revision == Revision(s.vault, profile.id) ==> loaded == seen)
    case Expecting(id, expected) =>
      && s.writer.Keyed? && s.writer.plan.id == id
      && (expected.None? <==> s.writer.plan.profile.None?)
      && (expected.Some? ==>
            var e := expected.value;
            && e.settings == s.writer.plan.profile.value.settings && e.revision <= Revision(s.vault, id)
            && (e.revision == Revision(s.vault, id) ==> Fits(s.granted, id, Keys(s.vault, id), e.settings)))
  }

  predicate AllOk(s: State, id: int) {
    ProfileOk(s, id) && KeysOk(s, id) && ExpectedOk(s, id)
  }

  ghost predicate CacheInvariant(s: State) {
    && CoherentCache(s.vault, s.cache)
    && (forall id :: AllOk(s, id))
    && WriterOk(s) && HolderOk(s)
  }

  /** What the writer's plan says about the settings before it, and about the keys after it. */
  predicate BeforeOk(s: State) {
    s.writer.Quiet? || (
      var plan := s.writer.plan;
      && (s.writer.Planned? ==> plan.before == StoredSettings(s, plan.id))
      && (plan.profile.None? ==> plan.keys == NO_KEYS)
      && (s.writer.Keyed? ==> Keys(s.vault, plan.id) == NO_KEYS || Keys(s.vault, plan.id) == plan.keys))
  }

  /** What a getter has read. */
  predicate ReadSourced(s: State) {
    match s.holder
    case Checking(profile, _, seen) => Sourced(s, profile.id, seen)
    case Loading(profile, _, seen) => Sourced(s, profile.id, seen)
    case Building(profile, _, seen, loaded) => Sourced(s, profile.id, seen) && Sourced(s, profile.id, loaded)
    case _ => true
  }

  predicate KeysSourced(s: State, id: int) {
    Sourced(s, id, Keys(s.vault, id))
  }

  ghost predicate SourceInvariant(s: State) {
    (forall id :: KeysSourced(s, id)) && BeforeOk(s) && ReadSourced(s)
  }

  ghost predicate Invariant(s: State) {
    CacheInvariant(s) && SourceInvariant(s)
  }

  lemma {:induction false} PlanFits(s: State, operation: Operation)
    requires Enabled(s, Begin(operation)) && !operation.Delete? && AllOk(s, operation.profile.id) && s.writer.Quiet?
    ensures Fits(s.granted + Granted(operation), operation.profile.id, Decide(s, operation).keys,
                 operation.profile.settings)
  {
  }

  lemma {:induction false} BeginKeeps(s: State, operation: Operation)
    requires CacheInvariant(s) && Enabled(s, Begin(operation))
    ensures CacheInvariant(Next(s, Begin(operation)))
  {
    var t := Next(s, Begin(operation));
    forall id ensures AllOk(t, id) {
      assert AllOk(s, id);
    }
    if !operation.Delete? {
      assert AllOk(s, operation.profile.id);
      PlanFits(s, operation);
    }
  }

  lemma {:induction false} WriterKeeps(s: State, a: Action)
    requires CacheInvariant(s) && Enabled(s, a) && (a.Abandon? || a.WriteProfile?)
    ensures CacheInvariant(Next(s, a))
  {
    var t := Next(s, a);
    forall id ensures AllOk(t, id) {
      assert AllOk(s, id);
    }
  }

  lemma {:induction false} KeyChangeKeeps(s: State, c: Change, writer: Writer)
    requires CacheInvariant(s)
    requires (writer == s.writer && c == ClearAll)
             || (s.writer.Stored? && writer == Keyed(s.writer.plan) && c == KeyChange(s.writer.plan))
    ensures CacheInvariant(s.(vault := Apply(s.vault, c), writer := writer))
  {
    var t := s.(vault := Apply(s.vault, c), writer := writer);
    forall id ensures Kept(s.vault, t.vault, id) {
      ApplyKeeps(s.vault, c, id);
    }
    StillCoherent(s.vault, t.vault, s.cache);
    forall id ensures AllOk(t, id) {
      assert AllOk(s, id) && Kept(s.vault, t.vault, id);
      if writer != s.writer && id == s.writer.plan.id {
        RevisionMoves(s.vault, c, id);
      }
    }
    if s.holder.Expecting? {
      assert Kept(s.vault, t.vault, s.holder.id);
    } else if !s.holder.Free? {
      assert Kept(s.vault, t.vault, s.holder.profile.id);
    }
  }

  lemma {:induction false} InvalidateKeeps(s: State, a: Action)
    requires CacheInvariant(s) && Enabled(s, a) && (a.StartInvalidate? || a.FinishInvalidate?)
    ensures CacheInvariant(Next(s, a))
  {
    var t := Next(s, a);
    assert AllOk(s, s.writer.plan.id);
    forall id ensures AllOk(t, id) {
      assert AllOk(s, id);
    }
    if a.FinishInvalidate? {
      DropCoherent(s.vault, s.cache, s.holder.id);
      forall id ensures CoherentAt(t.vault, t.cache, id) {
        assert CoherentAt(s.vault, Drop(s.cache, s.holder.id), id);
      }
    }
  }

  lemma {:induction false} GetKeeps(s: State, a: Action)
    requires CacheInvariant(s) && Enabled(s, a) && (a.StartGet? || a.Check? || a.LoadKeys?)
    ensures CacheInvariant(Next(s, a))
  {
    var t := Next(s, a);
    forall id ensures AllOk(t, id) {
      assert AllOk(s, id);
    }
    var id := if a.StartGet? then a.profile.id else s.holder.profile.id;
    assert CoherentAt(s.vault, s.cache, id) && AllOk(s, id);
    if a.Check? {
      DropCoherent(s.vault, s.cache, id);
    }
  }

  lemma {:induction false} FinishKeeps(s: State, a: Action)
    requires CacheInvariant(s) && Enabled(s, a) && (a.FinishGet? || a.CloseCache?)
    ensures CacheInvariant(Next(s, a))
  {
    var t := Next(s, a);
    forall id ensures AllOk(t, id) {
      assert AllOk(s, id);
    }
    if a.FinishGet? {
      var judged := Judge(s.holder.profile, s.holder.loaded, a.build);
      if judged.Ok? {
        KeepCoherent(s.vault, s.cache, s.holder.profile.id, judged.value, s.holder.identity);
      }
    } else {
      forall id ensures CoherentAt(t.vault, t.cache, id) {
      }
    }
  }

  lemma {:induction false} CacheKept(s: State, a: Action)
    requires CacheInvariant(s) && Enabled(s, a)
    ensures CacheInvariant(Next(s, a))
  {
    match a
    case Begin(operation) => BeginKeeps(s, operation);
    case Abandon => WriterKeeps(s, a);
    case WriteProfile => WriterKeeps(s, a);
    case WriteKeys => KeyChangeKeeps(s, KeyChange(s.writer.plan), Keyed(s.writer.plan));
    case StartInvalidate => InvalidateKeeps(s, a);
    case FinishInvalidate => InvalidateKeeps(s, a);
    case ClearKeys =>
      KeyChangeKeeps(s, ClearAll, s.writer);
      assert Next(s, a) == s.(vault := Apply(s.vault, ClearAll), writer := s.writer);
    case CloseCache => FinishKeeps(s, a);
    case StartGet(_) => GetKeeps(s, a);
    case Check => GetKeeps(s, a);
    case LoadKeys => GetKeeps(s, a);
    case FinishGet(_) => FinishKeeps(s, a);
  }

  // Keys stay with the settings they belong to; for one id, and for keys in a getter's hand

  /** Keys that were right before the step and are not written by it. */
  lemma {:induction false} StillSourced(s: State, a: Action, id: int, keys: ModelCredentials)
    requires Enabled(s, a) && WriterOk(s) && BeforeOk(s) && Sourced(s, id, keys)
    requires !a.FinishInvalidate? || s.writer.plan.id != id
    ensures Sourced(Next(s, a), id, keys)
  {
  }

  /** A change that invalidates leaves the keys it wrote, or none. */
  lemma {:induction false} FinishSourced(s: State, id: int)
    requires Enabled(s, FinishInvalidate) && WriterOk(s) && BeforeOk(s) && KeysSourced(s, id)
    ensures KeysSourced(Next(s, FinishInvalidate), id)
  {
    if s.writer.plan.id != id {
      StillSourced(s, FinishInvalidate, id, Keys(s.vault, id));
    }
  }

  lemma {:induction false} WrittenSourced(s: State)
    requires Enabled(s, WriteKeys) && WriterOk(s) && BeforeOk(s)
    ensures KeysSourced(Next(s, WriteKeys), s.writer.plan.id)
  {
  }

  lemma {:induction false} KeysStaySourced(s: State, a: Action, id: int)
    requires Enabled(s, a) && WriterOk(s) && BeforeOk(s) && KeysSourced(s, id)
    ensures KeysSourced(Next(s, a), id)
  {
    if a.FinishInvalidate? {
      FinishSourced(s, id);
    } else if a.WriteKeys? && s.writer.plan.id == id {
      WrittenSourced(s);
    } else {
      StillSourced(s, a, id, Keys(s.vault, id));
    }
  }

  lemma {:induction false} BeforeKept(s: State, a: Action)
    requires WriterOk(s) && BeforeOk(s) && Enabled(s, a)
    ensures BeforeOk(Next(s, a))
  {
  }

  lemma {:induction false} ReadKept(s: State, a: Action)
    requires WriterOk(s) && BeforeOk(s) && ReadSourced(s) && (forall id :: KeysSourced(s, id)) && Enabled(s, a)
    ensures ReadSourced(Next(s, a))
  {
    var t := Next(s, a);
    if t.holder.Checking? || t.holder.Loading? || t.holder.Building? {
      var id, seen := t.holder.profile.id, t.holder.seen;
      assert KeysSourced(s, id);
      assert Sourced(s, id, seen);
      StillSourced(s, a, id, seen);
      if t.holder.Building? {
        StillSourced(s, a, id, t.holder.loaded);
      }
    }
  }

  lemma {:induction false} StepKeeps(s: State, a: Action)
    requires Invariant(s) && Enabled(s, a)
    ensures Invariant(Next(s, a))
  {
    CacheKept(s, a);
    BeforeKept(s, a);
    ReadKept(s, a);
    forall id ensures KeysSourced(Next(s, a), id) {
      assert KeysSourced(s, id);
      KeysStaySourced(s, a, id);
    }
  }

  lemma {:induction false} RunKeepsInvariant(s: State, actions: seq<Action>)
    requires Invariant(s) && IsRun(s, actions)
    ensures Invariant(End(s, actions))
    decreases |actions|
  {
    if actions != [] {
      StepKeeps(s, actions[0]);
      RunKeepsInvariant(Next(s, actions[0]), actions[1..]);
    }
  }

  lemma {:induction false} ReachableInvariant(s: State)
    requires Reachable(s)
    ensures Invariant(s)
  {
    var start, actions :| Starts(start) && IsRun(start, actions) && End(start, actions) == s;
    forall id ensures AllOk(start, id) && KeysSourced(start, id) && CoherentAt(start.vault, start.cache, id) {
    }
    RunKeepsInvariant(start, actions);
  }

  // What callers get

  function Asked(s: State): Profile
    requires s.holder.Checking? || s.holder.Building?
  {
    s.holder.profile
  }

  ghost predicate Replies(s: State, a: Action, runtime: Runtime) {
    Reachable(s) && Enabled(s, a) && Reply(s, a) == Some(Ok(runtime))
  }

  /**
   * In every interleaving a runtime has the requested settings; a hit has the keys stored when the getter
   * took the revision, and while the revision stands any reply has the keys stored now.
   */
  lemma {:induction false} RepliesAreCurrent(s: State, a: Action, runtime: Runtime)
    requires Replies(s, a, runtime)
    ensures runtime.profile.id == Asked(s).id && runtime.profile.settings == Asked(s).settings
    ensures a.Check? ==> runtime.credentials == s.holder.seen
    ensures s.holder.identity.revision == Revision(s.vault, Asked(s).id) ==>
      runtime.credentials == Keys(s.vault, Asked(s).id)
  {
    ReachableInvariant(s);
    assert CoherentAt(s.vault, s.cache, Asked(s).id);
  }

  /** Once a change has invalidated, and until the next one starts to write, only its settings are served. */
  lemma {:induction false} RepliesFollowProfile(s: State, a: Action, runtime: Runtime)
    requires Replies(s, a, runtime)
    requires Asked(s).id in s.cache.expected && !Changing(s, Asked(s).id)
    ensures Asked(s).id in s.profiles && runtime.profile.settings == s.profiles[Asked(s).id].settings
  {
    ReachableInvariant(s);
    assert CoherentAt(s.vault, s.cache, Asked(s).id) && AllOk(s, Asked(s).id);
  }

  /** What the keys unlock is the same in both settings. */
  predicate SameEndpoints(keys: ModelCredentials, one: Settings, other: Settings) {
    && (keys.generation.Some? ==> SameGeneration(one, other))
    && (keys.embedding.Some? ==> SameEmbedding(one, other))
  }

  /** Of two grants of the same key, both are for one endpoint. */
  predicate OneEndpoint(one: Grant, other: Grant) {
    && (one.ForGeneration? && other.ForGeneration? && one.id == other.id && one.key == other.key ==> one == other)
    && (one.ForEmbedding? && other.ForEmbedding? && one.id == other.id && one.key == other.key ==> one == other)
  }

  ghost predicate EachKeyHasOneEndpoint(granted: set<Grant>) {
    forall one, other | one in granted && other in granted :: OneEndpoint(one, other)
  }

  lemma {:induction false} SameEndpointsFit(granted: set<Grant>, id: int, keys: ModelCredentials,
                                            one: Settings, other: Settings)
    requires Fits(granted, id, keys, one)
    ensures SameEndpoints(keys, one, other) ==> Fits(granted, id, keys, other)
    ensures EachKeyHasOneEndpoint(granted) && Fits(granted, id, keys, other) ==> SameEndpoints(keys, one, other)
  {
    if EachKeyHasOneEndpoint(granted) && Fits(granted, id, keys, other) {
      if keys.generation.Some? {
        assert OneEndpoint(ForGeneration(id, keys.generation.value, one.provider, one.baseUrl),
                           ForGeneration(id, keys.generation.value, other.provider, other.baseUrl));
      }
      if keys.embedding.Some? {
        assert OneEndpoint(ForEmbedding(id, keys.embedding.value, one.embeddingUrl.value, one.embeddingModel),
                           ForEmbedding(id, keys.embedding.value, other.embeddingUrl.value, other.embeddingModel));
      }
    }
  }

  /** The reply has no keys, or its endpoints are those of the settings that the keys belong to. */
  predicate Harmless(s: State, runtime: Runtime)
    requires s.holder.Checking? || s.holder.Building?
  {
    var source := Source(s, Asked(s).id, runtime.credentials);
    || runtime.credentials == NO_KEYS
    || (source.Some? && SameEndpoints(runtime.credentials, source.value, Asked(s).settings))
  }

  /**
   * A reply joins each key only with the endpoint it was handed over for, if its endpoints are those of the
   * settings that the keys belong to; when no key was ever handed over for two endpoints, exactly then.
   */
  lemma {:induction false} RepliesKeepKeysWithEndpoints(s: State, a: Action, runtime: Runtime)
    requires Replies(s, a, runtime)
    ensures Harmless(s, runtime) ==> Fits(s.granted, Asked(s).id, runtime.credentials, runtime.profile.settings)
    ensures EachKeyHasOneEndpoint(s.granted) ==>
      (Harmless(s, runtime) <==> Fits(s.granted, Asked(s).id, runtime.credentials, runtime.profile.settings))
  {
    ReachableInvariant(s);
    assert CoherentAt(s.vault, s.cache, Asked(s).id);
    assert Sourced(s, Asked(s).id, runtime.credentials);
    if runtime.credentials != NO_KEYS {
      SameEndpointsFit(s.granted, Asked(s).id, runtime.credentials,
                       Source(s, Asked(s).id, runtime.credentials).value, Asked(s).settings);
    }
  }

  /**
   * With an expectation only a change that writes its keys during the getter can do harm: a hit never does, and
   * neither does a runtime with the keys the getter saw.
   */
  lemma {:induction false} ExpectedRepliesKeepKeys(s: State, a: Action, runtime: Runtime)
    requires Replies(s, a, runtime) && Asked(s).id in s.cache.expected
    ensures a.Check? ==> runtime.credentials == s.holder.seen
    ensures !Fits(s.granted, Asked(s).id, runtime.credentials, runtime.profile.settings) ==>
      && runtime.credentials != s.holder.seen
      && Overtaken(s, Asked(s).id) && runtime.credentials == s.writer.plan.keys
  {
    ReachableInvariant(s);
    assert CoherentAt(s.vault, s.cache, Asked(s).id);
    assert Findable(s, Asked(s).id, s.holder.seen, runtime.credentials);
  }

  /** Between changes, stored keys are ones handed over for the endpoints of the stored profile. */
  lemma {:induction false} StoredKeysFit(s: State, id: int)
    requires Reachable(s) && id in s.vault.models && !(s.writer.Stored? && s.writer.plan.id == id)
    ensures id in s.profiles && Fits(s.granted, id, s.vault.models[id], s.profiles[id].settings)
  {
    ReachableInvariant(s);
    assert AllOk(s, id);
  }

  lemma {:induction false} RunExtends(start: State, actions: seq<Action>, a: Action)
    requires IsRun(start, actions) && Enabled(End(start, actions), a)
    ensures IsRun(start, actions + [a]) && End(start, actions + [a]) == Next(End(start, actions), a)
    decreases |actions|
  {
    if actions == [] {
      assert IsRun(Next(start, a), []);
    } else {
      assert (actions + [a])[1..] == actions[1..] + [a];
      RunExtends(Next(start, actions[0]), actions[1..], a);
    }
  }

  lemma {:induction false} ReachableStep(s: State, a: Action) returns (t: State)
    requires Reachable(s) && Enabled(s, a)
    ensures t == Next(s, a) && Reachable(t)
  {
    t := Next(s, a);
    var start, actions :| Starts(start) && IsRun(start, actions) && End(start, actions) == s;
    RunExtends(start, actions, a);
  }

  // What stays: stored keys, and cached runtimes

  datatype Kind = Generation | Embedding

  function KeyOf(keys: ModelCredentials, kind: Kind): Option<int> {
    if kind.Generation? then keys.generation else keys.embedding
  }

  /** A change that deletes the profile, gives a key of this kind, or moves what such a key unlocks. */
  predicate Rekeys(s: State, operation: Operation, id: int, kind: Kind) {
    match operation
    case Create(_, _, _) => false
    case Delete(other) => other == id
    case Replace(profile, given, givenEmbedding) =>
      && profile.id == id && id in s.profiles
      && match kind
         case Generation => given.Given? || !SameGeneration(s.profiles[id].settings, profile.settings)
         case Embedding => givenEmbedding.Given? || !SameEmbedding(s.profiles[id].settings, profile.settings)
  }

  /** No key store is cleared, and no change of these begins. */
  predicate LeavesKey(s: State, actions: seq<Action>, id: int, kind: Kind)
    requires IsRun(s, actions)
    decreases |actions|
  {
    actions == [] || (
      && !actions[0].ClearKeys? && !(actions[0].Begin? && Rekeys(s, actions[0].operation, id, kind))
      && LeavesKey(Next(s, actions[0]), actions[1..], id, kind))
  }

  /** The key is stored, and a change under way writes it again. */
  predicate Stays(s: State, id: int, kind: Kind, key: int) {
    && KeyOf(Keys(s.vault, id), kind) == Some(key)
    && (!s.writer.Quiet? && s.writer.plan.id == id ==>
          s.writer.plan.profile.Some? && KeyOf(s.writer.plan.keys, kind) == Some(key))
  }

  lemma {:induction false} BeginLeavesKey(s: State, operation: Operation, id: int, kind: Kind, key: int)
    requires Reachable(s) && Enabled(s, Begin(operation)) && Stays(s, id, kind, key) && !Rekeys(s, operation, id, kind)
    ensures Stays(Next(s, Begin(operation)), id, kind, key)
  {
    ReachableInvariant(s);
    assert AllOk(s, id);
  }

  lemma {:induction false} StepLeavesKey(s: State, a: Action, id: int, kind: Kind, key: int)
    requires Enabled(s, a) && Stays(s, id, kind, key) && !a.ClearKeys? && !a.Begin?
    ensures Stays(Next(s, a), id, kind, key)
  {
    if a.WriteKeys? {
      ApplyTells(s.vault, KeyChange(s.writer.plan), id);
    }
  }

  /**
   * A key stored between changes of its profile is still stored after any run in which no change gives another,
   * moves what it unlocks, or deletes the profile, and the store is not cleared.
   */
  lemma {:induction false} StoredKeyStays(s: State, actions: seq<Action>, id: int, kind: Kind, key: int)
    requires Reachable(s) && Stays(s, id, kind, key) && IsRun(s, actions) && LeavesKey(s, actions, id, kind)
    ensures Stays(End(s, actions), id, kind, key)
    decreases |actions|
  {
    if actions != [] {
      if actions[0].Begin? {
        BeginLeavesKey(s, actions[0].operation, id, kind, key);
      } else {
        StepLeavesKey(s, actions[0], id, kind, key);
      }
      var t := ReachableStep(s, actions[0]);
      StoredKeyStays(t, actions[1..], id, kind, key);
    }
  }

  /** The change, carried out without a clearing in between, leaves no key or the given one. */
  lemma {:induction false} RekeyedKeyGoes(s: State, operation: Operation, id: int, kind: Kind)
    requires Reachable(s) && Enabled(s, Begin(operation)) && Rekeys(s, operation, id, kind)
    ensures
      var t := Next(Next(Next(s, Begin(operation)), WriteProfile), WriteKeys);
      var given := if !operation.Replace? then Omitted
                   else if kind.Generation? then operation.given else operation.givenEmbedding;
      && (given.Omitted? ==> KeyOf(Keys(t.vault, id), kind) == None)
      && (given.Given? && (kind.Generation? || operation.profile.settings.embeddingUrl.Some?) ==>
            KeyOf(Keys(t.vault, id), kind) == given.key)
  {
    ReachableInvariant(s);
    assert AllOk(s, id);
    var plan := Decide(s, operation);
    ApplyTells(s.vault, KeyChange(plan), id);
  }

  /** A getter that builds has taken the old runtime out. */
  predicate Emptied(s: State) {
    s.holder.Loading? || s.holder.Building? ==>
      s.holder.profile.id !in s.cache.runtimes && s.holder.profile.id !in s.cache.identities
  }

  lemma {:induction false} EmptiedKept(s: State, actions: seq<Action>)
    requires Emptied(s) && IsRun(s, actions)
    ensures Emptied(End(s, actions))
    decreases |actions|
  {
    if actions != [] {
      EmptiedKept(Next(s, actions[0]), actions[1..]);
    }
  }

  lemma {:induction false} ReachableEmptied(s: State)
    requires Reachable(s)
    ensures Emptied(s)
  {
    var start, actions :| Starts(start) && IsRun(start, actions) && End(start, actions) == s;
    EmptiedKept(start, actions);
  }

  /** The cached runtime of the profile's id is filed under this identity. */
  predicate Filed(c: Cache, id: int, runtime: Runtime, identity: Identity) {
    && id in c.runtimes && c.runtimes[id] == runtime
    && id in c.identities && c.identities[id] == identity
  }

  /** An announced change gave the id another identity. */
  predicate Differs(c: Cache, id: int, identity: Identity) {
    id in c.expected && c.expected[id] != identity
  }

  /** What takes the runtime filed under an identity out of the cache. */
  predicate Removes(s: State, a: Action, id: int, identity: Identity)
    requires Enabled(s, a)
  {
    || a.CloseCache? || (a.FinishInvalidate? && s.holder.id == id)
    || (a.Check? && s.holder.profile.id == id && s.holder.identity != identity
        && !Differs(s.cache, id, s.holder.identity))
  }

  predicate LeavesAlone(s: State, actions: seq<Action>, id: int, identity: Identity)
    requires IsRun(s, actions)
    decreases |actions|
  {
    actions == [] || (!Removes(s, actions[0], id, identity)
                      && LeavesAlone(Next(s, actions[0]), actions[1..], id, identity))
  }

  /** A cached runtime stays in the cache unless one of these steps takes it out. */
  lemma {:induction false} CachedUntilRemoved(s: State, a: Action, id: int, runtime: Runtime, identity: Identity)
    requires Reachable(s) && Enabled(s, a) && Filed(s.cache, id, runtime, identity)
    ensures if Removes(s, a, id, identity) then id !in Next(s, a).cache.runtimes
            else Filed(Next(s, a).cache, id, runtime, identity)
  {
    ReachableEmptied(s);
  }

  /** After any run without such a step a getter that took this identity is answered with that runtime at once. */
  lemma {:induction false} CachedIsServed(s: State, actions: seq<Action>, id: int, runtime: Runtime, identity: Identity)
    requires Reachable(s) && IsRun(s, actions) && LeavesAlone(s, actions, id, identity)
    requires Filed(s.cache, id, runtime, identity)
    ensures
      var t := End(s, actions);
      && Filed(t.cache, id, runtime, identity)
      && (t.holder.Checking? && t.holder.profile.id == id && t.holder.identity == identity
          && !Differs(t.cache, id, identity) ==>
            Reply(t, Check) == Some(Ok(runtime)) && Next(t, Check) == t.(holder := Free))
    decreases |actions|
  {
    if actions != [] {
      CachedUntilRemoved(s, actions[0], id, runtime, identity);
      var t := ReachableStep(s, actions[0]);
      CachedIsServed(t, actions[1..], id, runtime, identity);
    }
  }

  function ByGeneration(key: int): ModelCredentials {
    ModelCredentials(Some(key), None)
  }

  /** The profile has been created with the key, and nothing is going on. */
  function AtRest(profile: Profile, key: int): State {
    State(map[profile.id := profile], Vault(map[profile.id := ByGeneration(key)], map[profile.id := 1], map[]),
          Cache(map[], map[], map[profile.id := Identity(profile.settings, 1)]), Quiet, Free,
          Grants(profile, Some(key), None))
  }

  lemma {:induction false} ProfileWritten(profile: Profile, key: int) returns (s: State)
    ensures Reachable(s)
    ensures s == State(map[profile.id := profile], Vault(map[], map[], map[]), Cache(map[], map[], map[]),
                       Stored(Plan(profile.id, None, Some(profile), ByGeneration(key))), Free,
                       Grants(profile, Some(key), None))
  {
    s := State(map[], Vault(map[], map[], map[]), Cache(map[], map[], map[]), Quiet, Free, {});
    assert IsRun(s, []) && End(s, []) == s;
    s := ReachableStep(s, Begin(Create(profile, Some(key), None)));
    s := ReachableStep(s, WriteProfile);
    assert s.granted == Grants(profile, Some(key), None);
  }

  lemma {:induction false} AtRestReachable(profile: Profile, key: int)
    ensures Reachable(AtRest(profile, key))
  {
    var s := ProfileWritten(profile, key);
    s := ReachableStep(s, WriteKeys);
    assert s.vault == AtRest(profile, key).vault;
    s := ReachableStep(s, StartInvalidate);
    s := ReachableStep(s, FinishInvalidate);
    assert s.cache.runtimes == map[] && s.cache.identities == map[];
  }

  /** A getter of the old profile has missed the cache while a replacement is planned. */
  lemma {:induction false} GetterMisses(earlier: Profile, later: Profile, key: int, newKey: int) returns (s: State)
    requires earlier.id == later.id
    ensures Reachable(s) && earlier.id in s.profiles && s.cache.expected == AtRest(earlier, key).cache.expected
    ensures s.writer == Planned(Plan(earlier.id, Some(earlier.settings), Some(later), ByGeneration(newKey)))
    ensures s.holder == Loading(earlier, Identity(earlier.settings, 1), ByGeneration(key))
    ensures s.granted == Grants(earlier, Some(key), None) + Grants(later, Some(newKey), None)
  {
    AtRestReachable(earlier, key);
    s := ReachableStep(AtRest(earlier, key), Begin(Replace(later, Given(Some(newKey)), Omitted)));
    s := ReachableStep(s, StartGet(earlier));
    s := ReachableStep(s, Check);
  }

  predicate OtherEndpoint(one: Profile, other: Profile) {
    one.id == other.id && (one.settings.provider != other.settings.provider
                           || one.settings.baseUrl != other.settings.baseUrl)
  }

  /**
   * So whenever a replacement brings a new key for another endpoint, there is a run in which a getter of the
   * old profile joins the new key with the old endpoint.
   */
  lemma {:induction false} KeysMayMeetAnOldEndpoint(earlier: Profile, later: Profile, key: int, newKey: int)
      returns (s: State, a: Action, runtime: Runtime)
    requires OtherEndpoint(earlier, later) && key != newKey
    ensures Replies(s, a, runtime) && Asked(s) == earlier && earlier.id in s.cache.expected
    ensures runtime == Runtime(earlier, ByGeneration(newKey))
    ensures !Fits(s.granted, earlier.id, runtime.credentials, earlier.settings)
  {
    s := GetterMisses(earlier, later, key, newKey);
    s := ReachableStep(s, WriteProfile);
    s := ReachableStep(s, WriteKeys);
    s := ReachableStep(s, LoadKeys);
    a, runtime := FinishGet(Made(earlier)), Runtime(earlier, ByGeneration(newKey));
  }

  /** The first replacement after a start, when nothing is expected yet, has written the new key. */
  lemma {:induction false} FirstReplacementKeyed(earlier: Profile, later: Profile, newKey: int) returns (s: State)
    requires earlier.id == later.id
    ensures Reachable(s) && s.holder.Free? && s.cache == Cache(map[], map[], map[])
    ensures s.vault.models == map[earlier.id := ByGeneration(newKey)]
    ensures s.granted == Grants(later, Some(newKey), None)
  {
    s := State(map[earlier.id := earlier], Vault(map[], map[], map[]), Cache(map[], map[], map[]), Quiet, Free, {});
    assert IsRun(s, []) && End(s, []) == s;
    s := ReachableStep(s, Begin(Replace(later, Given(Some(newKey)), Omitted)));
    assert s.granted == Grants(later, Some(newKey), None);
    s := ReachableStep(s, WriteProfile);
    s := ReachableStep(s, WriteKeys);
  }

  /** A getter of the old profile is about to build with the new key. */
  lemma {:induction false} UnexpectedGetter(earlier: Profile, later: Profile, newKey: int) returns (s: State)
    requires earlier.id == later.id
    ensures Reachable(s) && s.cache == Cache(map[], map[], map[])
    ensures s.vault.models == map[earlier.id := ByGeneration(newKey)]
    ensures s.holder == Building(earlier, Identity(earlier.settings, Revision(s.vault, earlier.id)),
                                 ByGeneration(newKey), ByGeneration(newKey))
    ensures s.granted == Grants(later, Some(newKey), None)
  {
    s := FirstReplacementKeyed(earlier, later, newKey);
    s := ReachableStep(s, StartGet(earlier));
    s := ReachableStep(s, Check);
    s := ReachableStep(s, LoadKeys);
  }

  /**
   * Without an expectation the getter need not be overtaken: one that starts after the write, for the profile
   * read before it, joins the key it sees with the old endpoint, and the next such getter is served the same.
   */
  lemma {:induction false} UnexpectedKeysMeetAnOldEndpoint(earlier: Profile, later: Profile, newKey: int)
      returns (s: State, a: Action, runtime: Runtime, again: State)
    requires OtherEndpoint(earlier, later)
    ensures Replies(s, a, runtime) && Asked(s) == earlier && earlier.id !in s.cache.expected
    ensures runtime == Runtime(earlier, ByGeneration(newKey)) && runtime.credentials == s.holder.seen
    ensures EachKeyHasOneEndpoint(s.granted)
    ensures !Fits(s.granted, earlier.id, runtime.credentials, earlier.settings)
    ensures Replies(again, Check, runtime) && Asked(again) == earlier && again.granted == s.granted
  {
    s := UnexpectedGetter(earlier, later, newKey);
    a, runtime := FinishGet(Made(earlier)), Runtime(earlier, ByGeneration(newKey));
    again := ReachableStep(s, a);
    again := ReachableStep(again, StartGet(earlier));
  }
}
