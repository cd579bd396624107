/** Every interleaving of datasource profile changes and getters. */
module DatasourceRuns {
  // The password is not part of a runtime's identity, so it is the order of the writes (password first, then
  // invalidate) that keeps the cache right.

  import opened CredentialStore
  import opened DatasourceRegistry
  import opened DatasourceService
  import opened Wrappers

  datatype Operation =
    | Create(profile: Profile, password: Option<int>)
    | Replace(profile: Profile, given: Argument)
    | Delete(id: int)

  /** A change has accepted this password together with this configuration. */
  datatype Grant = Grant(id: int, password: int, identity: Identity)

  /** before: the identity stored before the change. */
  datatype Writer =
    | Quiet
    | Planned(plan: Plan, before: Option<Identity>)
    | Stored(plan: Plan, before: Option<Identity>)
    | Keyed(plan: Plan, before: Option<Identity>)

  /** The registry lock is free or held by a getter that is building, before or after it has a connector. */
  datatype Holder =
    | Free
    | Building(profile: Profile, password: int)
    | Connecting(profile: Profile, password: int, connector: int)

  datatype State = State(
    profiles: map<int, Profile>, vault: Vault, cache: Cache, writer: Writer, holder: Holder, granted: set<Grant>)

  datatype Action =
    | Begin(operation: Operation)
    | Abandon
    | WriteProfile
    | WritePassword
    | Invalidate
    | Leave
    | ClearPasswords
    | CloseCache
    | Get(profile: Profile)
    | Connect
    | Finish(build: Build)

  const NO_CACHE := Cache(map[], map[], Links(0, multiset{}))

  predicate Starts(s: State) {
    && s.vault.passwords == map[] && s.cache == NO_CACHE && s.writer.Quiet? && s.holder.Free?
    && s.granted == {}
    && forall id | id in s.profiles :: s.profiles[id].id == id
  }

  function Decide(s: State, operation: Operation): Result<Plan, ServiceError> {
    match operation
    case Create(profile, password) =>
      if profile.id in s.profiles then Err(AlreadyExists) else DecideCreate(profile, password)
    case Replace(profile, given) =>
      if profile.id !in s.profiles then Err(NotFound)
      else DecideReplace(s.profiles[profile.id], profile, Password(s.vault, profile.id), given)
    case Delete(id) => if id !in s.profiles then Err(NotFound) else Ok(DecideDelete(id))
  }

  /**
   * The registry is locked from the start of a getter to its end, so that a getter that does not build
   * can be one step, taken when it reads the password.
   */
  predicate Enabled(s: State, a: Action) {
    match a
    case Begin(operation) => s.writer.Quiet? && Decide(s, operation).Ok?
    case Abandon => s.writer.Planned?
    case WriteProfile => s.writer.Planned?
    case WritePassword => s.writer.Stored?
    case Invalidate => s.writer.Keyed? && s.writer.plan.invalidates && s.holder.Free?
    case Leave => s.writer.Keyed? && !s.writer.plan.invalidates
    case ClearPasswords => true
    case CloseCache => s.holder.Free?
    case Get(_) => s.holder.Free?
    case Connect => s.holder.Building?
    case Finish(build) =>
      if build.Failed? && !build.connected then s.holder.Building? else s.holder.Connecting?
  }

  function StoredIdentity(s: State, id: int): Option<Identity> {
    if id in s.profiles then Some(IdentityOf(s.profiles[id].config)) else None
  }

  /** What a replace that leaves the password out carries over to its configuration counts as accepted, too. */
  function Granted(plan: Plan): set<Grant> {
    if plan.profile.Some? && plan.password.Some?
    then {Grant(plan.id, plan.password.value, IdentityOf(plan.profile.value.config))} else {}
  }

  function Next(s: State, a: Action): State
    requires Enabled(s, a)
  {
    match a
    case Begin(operation) =>
      var plan := Decide(s, operation).value;
      s.(writer := Planned(plan, StoredIdentity(s, plan.id)), granted := s.granted + Granted(plan))
    case Abandon => s.(writer := Quiet)
    case WriteProfile =>
      s.(profiles := StoreProfile(s.profiles, s.writer.plan), writer := Stored(s.writer.plan, s.writer.before))
    case WritePassword =>
      s.(vault := Apply(s.vault, PutPassword(s.writer.plan.id, s.writer.plan.password)),
         writer := Keyed(s.writer.plan, s.writer.before))
    case Invalidate => s.(cache := Expect(s.cache, s.writer.plan.id, Expectation(s.writer.plan)), writer := Quiet)
    case Leave => s.(writer := Quiet)
    case ClearPasswords => s.(vault := Apply(s.vault, ClearAll))
    case CloseCache => s.(cache := CloseAll(s.cache))
    case Get(profile) =>
      var password := Password(s.vault, profile.id);
      s.(cache := Looked(s.cache, profile, password),
         holder := match LookUp(s.cache, profile, password)
           case Reply(_) => Free
           case MustBuild(secret) => Building(profile, secret))
    case Connect =>
      s.(cache := Connected(s.cache), holder := Connecting(s.holder.profile, s.holder.password, s.cache.links.created))
    case Finish(build) =>
      if s.holder.Building? then s.(holder := Free)
      else
        var h := s.holder;
        s.(cache := Settled(s.cache, h.profile, h.password, h.connector, build), holder := Free)
  }

  /** What the getter's caller receives at this step, if it is the last of the getter. */
  function ReplyAt(s: State, a: Action): Option<Result<Runtime, Failure>>
    requires Enabled(s, a)
  {
    match a
    case Get(profile) => (
        match LookUp(s.cache, profile, Password(s.vault, profile.id))
        case Reply(result) => Some(result)
        case MustBuild(_) => None)
    case Finish(build) =>
      if s.holder.Building? then Some(Err(build.failure))
      else Some(Outcome(s.holder.profile, s.holder.password, s.holder.connector, build))
    case _ => None
  }

  predicate IsRun(s: State, actions: seq<Action>)
    decreases |actions|
  {
    actions == [] || (Enabled(s, actions[0]) && IsRun(Next(s, actions[0]), actions[1..]))
  }

  function End(s: State, actions: seq<Action>): State
    requires IsRun(s, actions)
    decreases |actions|
  {
    if actions == [] then s else End(Next(s, actions[0]), actions[1..])
  }

  ghost predicate Reachable(s: State) {
    exists start, actions :: Starts(start) && IsRun(start, actions) && End(start, actions) == s
  }

  // What holds in every reachable state

  predicate Changing(s: State, id: int) {
    (s.writer.Stored? || s.writer.Keyed?) && s.writer.plan.id == id
  }

  /** The new password is written and the cache not yet told. */
  predicate Unsettled(s: State, id: int) {
    s.writer.Keyed? && s.writer.plan.id == id && s.writer.plan.invalidates && !s.writer.plan.creates
  }

  /** A getter is building for id. */
  predicate Builds(s: State, id: int) {
    !s.holder.Free? && s.holder.profile.id == id
  }

  /** The connector that a getter has created and not yet cached or closed. */
  function Hand(s: State): Option<int> {
    if s.holder.Connecting? then Some(s.holder.connector) else None
  }

  predicate Untouched(s: State, id: int) {
    && id !in s.vault.passwords && id !in s.cache.runtimes && id !in s.cache.expected
    && !Builds(s, id)
  }

  /** Every runtime of id, cached or being built, has this password. */
  predicate Agrees(s: State, id: int, password: int) {
    && (id in s.cache.runtimes ==> s.cache.runtimes[id].password == password)
    && (Builds(s, id) ==> s.holder.password == password)
  }

  predicate ProfileOk(s: State, id: int) {
    && (id in s.profiles ==> s.profiles[id].id == id)
    && (id !in s.profiles && !Changing(s, id) ==> Untouched(s, id))
  }

  predicate PasswordOk(s: State, id: int) {
    id in s.vault.passwords ==> Agrees(s, id, s.vault.passwords[id]) || Unsettled(s, id)
  }

  /** The identity that a password belongs to: that of the change under way if it wrote it, or the one before. */
  function Source(s: State, id: int, password: int): Option<Identity> {
    if s.writer.Keyed? && s.writer.plan.id == id && s.writer.plan.profile.Some?
       && s.writer.plan.password == Some(password)
    then Some(IdentityOf(s.writer.plan.profile.value.config))
    else if Changing(s, id) then s.writer.before
    else StoredIdentity(s, id)
  }

  predicate Sourced(s: State, id: int, password: int) {
    Source(s, id, password).Some? && Grant(id, password, Source(s, id, password).value) in s.granted
  }

  /** Stored, cached and in use: every password of id was accepted with the identity it belongs to. */
  predicate SourcesOk(s: State, id: int) {
    && (id in s.vault.passwords ==> Sourced(s, id, s.vault.passwords[id]))
    && (id in s.cache.runtimes ==> Sourced(s, id, s.cache.runtimes[id].password))
    && (Builds(s, id) ==> Sourced(s, id, s.holder.password))
  }

  predicate ExpectedOk(s: State, id: int) {
    id in s.cache.expected && !(Changing(s, id) && s.writer.plan.invalidates) ==>
      id in s.profiles && s.cache.expected[id] == IdentityOf(s.profiles[id].config)
  }

  predicate AllOk(s: State, id: int) {
    ProfileOk(s, id) && PasswordOk(s, id) && ExpectedOk(s, id)
  }

  /** What a plan that will not invalidate takes for granted until it is carried out. */
  predicate QuietPlanOk(s: State, plan: Plan) {
    && plan.profile.Some?
    && (plan.creates && !s.writer.Keyed? ==> Untouched(s, plan.id))
    && (plan.creates ==> plan.id !in s.cache.expected)
    && (!plan.creates && plan.password.Some? ==>
          && Agrees(s, plan.id, plan.password.value)
          && (plan.id in s.vault.passwords ==> s.vault.passwords[plan.id] == plan.password.value))
    && (!plan.creates && plan.password.None? ==> plan.id !in s.vault.passwords)
    && (!plan.creates && s.writer.Planned? ==>
          plan.id in s.profiles && s.profiles[plan.id].config == plan.profile.value.config)
  }

  /** What the writer's plan says about the identities before and after it. */
  predicate BeforeOk(s: State) {
    s.writer.Quiet? || (
      var plan := s.writer.plan;
      && Granted(plan) <= s.granted
      && (s.writer.Planned? ==> s.writer.before == StoredIdentity(s, plan.id))
      && (!plan.invalidates && plan.profile.Some? ==>
            s.writer.before == if plan.creates then None else Some(IdentityOf(plan.profile.value.config)))
      && (s.writer.Keyed? && plan.id in s.vault.passwords ==> plan.password == Some(s.vault.passwords[plan.id])))
  }

  predicate WriterOk(s: State) {
    s.writer.Quiet? || (
      var plan := s.writer.plan;
      && (plan.profile.Some? ==> plan.profile.value.id == plan.id)
      && (plan.profile.None? ==> plan.password.None? && plan.invalidates)
      && (plan.creates ==> !plan.invalidates)
      && (!s.writer.Planned? && plan.profile.Some? ==>
            plan.id in s.profiles && s.profiles[plan.id] == plan.profile.value)
      && (!s.writer.Planned? && plan.profile.None? ==> plan.id !in s.profiles)
      && (s.writer.Keyed? && plan.profile.None? ==> plan.id !in s.vault.passwords)
      && (!plan.invalidates ==> QuietPlanOk(s, plan)))
  }

  predicate HolderOk(s: State) {
    !s.holder.Free? ==>
      var id := s.holder.profile.id;
      && id !in s.cache.runtimes
      && (id in s.cache.expected ==> s.cache.expected[id] == IdentityOf(s.holder.profile.config))
  }

  ghost predicate CacheInvariant(s: State) {
    OwnedBut(s.cache, Hand(s)) && (forall id :: AllOk(s, id)) && WriterOk(s) && HolderOk(s)
  }

  ghost predicate SourceInvariant(s: State) {
    (forall id :: SourcesOk(s, id)) && BeforeOk(s)
  }

  ghost predicate Invariant(s: State) {
    CacheInvariant(s) && SourceInvariant(s)
  }

  lemma {:induction false} BeginKeeps(s: State, operation: Operation)
    requires CacheInvariant(s) && Enabled(s, Begin(operation))
    ensures CacheInvariant(Next(s, Begin(operation)))
  {
    var t := Next(s, Begin(operation));
    forall id ensures AllOk(t, id) {
      assert AllOk(s, id);
    }
    assert AllOk(s, t.writer.plan.id);
  }

  lemma {:induction false} WriterKeeps(s: State, a: Action)
    requires CacheInvariant(s) && Enabled(s, a) && (a.Abandon? || a.WriteProfile? || a.Leave?)
    ensures CacheInvariant(Next(s, a))
  {
    var t := Next(s, a);
    forall id ensures AllOk(t, id) {
      assert AllOk(s, id);
    }
  }

  lemma {:induction false} PasswordKeeps(s: State, a: Action)
    requires CacheInvariant(s) && Enabled(s, a) && (a.WritePassword? || a.ClearPasswords?)
    ensures CacheInvariant(Next(s, a))
  {
    var t := Next(s, a);
    forall id ensures AllOk(t, id) {
      assert AllOk(s, id);
    }
  }

  lemma {:induction false} InvalidateKeeps(s: State)
    requires CacheInvariant(s) && Enabled(s, Invalidate)
    ensures CacheInvariant(Next(s, Invalidate))
  {
    var t := Next(s, Invalidate);
    ExpectOwned(s.cache, s.writer.plan.id, Expectation(s.writer.plan));
    forall id ensures AllOk(t, id) {
      assert AllOk(s, id);
    }
  }

  lemma {:induction false} CloseKeeps(s: State)
    requires CacheInvariant(s) && Enabled(s, CloseCache)
    ensures CacheInvariant(Next(s, CloseCache))
  {
    var t := Next(s, CloseCache);
    CloseAllOwned(s.cache);
    forall id ensures AllOk(t, id) {
      assert AllOk(s, id);
    }
  }

  lemma {:induction false} GetKeeps(s: State, profile: Profile)
    requires CacheInvariant(s) && Enabled(s, Get(profile))
    ensures CacheInvariant(Next(s, Get(profile)))
  {
    var t := Next(s, Get(profile));
    EvictOwned(s.cache, profile.id);
    forall id ensures AllOk(t, id) {
      assert AllOk(s, id);
    }
  }

  lemma {:induction false} ConnectKeeps(s: State)
    requires CacheInvariant(s) && Enabled(s, Connect)
    ensures CacheInvariant(Next(s, Connect))
  {
    var t := Next(s, Connect);
    ConnectedOwned(s.cache);
    forall id ensures AllOk(t, id) {
      assert AllOk(s, id);
    }
  }

  lemma {:induction false} FinishKeeps(s: State, build: Build)
    requires CacheInvariant(s) && Enabled(s, Finish(build))
    ensures CacheInvariant(Next(s, Finish(build)))
  {
    var t := Next(s, Finish(build));
    if s.holder.Connecting? {
      SettledOwned(s.cache, s.holder.profile, s.holder.password, s.holder.connector, build);
    }
    forall id ensures AllOk(t, id) {
      assert AllOk(s, id);
    }
  }

  lemma {:induction false} CacheKept(s: State, a: Action)
    requires CacheInvariant(s) && Enabled(s, a)
    ensures CacheInvariant(Next(s, a))
  {
    match a
    case Begin(operation) => BeginKeeps(s, operation);
    case Abandon => WriterKeeps(s, a);
    case WriteProfile => WriterKeeps(s, a);
    case WritePassword => PasswordKeeps(s, a);
    case Invalidate => InvalidateKeeps(s);
    case Leave => WriterKeeps(s, a);
    case ClearPasswords => PasswordKeeps(s, a);
    case CloseCache => CloseKeeps(s);
    case Get(profile) => GetKeeps(s, profile);
    case Connect => ConnectKeeps(s);
    case Finish(build) => FinishKeeps(s, build);
  }

  // Each password stays with the identity it belongs to; for one id at a time

  predicate SourceKnown(s: State, id: int) {
    AllOk(s, id) && SourcesOk(s, id) && WriterOk(s) && BeforeOk(s)
  }

  lemma {:induction false} WriterSources(s: State, a: Action, id: int)
    requires SourceKnown(s, id) && Enabled(s, a) && (a.Begin? || a.Abandon? || a.WriteProfile? || a.Leave?)
    ensures SourcesOk(Next(s, a), id)
  {
  }

  lemma {:induction false} PasswordSources(s: State, a: Action, id: int)
    requires SourceKnown(s, id) && Enabled(s, a) && (a.WritePassword? || a.ClearPasswords?)
    ensures SourcesOk(Next(s, a), id)
  {
  }

  lemma {:induction false} CacheSources(s: State, a: Action, id: int)
    requires SourceKnown(s, id) && Enabled(s, a) && (a.Invalidate? || a.CloseCache?)
    ensures SourcesOk(Next(s, a), id)
  {
  }

  lemma {:induction false} GetSources(s: State, profile: Profile, id: int)
    requires SourceKnown(s, id) && Enabled(s, Get(profile))
    ensures SourcesOk(Next(s, Get(profile)), id)
  {
  }

  lemma {:induction false} ConnectSources(s: State, id: int)
    requires SourceKnown(s, id) && Enabled(s, Connect)
    ensures SourcesOk(Next(s, Connect), id)
  {
  }

  lemma {:induction false} FinishSources(s: State, build: Build, id: int)
    requires SourceKnown(s, id) && Enabled(s, Finish(build))
    ensures SourcesOk(Next(s, Finish(build)), id)
  {
    var t := Next(s, Finish(build));
    forall password ensures Sourced(t, id, password) <==> Sourced(s, id, password) {
    }
  }

  lemma {:induction false} BeforeKept(s: State, a: Action)
    requires WriterOk(s) && BeforeOk(s) && Enabled(s, a)
    ensures BeforeOk(Next(s, a))
  {
  }

  lemma {:induction false} SourcesKept(s: State, a: Action)
    requires Invariant(s) && Enabled(s, a)
    ensures SourceInvariant(Next(s, a))
  {
    BeforeKept(s, a);
    forall id ensures SourcesOk(Next(s, a), id) {
      assert AllOk(s, id) && SourcesOk(s, id);
      if a.Begin? || a.Abandon? || a.WriteProfile? || a.Leave? {
        WriterSources(s, a, id);
      } else if a.WritePassword? || a.ClearPasswords? {
        PasswordSources(s, a, id);
      } else if a.Invalidate? || a.CloseCache? {
        CacheSources(s, a, id);
      } else if a.Get? {
        GetSources(s, a.profile, id);
      } else if a.Connect? {
        ConnectSources(s, id);
      } else {
        FinishSources(s, a.build, id);
      }
    }
  }

  lemma {:induction false} StepKeeps(s: State, a: Action)
    requires Invariant(s) && Enabled(s, a)
    ensures Invariant(Next(s, a))
  {
    CacheKept(s, a);
    SourcesKept(s, a);
  }

  lemma {:induction false} RunKeepsInvariant(s: State, actions: seq<Action>)
    requires Invariant(s) && IsRun(s, actions)
    ensures Invariant(End(s, actions))
    decreases |actions|
  {
    if actions != [] {
      StepKeeps(s, actions[0]);
      RunKeepsInvariant(Next(s, actions[0]), actions[1..]);
    }
  }

  lemma {:induction false} ReachableInvariant(s: State)
    requires Reachable(s)
    ensures Invariant(s)
  {
    var start, actions :| Starts(start) && IsRun(start, actions) && End(start, actions) == s;
    forall id ensures AllOk(start, id) && SourcesOk(start, id) && OwnedAt(start.cache, id) {
    }
    forall id, other ensures Apart(start.cache, id, other) {
    }
    forall connector ensures ClosedOnce(start.cache.links, connector) && Accounted(start.cache, connector, None) {
    }
    RunKeepsInvariant(start, actions);
  }

  // Main results

  /** A cached password differs from the stored one only while a replace has yet to invalidate. */
  lemma {:induction false} StalePasswordMeansUnsettled(s: State, id: int)
    requires Reachable(s) && id in s.cache.runtimes && id in s.vault.passwords
    requires s.cache.runtimes[id].password != s.vault.passwords[id]
    ensures Unsettled(s, id)
  {
    ReachableInvariant(s);
    assert AllOk(s, id);
  }

  ghost predicate BothOwn(c: Cache, id: int, other: int) {
    id in c.runtimes && other in c.runtimes && c.runtimes[id].connector == c.runtimes[other].connector
  }

  /**
   * Each connector is closed once, or open and cached under one id, or open and in the hand of the getter that
   * builds; none leaks and none is closed twice.
   */
  lemma {:induction false} ConnectorsAccountedFor(s: State, connector: int)
    requires Reachable(s) && 0 <= connector < s.cache.links.created
    ensures s.cache.links.closed[connector]
      + (if Cached(s.cache, connector) then 1 else 0) + (if Hand(s) == Some(connector) then 1 else 0) == 1
    ensures forall id, other | BothOwn(s.cache, id, other) :: id == other
  {
    ReachableInvariant(s);
    assert ClosedOnce(s.cache.links, connector) && Accounted(s.cache, connector, Hand(s));
    if Cached(s.cache, connector) {
      var id :| id in s.cache.runtimes && s.cache.runtimes[id].connector == connector;
      assert OwnedAt(s.cache, id);
    }
    forall id, other | BothOwn(s.cache, id, other) ensures id == other {
      assert Apart(s.cache, id, other);
    }
  }

  function Asked(s: State, a: Action): Profile
    requires Enabled(s, a) && (a.Get? || a.Finish?)
  {
    if a.Get? then a.profile else s.holder.profile
  }

  ghost predicate Replies(s: State, a: Action, runtime: Runtime) {
    Reachable(s) && Enabled(s, a) && ReplyAt(s, a) == Some(Ok(runtime))
  }

  /**
   * A runtime that is handed out matches the request, is open and cached, and has the stored password unless a
   * change is under way.
   */
  lemma {:induction false} RepliesMatch(s: State, a: Action, runtime: Runtime)
    requires Replies(s, a, runtime)
    ensures
      var id, t := Asked(s, a).id, Next(s, a);
      && IdentityOf(runtime.profile.config) == IdentityOf(Asked(s, a).config)
      && id in t.cache.runtimes && t.cache.runtimes[id] == runtime && Open(t.cache.links, runtime.connector)
      && (id in s.vault.passwords && !Unsettled(s, id) ==> runtime.password == s.vault.passwords[id])
      && (a.Get? ==> id in s.vault.passwords)
  {
    ReachableInvariant(s);
    StepKeeps(s, a);
    assert AllOk(s, Asked(s, a).id) && OwnedAt(s.cache, Asked(s, a).id) && OwnedAt(Next(s, a).cache, Asked(s, a).id);
  }

  /**
   * Only a profile that is stored, or being changed, gets a runtime; one whose change was announced gets no
   * other configuration.
   */
  lemma {:induction false} RepliesFollowProfile(s: State, a: Action, runtime: Runtime)
    requires Replies(s, a, runtime) && !Changing(s, Asked(s, a).id)
    ensures Asked(s, a).id in s.profiles
    ensures Asked(s, a).id in s.cache.expected ==>
              IdentityOf(runtime.profile.config) == IdentityOf(s.profiles[Asked(s, a).id].config)
  {
    ReachableInvariant(s);
    assert AllOk(s, Asked(s, a).id);
  }

  // When a cached runtime is served

  /** A getter of the id finds no password, or asks for another identity, and no announced change refuses it. */
  predicate Replaces(s: State, profile: Profile, id: int) {
    && profile.id == id && !Differs(s.cache, profile)
    && (id !in s.vault.passwords || !Holds(s.cache, profile))
  }

  /** What takes the runtime of id out of the cache. */
  predicate Removes(s: State, a: Action, id: int)
    requires Enabled(s, a)
  {
    a.CloseCache? || (a.Invalidate? && s.writer.plan.id == id) || (a.Get? && Replaces(s, a.profile, id))
  }

  lemma {:induction false} StaysOrGoes(s: State, a: Action, id: int)
    requires HolderOk(s) && Enabled(s, a) && id in s.cache.runtimes && !a.Get? && !a.CloseCache?
    ensures
      var c, d := s.cache, Next(s, a).cache;
      if Removes(s, a, id) then id !in d.runtimes && c.runtimes[id].connector in d.links.closed
      else id in d.runtimes && d.runtimes[id] == c.runtimes[id]
  {
  }

  lemma {:induction false} StaysOrGoesAtGet(s: State, profile: Profile, id: int)
    requires Enabled(s, Get(profile)) && id in s.cache.runtimes
    ensures
      var c, d := s.cache, Next(s, Get(profile)).cache;
      if Removes(s, Get(profile), id) then id !in d.runtimes && c.runtimes[id].connector in d.links.closed
      else id in d.runtimes && d.runtimes[id] == c.runtimes[id]
  {
    IdentityTells(s.cache.runtimes[id].profile.config, profile.config);
  }

  /** A cached runtime stays in the cache, open, unless one of these steps takes it out and closes it. */
  lemma {:induction false} CachedUntilRemoved(s: State, a: Action, id: int)
    requires Reachable(s) && Enabled(s, a) && id in s.cache.runtimes
    ensures
      var runtime, t := s.cache.runtimes[id], Next(s, a);
      if Removes(s, a, id) then id !in t.cache.runtimes && t.cache.links.closed[runtime.connector] == 1
      else id in t.cache.runtimes && t.cache.runtimes[id] == runtime && Open(t.cache.links, runtime.connector)
  {
    ReachableInvariant(s);
    StepKeeps(s, a);
    assert OwnedAt(Next(s, a).cache, id) && ClosedOnce(Next(s, a).cache.links, s.cache.runtimes[id].connector);
    if a.Get? {
      StaysOrGoesAtGet(s, a.profile, id);
    } else if a.CloseCache? {
      assert s.cache.runtimes[id].connector in Connectors(s.cache.runtimes);
    } else {
      StaysOrGoes(s, a, id);
    }
  }

  predicate LeavesAlone(s: State, actions: seq<Action>, id: int)
    requires IsRun(s, actions)
    decreases |actions|
  {
    actions == [] || (!Removes(s, actions[0], id) && LeavesAlone(Next(s, actions[0]), actions[1..], id))
  }

  /**
   * After any run without such a step, a getter of the same target is answered with that runtime at once; no
   * connector is created or closed, and nothing else changes.
   */
  lemma {:induction false} CachedIsServed(s: State, actions: seq<Action>, profile: Profile)
    requires Reachable(s) && IsRun(s, actions) && LeavesAlone(s, actions, profile.id) && Holds(s.cache, profile)
    ensures
      var t := End(s, actions);
      && Holds(t.cache, profile) && t.cache.runtimes[profile.id] == s.cache.runtimes[profile.id]
      && (Enabled(t, Get(profile)) && profile.id in t.vault.passwords && !Differs(t.cache, profile) ==>
            && ReplyAt(t, Get(profile)) == Some(Ok(s.cache.runtimes[profile.id]))
            && Next(t, Get(profile)) == t)
    decreases |actions|
  {
    if actions == [] {
      IdentityTells(s.cache.runtimes[profile.id].profile.config, profile.config);
    } else {
      CachedUntilRemoved(s, actions[0], profile.id);
      var t := ReachableStep(s, actions[0]);
      CachedIsServed(t, actions[1..], profile);
    }
  }

  /** A change that deletes the profile, or gives a password or none. */
  predicate Resets(operation: Operation, id: int) {
    match operation
    case Create(_, _) => false
    case Replace(profile, given) => profile.id == id && given.Given?
    case Delete(other) => other == id
  }

  predicate LeavesPassword(s: State, actions: seq<Action>, id: int)
    requires IsRun(s, actions)
    decreases |actions|
  {
    actions == [] || (
      && !actions[0].ClearPasswords? && !(actions[0].Begin? && Resets(actions[0].operation, id))
      && LeavesPassword(Next(s, actions[0]), actions[1..], id))
  }

  /** The password is stored, and a change under way writes it again. */
  predicate Stays(s: State, id: int, password: int) {
    && Password(s.vault, id) == Some(password)
    && (!s.writer.Quiet? && s.writer.plan.id == id ==> s.writer.plan.password == Some(password))
  }

  lemma {:induction false} StepLeavesPassword(s: State, a: Action, id: int, password: int)
    requires ProfileOk(s, id) && Enabled(s, a) && Stays(s, id, password)
    requires !a.ClearPasswords? && !(a.Begin? && Resets(a.operation, id))
    ensures Stays(Next(s, a), id, password)
  {
    if a.WritePassword? {
      ApplyTells(s.vault, PutPassword(s.writer.plan.id, s.writer.plan.password), id);
    }
  }

  /**
   * A password stored between changes of its profile is still stored after any run in which no change deletes the
   * profile or gives a password or none, and the store is not cleared; another configuration keeps it.
   */
  lemma {:induction false} StoredPasswordStays(s: State, actions: seq<Action>, id: int, password: int)
    requires Reachable(s) && Stays(s, id, password) && IsRun(s, actions) && LeavesPassword(s, actions, id)
    ensures Stays(End(s, actions), id, password)
    decreases |actions|
  {
    if actions != [] {
      ReachableInvariant(s);
      assert AllOk(s, id);
      StepLeavesPassword(s, actions[0], id, password);
      var t := ReachableStep(s, actions[0]);
      StoredPasswordStays(t, actions[1..], id, password);
    }
  }

  predicate OneIdentity(one: Grant, other: Grant) {
    one.id == other.id && one.password == other.password ==> one.identity == other.identity
  }

  ghost predicate EachPasswordHasOneIdentity(granted: set<Grant>) {
    forall one, other | one in granted && other in granted :: OneIdentity(one, other)
  }

  /**
   * A runtime uses a password with the host, user and scope it was accepted with, if the configuration asked for
   * is the one that the password belongs to; when none was accepted with two configurations, exactly then.
   */
  lemma {:induction false} RepliesKeepPasswordsWithConfigurations(s: State, a: Action, runtime: Runtime)
    requires Replies(s, a, runtime)
    ensures
      var id, asked := Asked(s, a).id, IdentityOf(Asked(s, a).config);
      var accepted := Grant(id, runtime.password, IdentityOf(runtime.profile.config)) in s.granted;
      && (Source(s, id, runtime.password) == Some(asked) ==> accepted)
      && (EachPasswordHasOneIdentity(s.granted) ==> (Source(s, id, runtime.password) == Some(asked) <==> accepted))
  {
    ReachableInvariant(s);
    var id, asked := Asked(s, a).id, IdentityOf(Asked(s, a).config);
    assert AllOk(s, id) && SourcesOk(s, id);
    assert Sourced(s, id, runtime.password) && IdentityOf(runtime.profile.config) == asked;
    if EachPasswordHasOneIdentity(s.granted) && Grant(id, runtime.password, asked) in s.granted {
      assert OneIdentity(Grant(id, runtime.password, asked),
                         Grant(id, runtime.password, Source(s, id, runtime.password).value));
    }
  }

  lemma {:induction false} RunExtends(start: State, actions: seq<Action>, a: Action)
    requires IsRun(start, actions) && Enabled(End(start, actions), a)
    ensures IsRun(start, actions + [a]) && End(start, actions + [a]) == Next(End(start, actions), a)
    decreases |actions|
  {
    if actions == [] {
      assert IsRun(Next(start, a), []);
    } else {
      assert (actions + [a])[1..] == actions[1..] + [a];
      RunExtends(Next(start, actions[0]), actions[1..], a);
    }
  }

  lemma {:induction false} ReachableStep(s: State, a: Action) returns (t: State)
    requires Reachable(s) && Enabled(s, a)
    ensures t == Next(s, a) && Reachable(t)
  {
    t := Next(s, a);
    var start, actions :| Starts(start) && IsRun(start, actions) && End(start, actions) == s;
    RunExtends(start, actions, a);
  }

  /** A replacement with another configuration and a new password has written both, and not yet invalidated. */
  lemma {:induction false} PasswordWritten(earlier: Profile, later: Profile, password: int) returns (s: State)
    requires earlier.id == later.id && earlier.config != later.config
    ensures Reachable(s) && s.holder.Free? && s.cache == NO_CACHE
    ensures s.profiles == map[earlier.id := later] && s.vault.passwords == map[earlier.id := password]
    ensures s.granted == {Grant(earlier.id, password, IdentityOf(later.config))}
  {
    s := State(map[earlier.id := earlier], Vault(map[], map[], map[]), NO_CACHE, Quiet, Free, {});
    assert IsRun(s, []) && End(s, []) == s;
    s := ReachableStep(s, Begin(Replace(later, Given(Some(password)))));
    s := ReachableStep(s, WriteProfile);
    s := ReachableStep(s, WritePassword);
  }

  /**
   * So whenever a replacement brings a new password for another identity, there is a run in which a getter that
   * read the old profile uses the new password with the old host, user or scope.
   */
  lemma {:induction false} PasswordsMayMeetAnOldHost(earlier: Profile, later: Profile, password: int)
      returns (s: State, a: Action, runtime: Runtime)
    requires earlier.id == later.id && IdentityOf(earlier.config) != IdentityOf(later.config)
    ensures Replies(s, a, runtime) && s.profiles == map[earlier.id := later]
    ensures runtime == Runtime(earlier, password, 0) && EachPasswordHasOneIdentity(s.granted)
    ensures Grant(earlier.id, password, IdentityOf(earlier.config)) !in s.granted
  {
    s := PasswordWritten(earlier, later, password);
    s := ReachableStep(s, Get(earlier));
    s := ReachableStep(s, Connect);
    a, runtime := Finish(Made(earlier)), Runtime(earlier, password, 0);
  }
}
