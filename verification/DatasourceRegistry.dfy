/** The cache of datasource runtimes, each of which owns one connector. */
module DatasourceRegistry {
  import opened Ids
  import opened Sorting
  import opened Wrappers

  /** A host name as written, and its case-folded form. */
  datatype Host = Host(written: int, folded: int)

  datatype Config = Config(
    kind: int, host: Host, port: int, database: int, username: int, schemas: seq<int>, tables: seq<int>)

  datatype Profile = Profile(id: int, name: int, config: Config)

  datatype Identity = Identity(
    kind: int, host: int, port: int, database: int, username: int, schemas: seq<int>, tables: seq<int>)

  function IdentityOf(c: Config): Identity {
    Identity(c.kind, c.host.folded, c.port, c.database, c.username, Sort(IntLeq(), c.schemas), Sort(IntLeq(), c.tables))
  }

  /** The host's case and the order of schemas and tables do not matter; everything else does. */
  predicate SameTarget(a: Config, b: Config) {
    && a.kind == b.kind && a.host.folded == b.host.folded && a.port == b.port
    && a.database == b.database && a.username == b.username
    && multiset(a.schemas) == multiset(b.schemas) && multiset(a.tables) == multiset(b.tables)
  }

  lemma {:induction false} SortedAlike(a: seq<int>, b: seq<int>)
    ensures Sort(IntLeq(), a) == Sort(IntLeq(), b) <==> multiset(a) == multiset(b)
  {
    var leq := IntLeq();
    SortPermutes(leq, a);
    SortPermutes(leq, b);
    SortOrdered(leq, a);
    SortOrdered(leq, b);
    if multiset(a) == multiset(b) {
      OrderedUnique(leq, Sort(leq, a), Sort(leq, b));
    }
  }

  lemma {:induction false} IdentityTells(a: Config, b: Config)
    ensures IdentityOf(a) == IdentityOf(b) <==> SameTarget(a, b)
  {
    SortedAlike(a.schemas, b.schemas);
    SortedAlike(a.tables, b.tables);
  }

  datatype Runtime = Runtime(profile: Profile, password: int, connector: int)

  datatype Failure = CredentialMissing | ConnectionFailed | MetadataFailed(code: int) | Unavailable | Interrupted

  // Building a runtime

  /** Connectors are numbered in the order they are created. */
  datatype Links = Links(created: int, closed: multiset<int>)

  function Close(l: Links, connector: int): Links {
    l.(closed := l.closed + multiset{connector})
  }

  /** connected: the failure came after the connector was created. */
  datatype Build = Made(profile: Profile) | Failed(failure: Failure, connected: bool)

  function Connect(l: Links, b: Build): Links {
    match b
    case Made(_) => l.(created := l.created + 1)
    case Failed(_, connected) => if connected then Close(l.(created := l.created + 1), l.created) else l
  }

  /** How one stage ends. */
  datatype Stage = Passes | Raises(code: int) | IsInterrupted

  /** The stages in order; no routing, no context stage. */
  datatype Trial = Trial(create: bool, open: Stage, allowlist: Stage, context: Option<Stage>)

  predicate Succeeds(t: Trial) {
    t.create && t.open.Passes? && t.allowlist.Passes? && (t.context.None? || t.context.value.Passes?)
  }

  /** The first stage that does not pass names the failure. */
  predicate FailsWith(t: Trial, failure: Failure) {
    if !t.create then failure == ConnectionFailed
    else if !t.open.Passes? then failure == if t.open.Raises? then ConnectionFailed else Interrupted
    else if !t.allowlist.Passes? then
      failure == if t.allowlist.Raises? then MetadataFailed(t.allowlist.code) else Interrupted
    else t.context.Some? && failure == if t.context.value.Raises? then Unavailable else Interrupted
  }

  class ConnectorFactory {
    var created: int
    var closed: multiset<int>

    function Contents(): Links
      reads this
    {
      Links(created, closed)
    }

    method CreateConnector() returns (connector: int)
      modifies this
      ensures connector == old(created) && Contents() == old(Contents()).(created := old(created) + 1)
    {
      connector := created;
      created := created + 1;
    }

    /** Closing may itself fail; that is logged and the connector is not closed again. */
    method CloseConnector(connector: int)
      modifies this
      ensures Contents() == Close(old(Contents()), connector)
    {
      closed := closed + multiset{connector};
    }

    /** Ends with an open connector that the runtime owns, or with none: every failing path closes it, once. */
    method BuildRuntime(profile: Profile, password: Option<int>, trial: Trial) returns (b: Build, connector: int)
      modifies this
      ensures Contents() == Connect(old(Contents()), b)
      ensures b.Made? <==> password.Some? && Succeeds(trial)
      ensures b.Made? ==> b.profile == profile && connector == old(created)
      ensures b.Failed? ==> (b.connected <==> password.Some? && trial.create)
      ensures b.Failed? ==> if password.None? then b.failure == CredentialMissing else FailsWith(trial, b.failure)
    {
      connector := created;
      if password.None? {
        return Failed(CredentialMissing, false), connector;
      }
      if !trial.create {
        return Failed(ConnectionFailed, false), connector;
      }
      connector := CreateConnector();
      match trial.open {
        case Passes =>
        case Raises(_) => b := FailClosed(ConnectionFailed, connector); return;
        case IsInterrupted => b := FailClosed(Interrupted, connector); return;
      }
      match trial.allowlist {
        case Passes =>
        case Raises(code) => b := FailClosed(MetadataFailed(code), connector); return;
        case IsInterrupted => b := FailClosed(Interrupted, connector); return;
      }
      match trial.context {
        case None =>
        case Some(Passes) =>
        case Some(Raises(_)) => b := FailClosed(Unavailable, connector); return;
        case Some(IsInterrupted) => b := FailClosed(Interrupted, connector); return;
      }
      b := Made(profile);
    }

    method FailClosed(failure: Failure, connector: int) returns (b: Build)
      modifies this
      ensures Contents() == Close(old(Contents()), connector) && b == Failed(failure, true)
    {
      CloseConnector(connector);
      b := Failed(failure, true);
    }
  }

  // The cache

  datatype Cache = Cache(runtimes: map<int, Runtime>, expected: map<int, Identity>, links: Links)

  /** Takes the runtime of id out of the cache and closes it. */
  function Evict(c: Cache, id: int): Cache {
    if id !in c.runtimes then c
    else c.(runtimes := c.runtimes - {id}, links := Close(c.links, c.runtimes[id].connector))
  }

  datatype Lookup = Reply(result: Result<Runtime, Failure>) | MustBuild(password: int)

  function LookUp(c: Cache, profile: Profile, password: Option<int>): Lookup {
    if profile.id in c.expected && IdentityOf(profile.config) != c.expected[profile.id] then Reply(Err(Unavailable))
    else if password.None? then Reply(Err(CredentialMissing))
    else if profile.id in c.runtimes && IdentityOf(c.runtimes[profile.id].profile.config) == IdentityOf(profile.config)
    then Reply(Ok(c.runtimes[profile.id]))
    else MustBuild(password.value)
  }

  function Looked(c: Cache, profile: Profile, password: Option<int>): Cache {
    var l := LookUp(c, profile, password);
    if l.MustBuild? || l.result == Err(CredentialMissing) then Evict(c, profile.id) else c
  }

  /** What is answered once a build for profile with this connector has ended. */
  function Outcome(profile: Profile, password: int, connector: int, build: Build): Result<Runtime, Failure> {
    match build
    case Failed(failure, _) => Err(failure)
    case Made(made) => if made == profile then Ok(Runtime(made, password, connector)) else Err(Unavailable)
  }

  function Answer(c: Cache, profile: Profile, password: int, build: Build): Result<Runtime, Failure> {
    Outcome(profile, password, c.links.created, build)
  }

  /** A connector has been created for a build. */
  function Connected(c: Cache): Cache {
    c.(links := c.links.(created := c.links.created + 1))
  }

  /** The build ends: its connector goes into the cache with the runtime, or is closed. */
  function Settled(c: Cache, profile: Profile, password: int, connector: int, build: Build): Cache {
    var outcome := Outcome(profile, password, connector, build);
    if outcome.Ok? then c.(runtimes := c.runtimes[profile.id := outcome.value])
    else c.(links := Close(c.links, connector))
  }

  function Built(c: Cache, profile: Profile, password: int, build: Build): Cache {
    if build.Failed? && !build.connected then c
    else Settled(Connected(c), profile, password, c.links.created, build)
  }

  function Expect(c: Cache, id: int, expected: Option<Identity>): Cache {
    Evict(c.(expected := if expected.None? then c.expected - {id} else c.expected[id := expected.value]), id)
  }

  // What a getter leaves behind, in terms of the cache before it

  /** An announced change gave the id another identity. */
  predicate Differs(c: Cache, profile: Profile) {
    profile.id in c.expected && IdentityOf(profile.config) != c.expected[profile.id]
  }

  /** The cached runtime of the id is for the identity asked for. */
  predicate Holds(c: Cache, profile: Profile) {
    profile.id in c.runtimes && SameTarget(c.runtimes[profile.id].profile.config, profile.config)
  }

  function ConnectorAt(c: Cache, id: int): multiset<int> {
    if id in c.runtimes then multiset{c.runtimes[id].connector} else multiset{}
  }

  /** The cached runtime of id, if any, is gone and closed; nothing else has changed. */
  predicate Evicted(c: Cache, d: Cache, id: int) {
    d == Cache(c.runtimes - {id}, c.expected, Links(c.links.created, c.links.closed + ConnectorAt(c, id)))
  }

  /** The cached runtime of id is gone and closed, and the expectation of id is the one given, or none. */
  predicate Announced(c: Cache, d: Cache, id: int, expected: Option<Identity>) {
    && d.expected == (if expected.Some? then c.expected[id := expected.value] else c.expected - {id})
    && Evicted(c.(expected := d.expected), d, id)
  }

  /** As evicted, and a new runtime is cached, or its connector closed. */
  predicate Rebuilt(c: Cache, d: Cache, profile: Profile, password: int, trial: Trial, r: Result<Runtime, Failure>) {
    var was, connector := ConnectorAt(c, profile.id), c.links.created;
    var created := connector + if trial.create then 1 else 0;
    if Succeeds(trial) then
      && r == Ok(Runtime(profile, password, connector))
      && d == Cache(c.runtimes[profile.id := r.value], c.expected, Links(created, c.links.closed + was))
    else
      && r.Err? && FailsWith(trial, r.error)
      && d == Cache(c.runtimes - {profile.id}, c.expected,
                    Links(created, c.links.closed + was + if trial.create then multiset{connector} else multiset{}))
  }

  /** A getter of profile has answered r and left d, when the password was the one given. */
  predicate Answers(c: Cache, d: Cache, profile: Profile, password: Option<int>, trial: Trial,
                    r: Result<Runtime, Failure>) {
    if Differs(c, profile) then r == Err(Unavailable) && d == c
    else if password.None? then r == Err(CredentialMissing) && Evicted(c, d, profile.id)
    else if Holds(c, profile) then r == Ok(c.runtimes[profile.id]) && d == c
    else Rebuilt(c, d, profile, password.value, trial, r)
  }

  /** The build ended as its stages say. */
  predicate Follows(profile: Profile, trial: Trial, b: Build) {
    && (b.Made? <==> Succeeds(trial)) && (b.Made? ==> b.profile == profile)
    && (b.Failed? ==> (b.connected <==> trial.create) && FailsWith(trial, b.failure))
  }

  lemma {:induction false} EvictedSo(c: Cache, id: int)
    ensures Evicted(c, Evict(c, id), id)
  {
    assert Evict(c, id).runtimes == c.runtimes - {id};
    assert Evict(c, id).links.closed == c.links.closed + ConnectorAt(c, id);
  }

  lemma {:induction false} ExpectAnnounces(c: Cache, id: int, expected: Option<Identity>)
    ensures Announced(c, Expect(c, id, expected), id, expected)
  {
    EvictedSo(c.(expected := Expect(c, id, expected).expected), id);
  }

  lemma {:induction false} BuiltAnew(c: Cache, profile: Profile, password: int, trial: Trial, build: Build)
    requires Follows(profile, trial, build)
    ensures var e := Evict(c, profile.id);
      Rebuilt(c, Built(e, profile, password, build), profile, password, trial, Answer(e, profile, password, build))
  {
    EvictedSo(c, profile.id);
    var runtime := Runtime(profile, password, c.links.created);
    assert (c.runtimes - {profile.id})[profile.id := runtime] == c.runtimes[profile.id := runtime];
  }

  /** The same in the steps that the runs take: the look-up, and after it a build. */
  predicate Carried(c: Cache, d: Cache, profile: Profile, password: Option<int>, build: Build,
                    r: Result<Runtime, Failure>) {
    var e := Looked(c, profile, password);
    match LookUp(c, profile, password)
    case Reply(result) => r == result && d == e
    case MustBuild(secret) => r == Answer(e, profile, secret, build) && d == Built(e, profile, secret, build)
  }

  lemma {:induction false} CarriedAnswers(c: Cache, d: Cache, profile: Profile, password: Option<int>, trial: Trial,
                                          build: Build, r: Result<Runtime, Failure>)
    requires Carried(c, d, profile, password, build, r)
    requires LookUp(c, profile, password).MustBuild? ==> Follows(profile, trial, build)
    ensures Answers(c, d, profile, password, trial, r)
  {
    EvictedSo(c, profile.id);
    if profile.id in c.runtimes {
      IdentityTells(c.runtimes[profile.id].profile.config, profile.config);
    }
    if LookUp(c, profile, password).MustBuild? {
      BuiltAnew(c, profile, password.value, trial, build);
    }
  }

  function Connectors(runtimes: map<int, Runtime>): set<int> {
    set id | id in runtimes :: runtimes[id].connector
  }

  function CloseAll(c: Cache): Cache {
    Cache(map[], map[], c.links.(closed := c.links.closed + multiset(Connectors(c.runtimes))))
  }

  // Ownership of connectors

  predicate Open(l: Links, connector: int) {
    0 <= connector < l.created && connector !in l.closed
  }

  predicate OwnedAt(c: Cache, id: int) {
    id in c.runtimes ==> Open(c.links, c.runtimes[id].connector) && c.runtimes[id].profile.id == id
  }

  predicate Apart(c: Cache, id: int, other: int) {
    id in c.runtimes && other in c.runtimes && id != other ==> c.runtimes[id].connector != c.runtimes[other].connector
  }

  predicate ClosedOnce(l: Links, connector: int) {
    l.closed[connector] <= 1 && (connector in l.closed ==> 0 <= connector < l.created)
  }

  ghost predicate Cached(c: Cache, connector: int) {
    exists id :: id in c.runtimes && c.runtimes[id].connector == connector
  }

  ghost predicate Accounted(c: Cache, connector: int, hand: Option<int>) {
    0 <= connector < c.links.created ==> connector in c.links.closed || Cached(c, connector) || hand == Some(connector)
  }

  ghost predicate HandOk(c: Cache, hand: Option<int>) {
    hand.Some? ==> Open(c.links, hand.value) && !Cached(c, hand.value)
  }

  /** Each connector ever created is closed once, or open and owned by one id's runtime, or open and in the hand. */
  ghost predicate OwnedBut(c: Cache, hand: Option<int>) {
    && 0 <= c.links.created
    && (forall id :: OwnedAt(c, id))
    && (forall id, other :: Apart(c, id, other))
    && (forall connector :: ClosedOnce(c.links, connector))
    && (forall connector :: Accounted(c, connector, hand))
    && HandOk(c, hand)
  }

  ghost predicate Owned(c: Cache) {
    OwnedBut(c, None)
  }

  lemma {:induction false} EvictOwned(c: Cache, id: int)
    requires Owned(c)
    ensures Owned(Evict(c, id))
  {
    var d := Evict(c, id);
    assert OwnedAt(c, id);
    forall other ensures OwnedAt(d, other) {
      assert OwnedAt(c, other) && Apart(c, id, other);
    }
    forall one, other ensures Apart(d, one, other) {
      assert Apart(c, one, other);
    }
    forall connector ensures ClosedOnce(d.links, connector) {
      assert ClosedOnce(c.links, connector);
    }
    forall connector ensures Accounted(d, connector, None) {
      assert Accounted(c, connector, None);
      if Cached(c, connector) && connector !in d.links.closed {
        var owner :| owner in c.runtimes && c.runtimes[owner].connector == connector;
        assert owner in d.runtimes;
      }
    }
  }

  /** A new connector is in the hand of whoever builds. */
  lemma {:induction false} ConnectedOwned(c: Cache)
    requires Owned(c)
    ensures OwnedBut(Connected(c), Some(c.links.created))
  {
    var d := Connected(c);
    assert ClosedOnce(c.links, c.links.created);
    forall id ensures OwnedAt(d, id) {
      assert OwnedAt(c, id);
    }
    forall id, other ensures Apart(d, id, other) {
      assert Apart(c, id, other);
    }
    forall connector ensures ClosedOnce(d.links, connector) && Accounted(d, connector, Some(c.links.created)) {
      assert ClosedOnce(c.links, connector) && Accounted(c, connector, None);
      CachedStays(c, d, connector);
    }
    forall id | id in c.runtimes ensures c.runtimes[id].connector != c.links.created {
      assert OwnedAt(c, id);
    }
  }

  lemma {:induction false} CachedStays(c: Cache, d: Cache, connector: int)
    requires forall id | id in c.runtimes :: id in d.runtimes && d.runtimes[id] == c.runtimes[id]
    ensures Cached(c, connector) ==> Cached(d, connector)
  {
    if Cached(c, connector) {
      var owner :| owner in c.runtimes && c.runtimes[owner].connector == connector;
      assert owner in d.runtimes && d.runtimes[owner].connector == connector;
    }
  }

  /** What was in the hand is owned by the new runtime, or closed. */
  lemma {:induction false} SettledOwned(c: Cache, profile: Profile, password: int, connector: int, build: Build)
    requires OwnedBut(c, Some(connector)) && profile.id !in c.runtimes
    ensures Owned(Settled(c, profile, password, connector, build))
  {
    var d := Settled(c, profile, password, connector, build);
    forall id ensures OwnedAt(d, id) {
      assert OwnedAt(c, id);
      assert id in c.runtimes && c.runtimes[id].connector == connector ==> Cached(c, connector);
    }
    forall id, other ensures Apart(d, id, other) {
      assert Apart(c, id, other);
      assert id in c.runtimes && c.runtimes[id].connector == connector ==> Cached(c, connector);
      assert other in c.runtimes && c.runtimes[other].connector == connector ==> Cached(c, connector);
    }
    forall one ensures ClosedOnce(d.links, one) && Accounted(d, one, None) {
      assert ClosedOnce(c.links, one) && Accounted(c, one, Some(connector));
      CachedStays(c, d, one);
      assert profile.id in d.runtimes && d.runtimes[profile.id].connector == connector ==> Cached(d, connector);
    }
  }

  lemma {:induction false} BuiltOwned(c: Cache, profile: Profile, password: int, build: Build)
    requires Owned(c) && profile.id !in c.runtimes
    ensures Owned(Built(c, profile, password, build))
  {
    if build.Made? || build.connected {
      ConnectedOwned(c);
      SettledOwned(Connected(c), profile, password, c.links.created, build);
    }
  }

  lemma {:induction false} ExpectOwned(c: Cache, id: int, expected: Option<Identity>)
    requires Owned(c)
    ensures Owned(Expect(c, id, expected))
  {
    var d := Expect(c, id, expected);
    EvictOwned(c, id);
    var e := Evict(c, id);
    assert d.runtimes == e.runtimes && d.links == e.links;
    forall other ensures OwnedAt(d, other) {
      assert OwnedAt(e, other);
    }
    forall one, other ensures Apart(d, one, other) {
      assert Apart(e, one, other);
    }
    forall connector ensures Accounted(d, connector, None) {
      assert Accounted(e, connector, None);
      if Cached(e, connector) {
        var owner :| owner in e.runtimes && e.runtimes[owner].connector == connector;
        assert owner in d.runtimes && d.runtimes[owner].connector == connector;
      }
    }
  }

  lemma {:induction false} CloseAllOwned(c: Cache)
    requires Owned(c)
    ensures Owned(CloseAll(c))
  {
    var d := CloseAll(c);
    var connectors := Connectors(c.runtimes);
    forall connector ensures ClosedOnce(d.links, connector) && Accounted(d, connector, None) {
      assert ClosedOnce(c.links, connector) && Accounted(c, connector, None);
      assert d.links.closed[connector] == c.links.closed[connector] + if connector in connectors then 1 else 0;
      if connector in connectors {
        var id :| id in c.runtimes && c.runtimes[id].connector == connector;
        assert OwnedAt(c, id);
      }
      if Cached(c, connector) {
        var id :| id in c.runtimes && c.runtimes[id].connector == connector;
        assert connector in connectors;
      }
    }
    forall id ensures OwnedAt(d, id) {
    }
    forall id, other ensures Apart(d, id, other) {
    }
  }
}
