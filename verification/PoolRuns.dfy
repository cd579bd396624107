/** Every interleaving of the clients of a connection pool. */
module PoolRuns {
  // A step is one queue operation, one section under the pool's lock, one look at the closed flag, or one
  // statement on a borrowed connection.

  import opened Ids

  /**
   * Where a client is. Borrowed, InTransaction, Failing, Returning, Putting and Dropping follow an execute,
   * a metadata read or a snapshot; Draining and Drained follow close().
   */
  datatype Phase =
    | Resting
    | Asking
    | Starved
    | LastWait
    | Borrowed(connection: int)
    | InTransaction(connection: int)
    | Failing(connection: int)
    | Returning(connection: int)
    | Putting(connection: int)
    | Dropping(connection: int)
    | Draining
    | Drained(connection: int)
  {
    predicate Holds() {
      !(Resting? || Asking? || Starved? || LastWait? || Draining?)
    }

    /** Between the connection's transactions. */
    predicate Clean() {
      Borrowed? || Returning? || Putting? || Drained?
    }
  }

  /** open() puts a connection into the queue and then counts it. */
  datatype Opener = ToPut(left: int) | ToCount(left: int) | Opened

  /** made: connections created so far, numbered from 0. inTransaction: those with an open transaction. */
  datatype State = State(
    max: int, idle: seq<int>, created: int, closed: bool, clients: map<int, Phase>, opener: Opener,
    made: int, dropped: multiset<int>, inTransaction: set<int>)

  datatype Action =
    | OpenPut
    | OpenCount
    | OpenFail
    | Ask(client: int)
    | Take(client: int)
    | TimeOut(client: int)
    | Grow(client: int, works: bool)
    | GiveUp(client: int)
    | Start(client: int, works: bool)
    | Work(client: int, works: bool)
    | Commit(client: int, works: bool)
    | EndBody(client: int)
    | Rollback(client: int, works: bool)
    | LookClosed(client: int)
    | Put(client: int)
    | Drop(client: int)
    | StartClose(client: int)
    | Drain(client: int)

  predicate IsClient(a: Action) {
    !a.OpenPut? && !a.OpenCount? && !a.OpenFail?
  }

  function At(s: State, client: int): Phase {
    if client in s.clients then s.clients[client] else Resting
  }

  predicate Enabled(s: State, a: Action) {
    match a
    case OpenPut => s.opener.ToPut? && s.opener.left > 0 && |s.idle| < s.max
    case OpenCount => s.opener.ToCount?
    case OpenFail => s.opener.ToPut?
    case Ask(k) => At(s, k).Resting? && !s.closed
    case Take(k) => (At(s, k).Asking? || At(s, k).LastWait?) && s.idle != []
    case TimeOut(k) => At(s, k).Asking? && s.idle == []
    case Grow(k, _) => At(s, k).Starved?
    case GiveUp(k) => At(s, k).LastWait? && s.idle == []
    case Start(k, _) => At(s, k).Borrowed?
    case Work(k, _) => At(s, k).InTransaction?
    case Commit(k, _) => At(s, k).InTransaction?
    case EndBody(k) => At(s, k).InTransaction?
    case Rollback(k, _) => At(s, k).Failing?
    case LookClosed(k) => At(s, k).Returning?
    case Put(k) => At(s, k).Putting?
    case Drop(k) => At(s, k).Dropping? || At(s, k).Drained?
    case StartClose(k) => At(s, k).Resting?
    case Drain(k) => At(s, k).Draining?
  }

  function Move(s: State, client: int, phase: Phase): State {
    s.(clients := s.clients[client := phase])
  }

  function Release(created: int): int {
    if created - 1 > 0 then created - 1 else 0
  }

  function Counted(left: int): Opener {
    if left == 1 then Opened else ToPut(left - 1)
  }

  /** The queue is at its size. */
  predicate Full(s: State) {
    |s.idle| >= s.max
  }

  function Next(s: State, a: Action): State
    requires Enabled(s, a)
  {
    match a
    case OpenPut => s.(idle := s.idle + [s.made], made := s.made + 1, opener := ToCount(s.opener.left))
    case OpenCount => s.(created := s.created + 1, opener := Counted(s.opener.left))
    case OpenFail => s.(opener := Opened)
    case Ask(k) => Move(s, k, Asking)
    case Take(k) => Move(s, k, Borrowed(s.idle[0])).(idle := s.idle[1..])
    case TimeOut(k) => Move(s, k, Starved)
    case Grow(k, works) =>
      if s.created >= s.max then Move(s, k, LastWait)
      else if !works then Move(s, k, Resting)
      else Move(s, k, Borrowed(s.made)).(made := s.made + 1, created := s.created + 1)
    case GiveUp(k) => Move(s, k, Resting)
    case Start(k, works) =>
      var c := At(s, k).connection;
      Move(s, k, if works then InTransaction(c) else Dropping(c)).(inTransaction := s.inTransaction + {c})
    case Work(k, works) => if works then s else Move(s, k, Failing(At(s, k).connection))
    case Commit(k, works) =>
      var c := At(s, k).connection;
      if works then Move(s, k, Returning(c)).(inTransaction := s.inTransaction - {c}) else Move(s, k, Failing(c))
    case EndBody(k) => Move(s, k, Failing(At(s, k).connection))
    case Rollback(k, works) =>
      var c := At(s, k).connection;
      if works then Move(s, k, Returning(c)).(inTransaction := s.inTransaction - {c}) else Move(s, k, Dropping(c))
    case LookClosed(k) =>
      var c := At(s, k).connection;
      Move(s, k, if s.closed then Dropping(c) else Putting(c))
    case Put(k) =>
      if Full(s) then Move(s, k, Dropping(At(s, k).connection))
      else Move(s, k, Resting).(idle := s.idle + [At(s, k).connection])
    case Drop(k) =>
      Move(s, k, if At(s, k).Drained? then Draining else Resting)
        .(created := Release(s.created), dropped := s.dropped + multiset{At(s, k).connection})
    case StartClose(k) => Move(s, k, Draining).(closed := true)
    case Drain(k) =>
      if s.idle == [] then Move(s, k, Resting) else Move(s, k, Drained(s.idle[0])).(idle := s.idle[1..])
  }

  /** A pool before open(); the sizes satisfy 1 <= min <= max. */
  function NewPool(max: int, min: int): State {
    State(max, [], 0, false, map[], ToPut(min), 0, multiset{}, {})
  }

  /** Unless early, clients come only after open() has returned. */
  predicate May(s: State, a: Action, early: bool) {
    Enabled(s, a) && (IsClient(a) && !early ==> s.opener.Opened?)
  }

  predicate IsRun(s: State, actions: seq<Action>, early: bool)
    decreases |actions|
  {
    actions == [] || (May(s, actions[0], early) && IsRun(Next(s, actions[0]), actions[1..], early))
  }

  function End(s: State, actions: seq<Action>, early: bool): State
    requires IsRun(s, actions, early)
    decreases |actions|
  {
    if actions == [] then s else End(Next(s, actions[0]), actions[1..], early)
  }

  ghost predicate Leads(s: State, t: State, early: bool) {
    exists actions :: IsRun(s, actions, early) && End(s, actions, early) == t
  }

  ghost predicate Reachable(s: State) {
    exists max, min :: 1 <= min <= max && Leads(NewPool(max, min), s, false)
  }

  // What holds in every reachable state

  predicate Holder(s: State, client: int) {
    At(s, client).Holds()
  }

  function Holders(s: State): set<int> {
    set k | k in s.clients && Holder(s, k)
  }

  predicate ClientOk(s: State, client: int) {
    Holder(s, client) ==>
      var c := At(s, client).connection;
      && 0 <= c < s.made && c !in s.idle && c !in s.dropped
      && (At(s, client).Clean() ==> c !in s.inTransaction)
  }

  predicate Apart(s: State, client: int, other: int) {
    Holder(s, client) && Holder(s, other) && client != other ==> At(s, client).connection != At(s, other).connection
  }

  predicate IdleOk(s: State, connection: int) {
    connection in s.idle ==> 0 <= connection < s.made && connection !in s.dropped && connection !in s.inTransaction
  }

  predicate DroppedOk(s: State, connection: int) {
    s.dropped[connection] <= 1 && (connection in s.dropped ==> 0 <= connection < s.made)
  }

  ghost predicate Held(s: State, connection: int) {
    exists k :: Holder(s, k) && At(s, k).connection == connection
  }

  ghost predicate Accounted(s: State, connection: int) {
    0 <= connection < s.made ==> connection in s.idle || connection in s.dropped || Held(s, connection)
  }

  predicate OpenerOk(s: State) {
    match s.opener
    case ToPut(left) => 1 <= left && s.clients == map[] && s.created + left <= s.max && s.created == |s.idle|
    case ToCount(left) => 1 <= left && s.clients == map[] && s.created + left <= s.max && s.created + 1 == |s.idle|
    case Opened => s.created == |s.idle| + |Holders(s)|
  }

  predicate CountOk(s: State) {
    1 <= s.max && 0 <= s.created <= s.max && OpenerOk(s)
  }

  ghost predicate PlacesOk(s: State) {
    && 0 <= s.made && NoRepeats(s.idle)
    && (forall k :: ClientOk(s, k)) && (forall k, other :: Apart(s, k, other))
    && (forall c :: IdleOk(s, c)) && (forall c :: DroppedOk(s, c)) && (forall c :: Accounted(s, c))
    && (forall c :: c in s.inTransaction ==> c < s.made)
  }

  ghost predicate Invariant(s: State) {
    CountOk(s) && PlacesOk(s)
  }

  lemma {:induction false} HoldersMove(s: State, t: State, client: int)
    requires t.clients == s.clients[client := At(t, client)]
    ensures |Holders(t)| + (if Holder(s, client) then 1 else 0) == |Holders(s)| + (if Holder(t, client) then 1 else 0)
  {
    assert Holders(t) == if Holder(t, client) then Holders(s) + {client} else Holders(s) - {client};
    assert client in Holders(s) <==> Holder(s, client);
  }

  function Client(a: Action): int
    requires IsClient(a)
  {
    a.client
  }

  function Hands(s: State, client: int): int {
    if Holder(s, client) then 1 else 0
  }

  /** What a client's step adds to the counter, it adds to queue and hands. */
  lemma {:induction false} CountMoves(s: State, a: Action)
    requires Enabled(s, a) && IsClient(a) && (Holder(s, Client(a)) ==> 1 <= s.created)
    ensures var t, k := Next(s, a), Client(a);
      && t.created - |t.idle| - Hands(t, k) == s.created - |s.idle| - Hands(s, k)
      && (t.created <= s.created || t.created <= s.max)
  {
  }

  lemma {:induction false} ClientMoves(s: State, a: Action)
    requires Enabled(s, a) && IsClient(a)
    ensures var t, k := Next(s, a), Client(a);
      t.max == s.max && t.opener == s.opener && t.clients == s.clients[k := At(t, k)]
  {
    if Next(s, a) == s {
      assert s.clients == s.clients[Client(a) := At(s, Client(a))];
    }
  }

  lemma {:induction false} HolderCounts(s: State, client: int)
    requires Holder(s, client)
    ensures |Holders(s)| >= 1
  {
    assert client in Holders(s);
  }

  lemma {:induction false} CountKept(s: State, a: Action)
    requires CountOk(s) && May(s, a, false)
    ensures CountOk(Next(s, a))
  {
    var t := Next(s, a);
    if IsClient(a) {
      var k := Client(a);
      if Holder(s, k) {
        HolderCounts(s, k);
      }
      CountMoves(s, a);
      ClientMoves(s, a);
      HoldersMove(s, t, k);
      assert |Holders(t)| >= 0;
    } else {
      assert t.clients == s.clients;
      assert t.opener.Opened? ==> Holders(t) == {};
    }
  }

  /** What a step of client k knows about the connections it touches. */
  ghost predicate Touches(s: State, a: Action) {
    && 0 <= s.made && IdleOk(s, s.made) && DroppedOk(s, s.made) && s.made !in s.inTransaction
    && (s.idle != [] ==> IdleOk(s, s.idle[0]) && s.idle[0] !in s.idle[1..])
    && (IsClient(a) ==> ClientOk(s, Client(a)))
  }

  lemma {:induction false} Touched(s: State, a: Action)
    requires PlacesOk(s)
    ensures Touches(s, a)
  {
    if IsClient(a) {
      assert ClientOk(s, Client(a));
    }
  }

  /** The steps with a connection in hand before and after. */
  predicate IsStatement(a: Action) {
    a.Start? || a.Work? || a.Commit? || a.EndBody? || a.Rollback? || a.LookClosed?
  }

  lemma {:induction false} StatementKept(s: State, a: Action)
    requires Touches(s, a) && Enabled(s, a) && IsStatement(a)
    ensures ClientOk(Next(s, a), Client(a))
  {
  }

  lemma {:induction false} MoverKept(s: State, a: Action)
    requires Touches(s, a) && Enabled(s, a) && IsClient(a)
    ensures ClientOk(Next(s, a), Client(a))
  {
    if IsStatement(a) {
      StatementKept(s, a);
    }
  }

  lemma {:induction false} MadeGrows(s: State, a: Action)
    requires Enabled(s, a)
    ensures s.made <= Next(s, a).made
  {
  }

  /** The connection in the hands of the client that moves. */
  predicate Own(s: State, a: Action, connection: int) {
    IsClient(a) && Holder(s, Client(a)) && At(s, Client(a)).connection == connection
  }

  lemma {:induction false} QueueGets(s: State, a: Action, connection: int)
    requires Enabled(s, a) && connection in Next(s, a).idle
    ensures connection in s.idle || Own(s, a, connection) || (connection == s.made && s.made < Next(s, a).made)
  {
  }

  lemma {:induction false} DroppedGets(s: State, a: Action, connection: int)
    requires Enabled(s, a)
    ensures Next(s, a).dropped[connection] == s.dropped[connection]
      || (Own(s, a, connection) && Next(s, a).dropped[connection] == s.dropped[connection] + 1)
  {
  }

  lemma {:induction false} TransactionsGet(s: State, a: Action, connection: int)
    requires Enabled(s, a) && connection in Next(s, a).inTransaction
    ensures connection in s.inTransaction || Own(s, a, connection)
  {
  }

  lemma {:induction false} OthersKept(s: State, a: Action, other: int)
    requires Touches(s, a) && Enabled(s, a) && IsClient(a) && other != Client(a)
    requires ClientOk(s, other) && Apart(s, Client(a), other)
    ensures ClientOk(Next(s, a), other)
  {
    var t := Next(s, a);
    ClientMoves(s, a);
    assert At(t, other) == At(s, other);
    if Holder(s, other) {
      var c := At(s, other).connection;
      MadeGrows(s, a);
      DroppedGets(s, a, c);
      if c in t.idle {
        QueueGets(s, a, c);
      }
      if c in t.inTransaction {
        TransactionsGet(s, a, c);
      }
    }
  }

  lemma {:induction false} MoverGets(s: State, a: Action, connection: int)
    requires Enabled(s, a) && IsClient(a) && Holder(Next(s, a), Client(a))
    requires connection == At(Next(s, a), Client(a)).connection
    ensures Own(s, a, connection) || connection in s.idle || connection == s.made
  {
  }

  lemma {:induction false} MoverApart(s: State, a: Action, other: int)
    requires Enabled(s, a) && IsClient(a) && other != Client(a)
    requires ClientOk(s, other) && Apart(s, Client(a), other)
    ensures Apart(Next(s, a), Client(a), other) && Apart(Next(s, a), other, Client(a))
  {
    ClientMoves(s, a);
    assert At(Next(s, a), other) == At(s, other);
    if Holder(Next(s, a), Client(a)) {
      MoverGets(s, a, At(Next(s, a), Client(a)).connection);
    }
  }

  lemma {:induction false} ApartKept(s: State, a: Action, one: int, other: int)
    requires Enabled(s, a) && IsClient(a) && Apart(s, other, one)
    requires Apart(s, one, other) && ClientOk(s, one) && ClientOk(s, other)
    ensures Apart(Next(s, a), one, other)
  {
    ClientMoves(s, a);
    if one == Client(a) && other != one {
      MoverApart(s, a, other);
    } else if other == Client(a) && other != one {
      MoverApart(s, a, one);
    }
  }

  lemma {:induction false} ClientsKept(s: State, a: Action)
    requires PlacesOk(s) && Enabled(s, a) && IsClient(a)
    ensures forall k :: ClientOk(Next(s, a), k)
    ensures forall k, other :: Apart(Next(s, a), k, other)
  {
    Touched(s, a);
    forall k ensures ClientOk(Next(s, a), k) {
      if k == Client(a) {
        MoverKept(s, a);
      } else {
        assert ClientOk(s, k) && Apart(s, Client(a), k);
        OthersKept(s, a, k);
      }
    }
    forall k, other ensures Apart(Next(s, a), k, other) {
      assert Apart(s, k, other) && Apart(s, other, k) && ClientOk(s, k) && ClientOk(s, other);
      ApartKept(s, a, k, other);
    }
  }

  /** A client puts back only what is not dropped and has no open transaction. */
  lemma {:induction false} PutIsClean(s: State, a: Action, connection: int)
    requires Touches(s, a) && Enabled(s, a) && Own(s, a, connection) && connection in Next(s, a).idle
    ensures connection !in Next(s, a).dropped && connection !in Next(s, a).inTransaction
  {
  }

  lemma {:induction false} PlaceKept(s: State, a: Action, connection: int)
    requires Touches(s, a) && Enabled(s, a) && IdleOk(s, connection) && DroppedOk(s, connection)
    ensures IdleOk(Next(s, a), connection) && DroppedOk(Next(s, a), connection)
  {
    var t := Next(s, a);
    MadeGrows(s, a);
    DroppedGets(s, a, connection);
    if connection in t.idle {
      QueueGets(s, a, connection);
      if Own(s, a, connection) {
        PutIsClean(s, a, connection);
      } else if connection in t.inTransaction {
        TransactionsGet(s, a, connection);
      }
    }
  }

  lemma {:induction false} QueueKept(s: State, a: Action)
    requires Touches(s, a) && Enabled(s, a) && NoRepeats(s.idle)
    ensures NoRepeats(Next(s, a).idle)
  {
    if IsStatement(a) {
      assert Next(s, a).idle == s.idle;
    }
  }

  lemma {:induction false} TransactionKept(s: State, a: Action, connection: int)
    requires Touches(s, a) && Enabled(s, a) && (connection in s.inTransaction ==> connection < s.made)
    ensures connection in Next(s, a).inTransaction ==> connection < Next(s, a).made
  {
    MadeGrows(s, a);
    if connection in Next(s, a).inTransaction {
      TransactionsGet(s, a, connection);
    }
  }

  lemma {:induction false} IdleKept(s: State, a: Action)
    requires PlacesOk(s) && Enabled(s, a)
    ensures NoRepeats(Next(s, a).idle) && 0 <= Next(s, a).made
    ensures forall c :: IdleOk(Next(s, a), c)
    ensures forall c :: DroppedOk(Next(s, a), c)
    ensures forall c :: c in Next(s, a).inTransaction ==> c < Next(s, a).made
  {
    Touched(s, a);
    QueueKept(s, a);
    MadeGrows(s, a);
    forall c ensures IdleOk(Next(s, a), c) && DroppedOk(Next(s, a), c) {
      assert IdleOk(s, c) && DroppedOk(s, c);
      PlaceKept(s, a, c);
    }
    forall c ensures c in Next(s, a).inTransaction ==> c < Next(s, a).made {
      TransactionKept(s, a, c);
    }
  }

  lemma {:induction false} StillHeld(s: State, t: State, client: int, connection: int)
    requires Holder(s, client) && At(s, client).connection == connection && At(t, client) == At(s, client)
    ensures Held(t, connection)
  {
    assert Holder(t, client) && At(t, client).connection == connection;
  }

  /** The client that moves keeps its connection, puts it into the queue or drops it. */
  lemma {:induction false} MovedAccounted(s: State, a: Action)
    requires Enabled(s, a) && IsClient(a) && Holder(s, Client(a))
    ensures var c := At(s, Client(a)).connection; c in Next(s, a).idle || c in Next(s, a).dropped || Held(Next(s, a), c)
  {
    var t, k := Next(s, a), Client(a);
    if Holder(t, k) {
      assert At(t, k).connection == At(s, k).connection;
    }
  }

  /** What is in the queue or dropped stays accounted for. */
  lemma {:induction false} RestAccounted(s: State, a: Action, connection: int)
    requires Enabled(s, a) && (connection in s.idle || connection in s.dropped)
    ensures connection in Next(s, a).idle || connection in Next(s, a).dropped || Held(Next(s, a), connection)
  {
    var t := Next(s, a);
    assert s.idle != [] ==> s.idle == [s.idle[0]] + s.idle[1..];
    if IsClient(a) && Holder(t, Client(a)) {
      assert Held(t, At(t, Client(a)).connection);
    }
  }

  lemma {:induction false} MadeAccounted(s: State, a: Action)
    requires Enabled(s, a) && Next(s, a).made != s.made
    ensures Next(s, a).made == s.made + 1 && Accounted(Next(s, a), s.made)
  {
    var t := Next(s, a);
    if IsClient(a) {
      assert Holder(t, Client(a)) && At(t, Client(a)).connection == s.made;
    }
  }

  /** A connection leaves one place only for another. */
  lemma {:induction false} AccountedKept(s: State, a: Action, connection: int)
    requires Enabled(s, a) && Accounted(s, connection)
    ensures Accounted(Next(s, a), connection)
  {
    if Next(s, a).made != s.made {
      MadeAccounted(s, a);
    }
    if connection in s.idle || connection in s.dropped {
      RestAccounted(s, a, connection);
    } else if Held(s, connection) {
      var k :| Holder(s, k) && At(s, k).connection == connection;
      if IsClient(a) && k == Client(a) {
        MovedAccounted(s, a);
      } else {
        StillHeld(s, Next(s, a), k, connection);
      }
    }
  }

  lemma {:induction false} OpenKept(s: State, a: Action)
    requires Invariant(s) && Enabled(s, a) && !IsClient(a)
    ensures forall k :: ClientOk(Next(s, a), k)
    ensures forall k, other :: Apart(Next(s, a), k, other)
  {
    var t := Next(s, a);
    assert t.clients == s.clients;
    if s.opener.Opened? {
      assert false;
    }
  }

  lemma {:induction false} StepKeeps(s: State, a: Action)
    requires Invariant(s) && May(s, a, false)
    ensures Invariant(Next(s, a))
  {
    CountKept(s, a);
    IdleKept(s, a);
    if IsClient(a) {
      ClientsKept(s, a);
    } else {
      OpenKept(s, a);
    }
    forall c ensures Accounted(Next(s, a), c) {
      assert Accounted(s, c);
      AccountedKept(s, a, c);
    }
  }

  lemma {:induction false} RunKeepsInvariant(s: State, actions: seq<Action>)
    requires Invariant(s) && IsRun(s, actions, false)
    ensures Invariant(End(s, actions, false))
    decreases |actions|
  {
    if actions != [] {
      StepKeeps(s, actions[0]);
      RunKeepsInvariant(Next(s, actions[0]), actions[1..]);
    }
  }

  lemma {:induction false} NewPoolInvariant(max: int, min: int)
    requires 1 <= min <= max
    ensures Invariant(NewPool(max, min))
  {
  }

  lemma {:induction false} ReachableInvariant(s: State)
    requires Reachable(s)
    ensures Invariant(s)
  {
    var max, min :| 1 <= min <= max && Leads(NewPool(max, min), s, false);
    var actions :| IsRun(NewPool(max, min), actions, false) && End(NewPool(max, min), actions, false) == s;
    NewPoolInvariant(max, min);
    RunKeepsInvariant(NewPool(max, min), actions);
  }

  // Main results

  /** The counter is the connections in the queue and in hands, and stays within the pool's size. */
  lemma {:induction false} CounterIsExact(s: State)
    requires Reachable(s) && s.opener.Opened?
    ensures 0 <= s.created <= s.max && s.created == |s.idle| + |Holders(s)|
  {
    ReachableInvariant(s);
  }

  /** Whoever has a connection finds room in the queue to put it back, and a count to give up. */
  lemma {:induction false} HolderIsCounted(s: State, client: int)
    requires Reachable(s) && Holder(s, client)
    ensures s.opener.Opened? && !Full(s) && Release(s.created) == s.created - 1
  {
    ReachableInvariant(s);
    HolderCounts(s, client);
  }

  /** No connection in the queue, or about to be put there, has an open transaction. */
  lemma {:induction false} IdleIsClean(s: State, connection: int)
    requires Reachable(s)
    requires connection in s.idle || exists k :: At(s, k) == Putting(connection)
    ensures connection !in s.inTransaction
  {
    ReachableInvariant(s);
    assert IdleOk(s, connection);
    if k :| At(s, k) == Putting(connection) {
      assert ClientOk(s, k);
    }
  }

  ghost predicate BothHold(s: State, client: int, other: int) {
    Holder(s, client) && Holder(s, other) && At(s, client).connection == At(s, other).connection
  }

  /** Every connection made is in the queue once, in one client's hands, or dropped once, and nowhere else. */
  lemma {:induction false} EveryConnectionHasOnePlace(s: State, connection: int)
    requires Reachable(s) && 0 <= connection < s.made
    ensures connection in s.idle || connection in s.dropped || Held(s, connection)
    ensures multiset(s.idle)[connection] + s.dropped[connection] + (if Held(s, connection) then 1 else 0) == 1
    ensures forall k, other | BothHold(s, k, other) :: k == other
  {
    ReachableInvariant(s);
    assert Accounted(s, connection) && DroppedOk(s, connection) && IdleOk(s, connection);
    NoRepeatCounts(s.idle, connection);
    assert connection in s.idle <==> connection in multiset(s.idle);
    if Held(s, connection) {
      var k :| Holder(s, k) && At(s, k).connection == connection;
      assert ClientOk(s, k);
    }
    forall k, other | BothHold(s, k, other) ensures k == other {
      assert Apart(s, k, other);
    }
  }

  // Making runs

  lemma {:induction false} RunExtends(start: State, actions: seq<Action>, early: bool, a: Action)
    requires IsRun(start, actions, early) && May(End(start, actions, early), a, early)
    ensures IsRun(start, actions + [a], early)
    ensures End(start, actions + [a], early) == Next(End(start, actions, early), a)
    decreases |actions|
  {
    if actions == [] {
      assert IsRun(Next(start, a), [], early);
    } else {
      assert (actions + [a])[1..] == actions[1..] + [a];
      RunExtends(Next(start, actions[0]), actions[1..], early, a);
    }
  }

  lemma {:induction false} LeadsToSelf(s: State, early: bool)
    ensures Leads(s, s, early)
  {
    assert IsRun(s, [], early) && End(s, [], early) == s;
  }

  lemma {:induction false} LeadsOn(start: State, s: State, a: Action, early: bool) returns (t: State)
    requires Leads(start, s, early) && May(s, a, early)
    ensures t == Next(s, a) && Leads(start, t, early)
  {
    t := Next(s, a);
    var actions :| IsRun(start, actions, early) && End(start, actions, early) == s;
    RunExtends(start, actions, early, a);
  }

  lemma {:induction false} ReachableStep(s: State, a: Action)
    requires Reachable(s) && May(s, a, false)
    ensures Reachable(Next(s, a))
  {
    var max, min :| 1 <= min <= max && Leads(NewPool(max, min), s, false);
    var t := LeadsOn(NewPool(max, min), s, a, false);
  }

  lemma {:induction false} NewPoolReachable(max: int, min: int)
    requires 1 <= min <= max
    ensures Reachable(NewPool(max, min))
  {
    LeadsToSelf(NewPool(max, min), false);
  }

  /** Statements that work take a borrowed connection to where it is about to be put back. */
  lemma {:induction false} ToPutBack(start: State, s: State, k: int, early: bool) returns (t: State)
    requires Leads(start, s, early) && At(s, k).Borrowed? && !s.closed && (!early ==> s.opener.Opened?)
    ensures Leads(start, t, early) && t.clients == s.clients[k := Putting(At(s, k).connection)]
    ensures t.max == s.max && t.created == s.created && t.idle == s.idle && !t.closed && t.opener == s.opener
  {
    t := LeadsOn(start, s, Start(k, true), early);
    t := LeadsOn(start, t, Commit(k, true), early);
    t := LeadsOn(start, t, LookClosed(k), early);
    assert t.clients == s.clients[k := Putting(At(s, k).connection)];
  }

  // The bound and open()

  function BorrowedBy(n: nat): map<int, Phase> {
    map k: int | 0 <= k < n :: Borrowed(k)
  }

  /** While open() has put nothing yet, early clients make n connections. */
  lemma {:induction false} Crowd(max: int, min: int, n: nat) returns (s: State)
    requires 1 <= min <= max && n <= max
    ensures Leads(NewPool(max, min), s, true)
    ensures s == State(max, [], n, false, BorrowedBy(n), ToPut(min), n, multiset{}, {})
  {
    var start := NewPool(max, min);
    if n == 0 {
      LeadsToSelf(start, true);
      s := start;
      assert BorrowedBy(0) == map[];
    } else {
      s := Crowd(max, min, n - 1);
      s := LeadsOn(start, s, Ask(n - 1), true);
      s := LeadsOn(start, s, TimeOut(n - 1), true);
      s := LeadsOn(start, s, Grow(n - 1, true), true);
      assert s.clients == BorrowedBy(n);
    }
  }

  /** The first n clients put their connections back. */
  lemma {:induction false} AllReturn(start: State, s: State, n: nat) returns (t: State)
    requires Leads(start, s, true) && !s.closed && |s.idle| + n <= s.max
    requires forall k | 0 <= k < n :: At(s, k).Borrowed?
    ensures Leads(start, t, true) && !t.closed && |t.idle| == |s.idle| + n
    ensures t.max == s.max && t.created == s.created
    ensures forall k | n <= k :: At(t, k) == At(s, k)
  {
    t := s;
    if n > 0 {
      t := AllReturn(start, s, n - 1);
      assert At(t, n - 1).Borrowed?;
      t := ToPutBack(start, t, n - 1, true);
      t := LeadsOn(start, t, Put(n - 1), true);
    }
  }

  /** max clients make a connection each; then open() puts one more and counts it. */
  lemma {:induction false} Overshoot(max: int, min: int) returns (s: State)
    requires 1 <= min <= max
    ensures Leads(NewPool(max, min), s, true) && s.max == max && s.created > max && |s.idle| == max
    ensures At(s, max - 1).Putting?
  {
    var start := NewPool(max, min);
    s := Crowd(max, min, max);
    s := LeadsOn(start, s, OpenPut, true);
    s := LeadsOn(start, s, OpenCount, true);
    assert forall k | 0 <= k < max :: At(s, k) == Borrowed(k);
    s := AllReturn(start, s, max - 1);
    s := ToPutBack(start, s, max - 1, true);
  }

  ghost predicate InBounds(s: State, max: int) {
    s.max == max && 0 <= s.created <= max
  }

  /** Whoever puts a connection back finds room for it. */
  ghost predicate FindsRoom(s: State, client: int) {
    At(s, client).Putting? ==> !Full(s)
  }

  lemma {:induction false} RunKeepsSize(s: State, actions: seq<Action>, early: bool)
    requires IsRun(s, actions, early)
    ensures End(s, actions, early).max == s.max
    decreases |actions|
  {
    if actions != [] {
      RunKeepsSize(Next(s, actions[0]), actions[1..], early);
    }
  }

  lemma {:induction false} PatientRunsAreBounded(max: int, min: int, s: State, client: int)
    requires 1 <= min <= max && Leads(NewPool(max, min), s, false)
    ensures InBounds(s, max) && FindsRoom(s, client)
  {
    ReachableInvariant(s);
    var actions :| IsRun(NewPool(max, min), actions, false) && End(NewPool(max, min), actions, false) == s;
    RunKeepsSize(NewPool(max, min), actions, false);
    if At(s, client).Putting? {
      HolderIsCounted(s, client);
    }
  }

  /** For pools of all sizes: the counter keeps to the bound exactly when clients wait for open(). */
  lemma {:induction false} BoundNeedsOpen(max: int, min: int, early: bool)
    requires 1 <= min <= max
    ensures (forall s | Leads(NewPool(max, min), s, early) :: InBounds(s, max)) <==> !early
    ensures (forall s, k | Leads(NewPool(max, min), s, early) :: FindsRoom(s, k)) <==> !early
  {
    if early {
      var s := Overshoot(max, min);
      assert !InBounds(s, max) && !FindsRoom(s, max - 1);
    } else {
      forall s | Leads(NewPool(max, min), s, early) ensures InBounds(s, max) {
        PatientRunsAreBounded(max, min, s, 0);
      }
      forall s, k | Leads(NewPool(max, min), s, early) ensures FindsRoom(s, k) {
        PatientRunsAreBounded(max, min, s, k);
      }
    }
  }

  // What close() leaves behind

  /** Closed, and nobody is between its look at the closed flag and its put. */
  ghost predicate ClosedForGood(s: State) {
    s.closed && s.opener.Opened? && s.idle == [] && forall k :: !At(s, k).Putting?
  }

  lemma {:induction false} ClosedStaysEmpty(s: State, actions: seq<Action>)
    requires ClosedForGood(s) && IsRun(s, actions, false)
    ensures End(s, actions, false).idle == []
    decreases |actions|
  {
    if actions != [] {
      var a := actions[0];
      var t := Next(s, a);
      assert IsClient(a) && !At(s, Client(a)).Putting?;
      forall k ensures !At(t, k).Putting? {
        assert !At(s, k).Putting?;
      }
      ClosedStaysEmpty(t, actions[1..]);
    }
  }

  ghost predicate StaysEmpty(s: State) {
    forall actions | IsRun(s, actions, false) :: End(s, actions, false).idle == []
  }

  /** A queue that close() found empty stays empty exactly when nobody is about to put a connection into it. */
  lemma {:induction false} EmptyForGood(s: State)
    requires 1 <= s.max && s.closed && s.opener.Opened? && s.idle == []
    ensures StaysEmpty(s) <==> forall k :: !At(s, k).Putting?
  {
    if forall k :: !At(s, k).Putting? {
      forall actions | IsRun(s, actions, false) ensures End(s, actions, false).idle == [] {
        ClosedStaysEmpty(s, actions);
      }
    } else {
      var k :| At(s, k).Putting?;
      var t := Next(s, Put(k));
      assert [Put(k)][1..] == [] && IsRun(t, [], false) && End(t, [], false) == t;
      assert IsRun(s, [Put(k)], false) && End(s, [Put(k)], false) == t && t.idle != [];
    }
  }

  /** open() with a create that always works, from where it stands. */
  lemma {:induction false} OpenAll(start: State, s: State) returns (t: State)
    requires Leads(start, s, false) && s.opener.ToPut? && |s.idle| + s.opener.left <= s.max
    requires 1 <= s.opener.left
    ensures Leads(start, t, false) && t.opener == Opened && |t.idle| == |s.idle| + s.opener.left
    ensures t.clients == s.clients && t.closed == s.closed
    decreases s.opener.left
  {
    t := LeadsOn(start, s, OpenPut, false);
    t := LeadsOn(start, t, OpenCount, false);
    if s.opener.left > 1 {
      t := OpenAll(start, t);
    }
  }

  lemma {:induction false} DrainAll(start: State, s: State, k: int) returns (t: State)
    requires Leads(start, s, false) && At(s, k).Draining? && s.opener.Opened?
    ensures Leads(start, t, false) && t.idle == [] && t.clients == s.clients[k := Resting]
    ensures t.closed == s.closed && t.opener == s.opener && t.max == s.max
    decreases |s.idle|
  {
    t := LeadsOn(start, s, Drain(k), false);
    if s.idle != [] {
      t := LeadsOn(start, t, Drop(k), false);
      t := DrainAll(start, t, k);
    }
    assert t.clients == s.clients[k := Resting];
  }

  ghost predicate AllRest(s: State) {
    forall k :: At(s, k).Resting?
  }

  /** Somebody looked at the flag, the pool was closed, and then it put its connection into the queue. */
  lemma {:induction false} ClosedPoolKeepsAConnection(max: int, min: int) returns (s: State)
    requires 1 <= min <= max
    ensures Leads(NewPool(max, min), s, false) && s.closed && AllRest(s) && |s.idle| == 1
  {
    var start := NewPool(max, min);
    LeadsToSelf(start, false);
    s := OpenAll(start, start);
    s := LeadsOn(start, s, Ask(1), false);
    s := LeadsOn(start, s, Take(1), false);
    s := ToPutBack(start, s, 1, false);
    s := LeadsOn(start, s, StartClose(2), false);
    s := DrainAll(start, s, 2);
    assert s.max >= 1 by {
      var actions :| IsRun(start, actions, false) && End(start, actions, false) == s;
      RunKeepsSize(start, actions, false);
    }
    s := LeadsOn(start, s, Put(1), false);
  }
}
