/** The connection pool and the operations that borrow from it, statement
    by statement, with any number of steps of other clients in between.
    Each statement takes the step that PoolRuns has for it. */
module Pool {
  import opened PoolRuns
  import opened Wrappers

  /** How the statements of an operation end: each works or raises. */
  datatype Trial = Trial(start: bool, timeout: bool, body: seq<bool>, commit: bool, rollback: bool, create: bool)

  predicate AllWork(body: seq<bool>) {
    forall i | 0 <= i < |body| :: body[i]
  }

  lemma {:induction false} BothWork(first: bool, rest: seq<bool>)
    ensures AllWork([first] + rest) <==> first && AllWork(rest)
  {
    assert forall i | 0 <= i < |rest| :: rest[i] == ([first] + rest)[i + 1];
    assert ([first] + rest)[0] == first;
  }

  /** The clients between their look at the closed flag and their put. */
  function Putters(s: State): set<int> {
    set k | k in s.clients && At(s, k).Putting?
  }

  /** The connections in the queue, and those that a closed pool may still get. */
  function Pending(s: State): nat {
    |s.idle| + |Putters(s)|
  }

  lemma {:induction false} PuttersMove(s: State, t: State, client: int)
    requires t.clients == s.clients[client := At(t, client)]
    ensures |Putters(t)| + (if At(s, client).Putting? then 1 else 0)
      == |Putters(s)| + (if At(t, client).Putting? then 1 else 0)
  {
    assert Putters(t) == if At(t, client).Putting? then Putters(s) + {client} else Putters(s) - {client};
    assert client in Putters(s) <==> At(s, client).Putting?;
  }

  /** Once the pool is closed, clients put back no more than they are about to. */
  lemma {:induction false} PendingFalls(s: State, a: Action)
    requires s.closed && Enabled(s, a) && IsClient(a)
    ensures Pending(Next(s, a)) <= Pending(s)
    ensures a.Drain? && s.idle != [] ==> Pending(Next(s, a)) < Pending(s)
  {
    ClientMoves(s, a);
    PuttersMove(s, Next(s, a), Client(a));
    QueueMoves(s, a);
  }

  lemma {:induction false} QueueMoves(s: State, a: Action)
    requires s.closed && Enabled(s, a) && IsClient(a)
    ensures var t, k := Next(s, a), Client(a);
      |t.idle| + (if At(t, k).Putting? then 1 else 0) <= |s.idle| + (if At(s, k).Putting? then 1 else 0)
    ensures a.Drain? && s.idle != [] ==> |Next(s, a).idle| < |s.idle| && !At(Next(s, a), Client(a)).Putting?
  {
  }

  /** What the other clients may have done: all but touch client k and its connection. */
  predicate Beside(s: State, t: State, k: int) {
    && t.max == s.max && At(t, k) == At(s, k)
    && (s.closed ==> t.closed && Pending(t) <= Pending(s))
    && (Holder(s, k) ==> (At(s, k).connection in s.inTransaction <==> At(s, k).connection in t.inTransaction))
  }

  lemma {:induction false} TransactionStays(s: State, a: Action, connection: int)
    requires Enabled(s, a) && connection in s.inTransaction && !Own(s, a, connection)
    ensures connection in Next(s, a).inTransaction
  {
  }

  lemma {:induction false} StaysClosed(s: State, a: Action)
    requires Enabled(s, a) && s.closed
    ensures Next(s, a).closed
  {
  }

  lemma {:induction false} OtherStep(s: State, a: Action, k: int)
    requires Reachable(s) && Enabled(s, a) && IsClient(a) && Client(a) != k
    ensures Beside(s, Next(s, a), k)
  {
    ReachableInvariant(s);
    assert Apart(s, Client(a), k);
    ClientMoves(s, a);
    if s.closed {
      PendingFalls(s, a);
      StaysClosed(s, a);
    }
    if Holder(s, k) {
      var c := At(s, k).connection;
      if c in s.inTransaction {
        TransactionStays(s, a, c);
      } else if c in Next(s, a).inTransaction {
        TransactionsGet(s, a, c);
      }
    }
  }

  /**
   * How a client gets a connection, or none, from the state just before: the first of the queue, a new one
   * while there is room, none because creating failed, or none because the queue is empty once more.
   */
  predicate Acquires(before: State, after: State, k: int, creates: bool, connection: Option<int>) {
    match At(before, k)
    case Asking => TakesFirst(before, after, connection)
    case LastWait =>
      if before.idle == [] then connection.None? && after.idle == [] && after.created == before.created
      else TakesFirst(before, after, connection)
    case Starved =>
      && before.created < before.max && after.idle == before.idle
      && connection == (if creates then Some(before.made) else None)
      && after.created == before.created + if creates then 1 else 0
    case _ => false
  }

  predicate TakesFirst(before: State, after: State, connection: Option<int>) {
    && before.idle != [] && connection == Some(before.idle[0]) && after.idle == before.idle[1..]
    && after.created == before.created
  }

  /** The statements of a transaction that commits: all of them work. */
  predicate Executes(trial: Trial) {
    trial.start && trial.timeout && AllWork(trial.body) && trial.commit
  }

  /** The connection cannot be used again: its transaction does not start, or fails and does not roll back. */
  predicate Spoils(trial: Trial) {
    !trial.start || (!Executes(trial) && !trial.rollback)
  }

  /** The connection is the last in the queue, or the pool is closed and it is dropped. */
  predicate Released(s: State, connection: int) {
    (s.closed && connection in s.dropped) || (s.idle != [] && s.idle[|s.idle| - 1] == connection)
  }

  lemma {:induction false} BesideTrans(s: State, t: State, u: State, k: int)
    requires Beside(s, t, k) && Beside(t, u, k)
    ensures Beside(s, u, k)
  {
  }

  /** queue, created and closed are the pool's; the other fields are the world around it. */
  class ConnectionPool {
    const min: int
    const max: int
    var queue: seq<int>
    var created: int
    var closed: bool
    var clients: map<int, Phase>
    var opener: Opener
    var made: int
    var dropped: multiset<int>
    var inTransaction: set<int>

    constructor (min: int, max: int)
      requires 1 <= min <= max
      ensures Valid() && Now() == NewPool(max, min) && this.min == min
    {
      this.min, this.max := min, max;
      queue, created, closed := [], 0, false;
      clients, opener, made, dropped, inTransaction := map[], ToPut(min), 0, multiset{}, {};
      new;
      NewPoolReachable(max, min);
    }

    function Now(): State
      reads this
    {
      PoolRuns.State(max, queue, created, closed, clients, opener, made, dropped, inTransaction)
    }

    ghost predicate Valid()
      reads this
    {
      Reachable(Now())
    }

    function Where(k: int): Phase
      reads this
    {
      At(Now(), k)
    }

    ghost predicate Ready()
      reads this
    {
      Valid() && opener.Opened?
    }

    method Become(s: State)
      requires s.max == max
      modifies this
      ensures Now() == s
    {
      queue, created, closed, clients, opener := s.idle, s.created, s.closed, s.clients, s.opener;
      made, dropped, inTransaction := s.made, s.dropped, s.inTransaction;
    }

    /** Any number of steps of other clients. */
    method Others(k: int)
      requires Ready()
      modifies this
      ensures Ready() && Beside(old(Now()), Now(), k) && Where(k) == old(Where(k))
      ensures old(closed) ==> closed
    {
      var n: nat := *;
      while n > 0
        invariant Ready() && Beside(old(Now()), Now(), k)
      {
        var a: Action := *;
        if Enabled(Now(), a) && IsClient(a) && Client(a) != k {
          OtherStep(Now(), a, k);
          ReachableStep(Now(), a);
          BesideTrans(old(Now()), Now(), Next(Now(), a), k);
          Become(Next(Now(), a));
        }
        n := n - 1;
      }
    }

    /** Creates min connections; the first that fails ends it, and those before it stay. */
    method Open(works: seq<bool>) returns (ok: bool)
      requires Valid() && opener == ToPut(min) && queue == [] && |works| == min
      modifies this
      ensures Ready() && (ok <==> AllWork(works))
      ensures created == |queue| <= min && AllWork(works[..created]) && (created < min ==> !works[created])
    {
      ReachableInvariant(Now());
      var i := 0;
      while i < min
        invariant 0 <= i <= min && Valid() && created == i == |queue| && AllWork(works[..i])
        invariant opener == if i < min then ToPut(min - i) else Opened
      {
        if !works[i] {
          ReachableStep(Now(), OpenFail);
          opener := Opened;
          assert !AllWork(works);
          return false;
        }
        OpenOne();
        assert works[..i + 1] == works[..i] + [works[i]];
        i := i + 1;
      }
      assert works[..min] == works;
      ok := true;
    }

    method OpenOne()
      requires Valid() && opener.ToPut?
      modifies this
      ensures Valid() && created == old(created) + 1 && |queue| == |old(queue)| + 1
      ensures opener == if old(opener).left == 1 then Opened else ToPut(old(opener).left - 1)
    {
      ReachableInvariant(Now());
      ReachableStep(Now(), OpenPut);
      queue, made, opener := queue + [made], made + 1, ToCount(opener.left);
      ReachableStep(Now(), OpenCount);
      created, opener := created + 1, if opener.left == 1 then Opened else ToPut(opener.left - 1);
    }

    /** Takes the first of the queue, or makes one while there is room, or waits once more. */
    method Connection(k: int, creates: bool) returns (connection: Option<int>, ghost before: State)
      requires Ready() && Where(k).Resting?
      modifies this
      ensures Ready()
      ensures Where(k) == if connection.Some? then Borrowed(connection.value) else Resting
      ensures if old(closed) then connection.None? && Now() == old(Now())
        else Acquires(before, Now(), k, creates, connection)
    {
      before := Now();
      if closed {
        return None, Now();
      }
      ReachableStep(Now(), Ask(k));
      clients := clients[k := Asking];
      Others(k);
      if queue != [] {
        before := Now();
        connection := Get(k);
        return;
      }
      ReachableStep(Now(), TimeOut(k));
      clients := clients[k := Starved];
      Others(k);
      before := Now();
      connection := MakeOrWait(k, creates);
      if Where(k).LastWait? {
        Others(k);
        before := Now();
        connection := WaitAgain(k);
      }
    }

    method Get(k: int) returns (connection: Option<int>)
      requires Ready() && queue != [] && (Where(k).Asking? || Where(k).LastWait?)
      modifies this`queue, this`clients
      ensures Ready() && connection == Some(old(queue)[0]) && Where(k) == Borrowed(old(queue)[0])
      ensures queue == old(queue)[1..]
    {
      ReachableStep(Now(), Take(k));
      connection := Some(queue[0]);
      clients := clients[k := Borrowed(queue[0])];
      queue := queue[1..];
    }

    /** Under the pool's lock: the room is looked at and used in one step. */
    method MakeOrWait(k: int, creates: bool) returns (connection: Option<int>)
      requires Ready() && Where(k).Starved?
      modifies this`clients, this`made, this`created
      ensures Ready()
      ensures connection == if old(created) < max && creates then Some(old(made)) else None
      ensures Where(k) == if connection.Some? then Borrowed(connection.value)
        else if old(created) < max then Resting else LastWait
      ensures created == old(created) + if connection.Some? then 1 else 0
    {
      ReachableStep(Now(), Grow(k, creates));
      if created < max {
        if !creates {
          clients := clients[k := Resting];
          return None;
        }
        clients := clients[k := Borrowed(made)];
        connection := Some(made);
        made, created := made + 1, created + 1;
        return;
      }
      clients := clients[k := LastWait];
      connection := None;
    }

    method WaitAgain(k: int) returns (connection: Option<int>)
      requires Ready() && Where(k).LastWait?
      modifies this`queue, this`clients
      ensures Ready() && Where(k) == if connection.Some? then Borrowed(connection.value) else Resting
      ensures if old(queue) == [] then connection.None? && queue == []
        else connection == Some(old(queue)[0]) && queue == old(queue)[1..]
    {
      if queue == [] {
        ReachableStep(Now(), GiveUp(k));
        clients := clients[k := Resting];
        return None;
      }
      connection := Get(k);
    }

    /** Always finds room: only a pool that is closed in time discards. */
    method PutBack(k: int)
      requires Ready() && Where(k).Returning?
      modifies this
      ensures Ready() && Where(k).Resting?
      ensures
        var connection := old(Where(k)).connection;
        if old(closed) then closed && connection in dropped else queue != [] && queue[|queue| - 1] == connection
    {
      ReachableStep(Now(), LookClosed(k));
      var connection := Where(k).connection;
      if closed {
        clients := clients[k := Dropping(connection)];
        Others(k);
        Discard(k);
        return;
      }
      clients := clients[k := Putting(connection)];
      Others(k);
      PutNowait(k);
    }

    method PutNowait(k: int)
      requires Ready() && Where(k).Putting?
      modifies this`queue, this`clients
      ensures Ready() && Where(k).Resting? && queue == old(queue) + [old(Where(k)).connection] && |queue| <= max
    {
      HolderIsCounted(Now(), k);
      ReachableStep(Now(), Put(k));
      queue := queue + [Where(k).connection];
      clients := clients[k := Resting];
    }

    method Discard(k: int)
      requires Ready() && Where(k).Dropping?
      modifies this
      ensures Ready() && Where(k).Resting? && created == old(created) - 1
      ensures old(Where(k)).connection in dropped && queue == old(queue) && closed == old(closed)
    {
      HolderIsCounted(Now(), k);
      ReachableStep(Now(), Drop(k));
      created := if created - 1 > 0 then created - 1 else 0;
      dropped := dropped + multiset{Where(k).connection};
      clients := clients[k := Resting];
    }

    /**
     * Marks the pool and discards what is in the queue until it is empty. It stays empty, whatever the clients
     * do next, exactly when none of them looked at the mark before it was set and has yet to put.
     */
    method Close(k: int)
      requires Ready() && Where(k).Resting?
      modifies this
      ensures Ready() && closed && queue == [] && Where(k).Resting?
      ensures StaysEmpty(Now()) <==> forall j :: !At(Now(), j).Putting?
    {
      ReachableStep(Now(), StartClose(k));
      closed := true;
      clients := clients[k := Draining];
      Others(k);
      while queue != []
        invariant Ready() && closed && Where(k).Draining?
        decreases Pending(Now())
      {
        DrainOne(k);
        Others(k);
      }
      ReachableStep(Now(), Drain(k));
      clients := clients[k := Resting];
      ReachableInvariant(Now());
      EmptyForGood(Now());
    }

    method DrainOne(k: int)
      requires Ready() && closed && Where(k).Draining? && queue != []
      modifies this
      ensures Ready() && closed && Where(k).Draining?
      ensures old(queue)[0] in dropped && Pending(Now()) < old(Pending(Now()))
    {
      PendingFalls(Now(), Drain(k));
      TakeOne(k);
      Others(k);
      PendingFalls(Now(), Drop(k));
      DropOne(k);
    }

    method TakeOne(k: int)
      requires Ready() && Where(k).Draining? && queue != []
      modifies this`queue, this`clients
      ensures Ready() && Where(k) == Drained(old(queue)[0]) && Now() == Next(old(Now()), Drain(k))
    {
      ReachableStep(Now(), Drain(k));
      var connection := queue[0];
      clients := clients[k := Drained(connection)];
      queue := queue[1..];
    }

    method DropOne(k: int)
      requires Ready() && Where(k).Drained?
      modifies this`created, this`dropped, this`clients
      ensures Ready() && Where(k).Draining? && created == old(created) - 1 && Now() == Next(old(Now()), Drop(k))
      ensures old(Where(k)).connection in dropped
    {
      HolderIsCounted(Now(), k);
      ReachableStep(Now(), Drop(k));
      created := if created - 1 > 0 then created - 1 else 0;
      dropped := dropped + multiset{Where(k).connection};
      clients := clients[k := Draining];
    }

    // Statements on a borrowed connection, each after any steps of others

    method StartTransaction(k: int, works: bool)
      requires Ready() && Where(k).Borrowed?
      modifies this
      ensures Ready() && Where(k) == var c := old(Where(k)).connection; if works then InTransaction(c) else Dropping(c)
    {
      Others(k);
      ReachableStep(Now(), Start(k, works));
      var connection := Where(k).connection;
      clients := clients[k := if works then InTransaction(connection) else Dropping(connection)];
      inTransaction := inTransaction + {connection};
    }

    /** Statements up to the first that raises. */
    method Statements(k: int, works: seq<bool>) returns (ok: bool)
      requires Ready() && Where(k).InTransaction?
      modifies this
      ensures Ready() && ok == AllWork(works)
      ensures Where(k) == if ok then old(Where(k)) else Failing(old(Where(k)).connection)
    {
      var i := 0;
      while i < |works|
        invariant 0 <= i <= |works| && Ready() && AllWork(works[..i]) && Where(k) == old(Where(k))
      {
        Others(k);
        ReachableStep(Now(), Work(k, works[i]));
        if !works[i] {
          clients := clients[k := Failing(Where(k).connection)];
          assert !AllWork(works);
          return false;
        }
        assert works[..i + 1] == works[..i] + [works[i]];
        i := i + 1;
      }
      assert works[..i] == works;
      ok := true;
    }

    method CommitTransaction(k: int, works: bool)
      requires Ready() && Where(k).InTransaction?
      modifies this
      ensures Ready() && Where(k) == var c := old(Where(k)).connection; if works then Returning(c) else Failing(c)
    {
      Others(k);
      ReachableStep(Now(), Commit(k, works));
      var connection := Where(k).connection;
      if works {
        clients, inTransaction := clients[k := Returning(connection)], inTransaction - {connection};
      } else {
        clients := clients[k := Failing(connection)];
      }
    }

    method LeaveBody(k: int)
      requires Ready() && Where(k).InTransaction?
      modifies this
      ensures Ready() && Where(k) == Failing(old(Where(k)).connection)
    {
      Others(k);
      ReachableStep(Now(), EndBody(k));
      clients := clients[k := Failing(Where(k).connection)];
    }

    /** rollback() works, or raises an ordinary exception. */
    method RollbackOrDiscard(k: int, works: bool) returns (reusable: bool)
      requires Ready() && Where(k).Failing?
      modifies this
      ensures Ready() && reusable == works
      ensures Where(k) == if reusable then Returning(old(Where(k)).connection) else Resting
      ensures !reusable ==> old(Where(k)).connection in dropped
    {
      ReachableStep(Now(), Rollback(k, works));
      var connection := Where(k).connection;
      if works {
        clients, inTransaction := clients[k := Returning(connection)], inTransaction - {connection};
      } else {
        clients := clients[k := Dropping(connection)];
        Others(k);
        Discard(k);
      }
      reusable := works;
    }

    /**
     * _execute_once, and _read_metadata_once, outside a snapshot. At the end the client has no connection:
     * it went back without an open transaction, or was discarded.
     */
    method ExecuteOnce(k: int, trial: Trial)
        returns (ok: bool, ghost got: Option<int>, ghost before: State, ghost after: State)
      requires Ready() && Where(k).Resting?
      modifies this
      ensures Ready() && Where(k).Resting?
      ensures if old(closed) then got.None? else Acquires(before, after, k, trial.create, got)
      ensures ok <==> got.Some? && Executes(trial)
      ensures got.Some? ==> if Spoils(trial) then got.value in dropped else Released(Now(), got.value)
    {
      var connection;
      connection, before := Connection(k, trial.create);
      got, after := connection, Now();
      if connection.None? {
        return false, got, before, after;
      }
      ok := Execute(k, trial);
    }

    /** What follows once the connection is there. */
    method Execute(k: int, trial: Trial) returns (ok: bool)
      requires Ready() && Where(k).Borrowed?
      modifies this
      ensures Ready() && Where(k).Resting? && (ok <==> Executes(trial))
      ensures var c := old(Where(k)).connection; if Spoils(trial) then c in dropped else Released(Now(), c)
    {
      var reusable, transactionStarted := true, false;
      StartTransaction(k, trial.start);
      if !trial.start {
        reusable := false;
        Others(k);
        Discard(k);
        ok := false;
      } else {
        transactionStarted := true;
        BothWork(trial.timeout, trial.body);
        ok := Statements(k, [trial.timeout] + trial.body);
        if ok {
          CommitTransaction(k, trial.commit);
          ok, transactionStarted := trial.commit, !trial.commit;
        }
      }
      if !ok && reusable && transactionStarted {
        reusable := RollbackOrDiscard(k, trial.rollback);
      }
      if reusable {
        Others(k);
        PutBack(k);
      }
    }

    /** read_only_snapshot: the body's operations share the connection; leaving always rolls back. */
    method ReadOnlySnapshot(k: int, trial: Trial)
        returns (ok: bool, ghost got: Option<int>, ghost before: State, ghost after: State)
      requires Ready() && Where(k).Resting?
      modifies this
      ensures Ready() && Where(k).Resting?
      ensures if old(closed) then got.None? else Acquires(before, after, k, trial.create, got)
      ensures ok <==> got.Some? && trial.start && trial.timeout && AllWork(trial.body) && trial.rollback
      ensures got.Some? ==>
        if trial.start && trial.rollback then Released(Now(), got.value) else got.value in dropped
    {
      var connection;
      connection, before := Connection(k, trial.create);
      got, after := connection, Now();
      if connection.None? {
        return false, got, before, after;
      }
      ok := Snapshot(k, trial);
    }

    /** The snapshot once the connection is there. */
    method Snapshot(k: int, trial: Trial) returns (ok: bool)
      requires Ready() && Where(k).Borrowed?
      modifies this
      ensures Ready() && Where(k).Resting?
      ensures ok <==> trial.start && trial.timeout && AllWork(trial.body) && trial.rollback
      ensures
        var c := old(Where(k)).connection;
        if trial.start && trial.rollback then Released(Now(), c) else c in dropped
    {
      var reusable, transactionStarted := true, false;
      StartTransaction(k, trial.start);
      if !trial.start {
        reusable := false;
        Others(k);
        Discard(k);
        ok := false;
      } else {
        transactionStarted := true;
        BothWork(trial.timeout, trial.body);
        ok := Statements(k, [trial.timeout] + trial.body);
        if ok {
          LeaveBody(k);
        }
      }
      if reusable && transactionStarted {
        Others(k);
        reusable := RollbackOrDiscard(k, trial.rollback);
        ok := ok && reusable;
      }
      if reusable {
        Others(k);
        PutBack(k);
      }
    }
  }
}
