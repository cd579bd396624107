/** The repair-attempt protocol: validate, execute,
    and register repairs until success or exhaustion. */
module Repair {
  import opened Texts
  import opened Wrappers

  /** The fingerprint is any function on SQL text. */
  type Fingerprint = Text -> int

  datatype ErrorType =
    | SyntaxError | SchemaError | DialectError | BusinessKnowledgeMissing | AmbiguousSemantics | PermissionDenied
    | ConnectionError | Timeout | ResourceRisk | DuplicateSql | Unknown

  predicate Repairable(e: ErrorType) {
    e.SyntaxError? || e.SchemaError? || e.DialectError?
  }

  const MAX_REPAIR_COUNT := 3

  /** policyOk: the policy version is the current one. */
  datatype Validation = Validation(
    isValid: bool, policyOk: bool, normalized: Option<Text>, issue: Option<ErrorType>,
    tables: seq<int>, columns: seq<int>)

  datatype Execution = Rows(result: int) | Failed(error: ErrorType)

  datatype Attempt = Attempt(
    number: int, sql: Text, fingerprint: int, validation: Option<Validation>, execution: Option<Execution>) {
    function CurrentError(): Option<ErrorType> {
      if execution.Some? && execution.value.Failed? then Some(execution.value.error)
      else if validation.Some? then validation.value.issue
      else None
    }

    predicate IsSuccess() {
      execution.Some? && execution.value.Rows?
    }
  }

  datatype History = History(attempts: seq<Attempt>, seen: set<int>, repairCount: int) {
    function Current(): Attempt
      requires attempts != []
    {
      attempts[|attempts| - 1]
    }
  }

  datatype Status = Accepted | Duplicate | Exhausted

  datatype Registration = Registration(status: Status, history: History, attempt: Option<Attempt>)

  datatype Failure = EmptySql | AlreadyRecorded | ContextInvalid

  // What the constructors check

  predicate AttemptOk(fp: Fingerprint, a: Attempt) {
    && a.number >= 0 && !Blank(a.sql) && a.fingerprint == fp(a.sql)
    && (a.execution.Some? ==> a.validation.Some? && a.validation.value.isValid)
  }

  function Fingerprints(attempts: seq<Attempt>): set<int> {
    set i | 0 <= i < |attempts| :: attempts[i].fingerprint
  }

  predicate HistoryOk(fp: Fingerprint, h: History) {
    && h.attempts != []
    && (forall i | 0 <= i < |h.attempts| :: AttemptOk(fp, h.attempts[i]) && h.attempts[i].number == i)
    && (forall i, j | 0 <= i < j < |h.attempts| :: h.attempts[i].fingerprint != h.attempts[j].fingerprint)
    && h.seen == Fingerprints(h.attempts)
    && h.repairCount == |h.attempts| - 1 && 0 <= h.repairCount <= MAX_REPAIR_COUNT
  }

  predicate RegistrationOk(r: Registration) {
    && (r.attempt.Some? <==> r.status.Accepted?)
    && (r.status.Accepted? ==> r.history.attempts != [] && r.attempt == Some(r.history.Current()))
  }

  // The steps

  function StartAttempt(fp: Fingerprint, sql: Text): Result<History, Failure> {
    if Blank(sql) then Err(EmptySql)
    else Ok(History([Attempt(0, sql, fp(sql), None, None)], {fp(sql)}, 0))
  }

  function ReplaceCurrent(h: History, a: Attempt): History
    requires h.attempts != []
  {
    History(h.attempts[..|h.attempts| - 1] + [a], h.seen, h.repairCount)
  }

  predicate ValidationOk(fp: Fingerprint, current: Attempt, v: Validation) {
    && v.policyOk
    && if v.isValid then
         v.normalized.Some? && !Blank(v.normalized.value) && v.issue.None?
         && fp(v.normalized.value) == current.fingerprint
       else
         v.normalized.None? && v.issue.Some? && v.tables == [] && v.columns == []
  }

  function RecordValidation(fp: Fingerprint, h: History, v: Validation): Result<History, Failure>
    requires h.attempts != []
  {
    if h.Current().validation.Some? then Err(AlreadyRecorded)
    else if !ValidationOk(fp, h.Current(), v) then Err(ContextInvalid)
    else Ok(ReplaceCurrent(h, h.Current().(validation := Some(v))))
  }

  function RecordExecution(h: History, outcome: Execution): Result<History, Failure>
    requires h.attempts != []
  {
    if h.Current().execution.Some? then Err(AlreadyRecorded)
    else if h.Current().validation.None? || !h.Current().validation.value.isValid then Err(ContextInvalid)
    else Ok(ReplaceCurrent(h, h.Current().(execution := Some(outcome))))
  }

  function RegisterRepairSql(fp: Fingerprint, h: History, sql: Text): Result<Registration, Failure>
    requires h.attempts != []
  {
    var error := h.Current().CurrentError();
    if error.None? || !Repairable(error.value) then Err(ContextInvalid)
    else if Blank(sql) then Err(EmptySql)
    else if fp(sql) in h.seen then Ok(Registration(Duplicate, h, None))
    else if h.repairCount >= MAX_REPAIR_COUNT then Ok(Registration(Exhausted, h, None))
    else
      var attempt := Attempt(|h.attempts|, sql, fp(sql), None, None);
      var updated := History(h.attempts + [attempt], h.seen + {fp(sql)}, h.repairCount + 1);
      Ok(Registration(Accepted, updated, Some(attempt)))
  }

  // Runs

  datatype Action = Validate(validation: Validation) | Execute(outcome: Execution) | Register(sql: Text)

  /** The history after an action; a refused action leaves it as it was. */
  function Next(fp: Fingerprint, h: History, a: Action): History
    requires h.attempts != []
  {
    match a
    case Validate(v) => if RecordValidation(fp, h, v).Ok? then RecordValidation(fp, h, v).value else h
    case Execute(outcome) => if RecordExecution(h, outcome).Ok? then RecordExecution(h, outcome).value else h
    case Register(sql) => if RegisterRepairSql(fp, h, sql).Ok? then RegisterRepairSql(fp, h, sql).value.history else h
  }

  /** The action was carried out, and the history grew. */
  predicate Takes(fp: Fingerprint, h: History, a: Action)
    requires h.attempts != []
  {
    match a
    case Validate(v) => RecordValidation(fp, h, v).Ok?
    case Execute(outcome) => RecordExecution(h, outcome).Ok?
    case Register(sql) => RegisterRepairSql(fp, h, sql).Ok? && RegisterRepairSql(fp, h, sql).value.status.Accepted?
  }

  function Run(fp: Fingerprint, h: History, actions: seq<Action>): (r: History)
    requires h.attempts != []
    ensures r.attempts != []
    decreases |actions|
  {
    if actions == [] then h else Run(fp, Next(fp, h, actions[0]), actions[1..])
  }

  ghost predicate Reachable(fp: Fingerprint, h: History) {
    exists sql, actions :: StartAttempt(fp, sql).Ok? && Run(fp, StartAttempt(fp, sql).value, actions) == h
  }

  /** What every reachable history satisfies. */
  predicate Invariant(fp: Fingerprint, h: History) {
    && HistoryOk(fp, h)
    && (forall i | 0 <= i < |h.attempts| - 1 ::
          h.attempts[i].CurrentError().Some? && Repairable(h.attempts[i].CurrentError().value))
    && (forall i | 0 <= i < |h.attempts| && h.attempts[i].validation.Some? ::
          h.attempts[i].validation.value.isValid <==> h.attempts[i].validation.value.issue.None?)
  }

  lemma {:induction false} StartOk(fp: Fingerprint, sql: Text)
    requires StartAttempt(fp, sql).Ok?
    ensures Invariant(fp, StartAttempt(fp, sql).value)
  {
    var h := StartAttempt(fp, sql).value;
    assert h.attempts[0].fingerprint in Fingerprints(h.attempts);
  }

  lemma {:induction false} ReplaceKeeps(fp: Fingerprint, h: History, a: Attempt)
    requires Invariant(fp, h) && AttemptOk(fp, a) && a.number == h.Current().number
      && a.fingerprint == h.Current().fingerprint
    requires a.validation.Some? ==> (a.validation.value.isValid <==> a.validation.value.issue.None?)
    ensures Invariant(fp, ReplaceCurrent(h, a))
  {
    var t := ReplaceCurrent(h, a);
    assert forall i | 0 <= i < |h.attempts| :: t.attempts[i].fingerprint == h.attempts[i].fingerprint;
    assert Fingerprints(t.attempts) == Fingerprints(h.attempts);
  }

  /** No step makes a history that the constructors would reject. */
  lemma {:induction false} StepKeeps(fp: Fingerprint, h: History, a: Action)
    requires Invariant(fp, h)
    ensures Invariant(fp, Next(fp, h, a))
    ensures a.Register? && RegisterRepairSql(fp, h, a.sql).Ok? ==> RegistrationOk(RegisterRepairSql(fp, h, a.sql).value)
  {
    match a
    case Validate(v) =>
      if RecordValidation(fp, h, v).Ok? {
        ReplaceKeeps(fp, h, h.Current().(validation := Some(v)));
      }
    case Execute(outcome) =>
      if RecordExecution(h, outcome).Ok? {
        ReplaceKeeps(fp, h, h.Current().(execution := Some(outcome)));
      }
    case Register(sql) =>
      if Takes(fp, h, a) {
        RegisterKeeps(fp, h, sql);
      }
  }

  lemma {:induction false} RegisterKeeps(fp: Fingerprint, h: History, sql: Text)
    requires Invariant(fp, h) && Takes(fp, h, Register(sql))
    ensures Invariant(fp, Next(fp, h, Register(sql)))
  {
    SeenIsUsed(fp, h, sql);
    var n := |h.attempts|;
    assert h.attempts[n - 1].CurrentError() == h.Current().CurrentError();
    AppendKeeps(fp, h, Attempt(n, sql, fp(sql), None, None));
  }

  lemma {:induction false} AppendKeeps(fp: Fingerprint, h: History, a: Attempt)
    requires Invariant(fp, h) && AttemptOk(fp, a) && a.number == |h.attempts| && a.validation.None?
      && h.repairCount < MAX_REPAIR_COUNT
    requires h.Current().CurrentError().Some? && Repairable(h.Current().CurrentError().value)
    requires !UsedBefore(fp, h, a.sql)
    ensures Invariant(fp, History(h.attempts + [a], h.seen + {a.fingerprint}, h.repairCount + 1))
  {
    var attempts := h.attempts + [a];
    assert Fingerprints(attempts) == h.seen + {a.fingerprint} by {
      forall f ensures f in h.seen + {a.fingerprint} <==> f in Fingerprints(attempts) {
        if f in h.seen {
          var i :| 0 <= i < |h.attempts| && h.attempts[i].fingerprint == f;
          assert attempts[i].fingerprint == f;
        }
        assert attempts[|h.attempts|].fingerprint == a.fingerprint;
      }
    }
  }

  predicate UsedBefore(fp: Fingerprint, h: History, sql: Text) {
    exists i :: 0 <= i < |h.attempts| && h.attempts[i].fingerprint == fp(sql)
  }

  lemma {:induction false} SeenIsUsed(fp: Fingerprint, h: History, sql: Text)
    requires HistoryOk(fp, h)
    ensures fp(sql) in h.seen <==> UsedBefore(fp, h, sql)
  {
    assert fp(sql) in h.seen <==> fp(sql) in Fingerprints(h.attempts);
  }

  lemma {:induction false} RunKeeps(fp: Fingerprint, h: History, actions: seq<Action>)
    requires Invariant(fp, h)
    ensures Invariant(fp, Run(fp, h, actions))
    decreases |actions|
  {
    if actions != [] {
      StepKeeps(fp, h, actions[0]);
      RunKeeps(fp, Next(fp, h, actions[0]), actions[1..]);
    }
  }

  /** In every run: at most four attempts, distinct fingerprints, and all but the last ended in a repairable error. */
  lemma {:induction false} HistoryOfEveryRun(fp: Fingerprint, h: History)
    requires Reachable(fp, h)
    ensures HistoryOk(fp, h) && 1 <= |h.attempts| <= 4
    ensures forall i, j | 0 <= i < j < |h.attempts| :: fp(h.attempts[i].sql) != fp(h.attempts[j].sql)
    ensures forall i | 0 <= i < |h.attempts| - 1 ::
              !h.attempts[i].IsSuccess() && h.attempts[i].CurrentError().Some?
              && Repairable(h.attempts[i].CurrentError().value)
  {
    ReachableInvariant(fp, h);
    forall i | 0 <= i < |h.attempts| - 1 ensures !h.attempts[i].IsSuccess() {
      assert AttemptOk(fp, h.attempts[i]);
    }
  }

  lemma {:induction false} ReachableInvariant(fp: Fingerprint, h: History)
    requires Reachable(fp, h)
    ensures Invariant(fp, h)
  {
    var sql, actions :| StartAttempt(fp, sql).Ok? && Run(fp, StartAttempt(fp, sql).value, actions) == h;
    StartOk(fp, sql);
    RunKeeps(fp, StartAttempt(fp, sql).value, actions);
  }

  /** After success every action is refused, for ever. */
  lemma {:induction false} NothingAfterSuccess(fp: Fingerprint, h: History, actions: seq<Action>)
    requires Reachable(fp, h) && h.Current().IsSuccess()
    ensures Run(fp, h, actions) == h
  {
    ReachableInvariant(fp, h);
    StaysSuccessful(fp, h, actions);
  }

  lemma {:induction false} StaysSuccessful(fp: Fingerprint, h: History, actions: seq<Action>)
    requires Invariant(fp, h) && h.Current().IsSuccess()
    ensures Run(fp, h, actions) == h
    decreases |actions|
  {
    if actions != [] {
      assert AttemptOk(fp, h.attempts[|h.attempts| - 1]);
      assert Next(fp, h, actions[0]) == h;
      StaysSuccessful(fp, h, actions[1..]);
    }
  }

  /** A proper repair is a duplicate exactly when its fingerprint was used before, even when repairs are exhausted. */
  lemma {:induction false} RegistrationOutcome(fp: Fingerprint, h: History, sql: Text)
    requires Reachable(fp, h) && RegisterRepairSql(fp, h, sql).Ok?
    ensures
      var status := RegisterRepairSql(fp, h, sql).value.status;
      && (status.Duplicate? <==> UsedBefore(fp, h, sql))
      && (status.Exhausted? <==> !UsedBefore(fp, h, sql) && |h.attempts| == 4)
      && (status.Accepted? <==> !UsedBefore(fp, h, sql) && |h.attempts| < 4)
  {
    ReachableInvariant(fp, h);
    SeenIsUsed(fp, h, sql);
  }

  /** All of the history but the outcome of its last attempt is the same. */
  predicate OnlyLast(h: History, t: History)
    requires h.attempts != [] && t.attempts != []
  {
    && |t.attempts| == |h.attempts| && t.attempts[..|t.attempts| - 1] == h.attempts[..|h.attempts| - 1]
    && t.seen == h.seen && t.repairCount == h.repairCount && t.Current().number == h.Current().number
    && t.Current().sql == h.Current().sql && t.Current().fingerprint == h.Current().fingerprint
  }

  /** The first result for an attempt is taken, if it speaks of the attempt's SQL, or names an issue only. */
  lemma {:induction false} ValidationTells(fp: Fingerprint, h: History, v: Validation)
    requires Reachable(fp, h)
    ensures
      var a := h.Current();
      var consistent :=
        && v.policyOk
        && (v.isValid ==> v.normalized.Some? && !Blank(v.normalized.value) && fp(v.normalized.value) == fp(a.sql))
        && (v.isValid <==> v.issue.None?)
        && (!v.isValid ==> v.normalized.None? && v.tables == [] && v.columns == []);
      && (RecordValidation(fp, h, v) == Err(AlreadyRecorded) <==> a.validation.Some?)
      && (RecordValidation(fp, h, v) == Err(ContextInvalid) <==> a.validation.None? && !consistent)
      && (RecordValidation(fp, h, v).Ok? <==> a.validation.None? && consistent)
    ensures RecordValidation(fp, h, v).Ok? ==>
      var t := RecordValidation(fp, h, v).value;
      && t.attempts != [] && OnlyLast(h, t)
      && t.Current().validation == Some(v) && t.Current().execution == h.Current().execution
  {
    ReachableInvariant(fp, h);
    assert AttemptOk(fp, h.attempts[|h.attempts| - 1]);
  }

  /** The first outcome of an attempt that was found valid is taken. */
  lemma {:induction false} ExecutionTells(h: History, outcome: Execution)
    requires h.attempts != []
    ensures
      var a, r := h.Current(), RecordExecution(h, outcome);
      && (r == Err(AlreadyRecorded) <==> a.execution.Some?)
      && (r.Ok? <==> a.execution.None? && a.validation.Some? && a.validation.value.isValid)
      && (r.Err? ==> r.error.AlreadyRecorded? || r.error.ContextInvalid?)
      && (r.Ok? ==>
            && r.value.attempts != [] && OnlyLast(h, r.value)
            && r.value.Current().execution == Some(outcome) && r.value.Current().validation == a.validation)
  {
  }

  /** A repair follows a syntax, schema or dialect error only, and is added as the next attempt. */
  lemma {:induction false} RegistrationTells(fp: Fingerprint, h: History, sql: Text)
    requires Reachable(fp, h)
    ensures
      var e, r := h.Current().CurrentError(), RegisterRepairSql(fp, h, sql);
      var repairable := e == Some(SyntaxError) || e == Some(SchemaError) || e == Some(DialectError);
      && (r == Err(ContextInvalid) <==> !repairable) && (r == Err(EmptySql) <==> repairable && Blank(sql))
      && (r.Ok? <==> repairable && !Blank(sql))
      && (r.Ok? && !r.value.status.Accepted? ==> r.value.history == h && r.value.attempt.None?)
      && (r.Ok? && r.value.status.Accepted? ==>
            var next := Attempt(|h.attempts|, sql, fp(sql), None, None);
            && r.value.attempt == Some(next) && r.value.history.attempts == h.attempts + [next]
            && r.value.history.repairCount == |h.attempts|)
  {
    ReachableInvariant(fp, h);
  }

  // Progress

  /** Three for each repair left, and one for each outcome not recorded yet. */
  function Remaining(h: History): int
    requires h.attempts != []
  {
    3 * (MAX_REPAIR_COUNT - h.repairCount)
    + (if h.Current().validation.None? then 1 else 0) + (if h.Current().execution.None? then 1 else 0)
  }

  lemma {:induction false} StepUsesUp(fp: Fingerprint, h: History, a: Action)
    requires Invariant(fp, h)
    ensures 0 <= Remaining(h) <= 11
    ensures if Takes(fp, h, a) then Remaining(Next(fp, h, a)) < Remaining(h) else Next(fp, h, a) == h
  {
  }

  function StepsTaken(fp: Fingerprint, h: History, actions: seq<Action>): int
    requires h.attempts != []
    decreases |actions|
  {
    if actions == [] then 0
    else (if Takes(fp, h, actions[0]) then 1 else 0) + StepsTaken(fp, Next(fp, h, actions[0]), actions[1..])
  }

  lemma {:induction false} StepsUseUp(fp: Fingerprint, h: History, actions: seq<Action>)
    requires Invariant(fp, h)
    ensures StepsTaken(fp, h, actions) + Remaining(Run(fp, h, actions)) <= Remaining(h)
    decreases |actions|
  {
    if actions != [] {
      StepUsesUp(fp, h, actions[0]);
      StepKeeps(fp, h, actions[0]);
      StepsUseUp(fp, Next(fp, h, actions[0]), actions[1..]);
    }
  }

  /** However long a run, at most eleven of its actions are carried out. */
  lemma {:induction false} RunsComeToAnEnd(fp: Fingerprint, sql: Text, actions: seq<Action>)
    requires StartAttempt(fp, sql).Ok?
    ensures StepsTaken(fp, StartAttempt(fp, sql).value, actions) <= 11
  {
    var h := StartAttempt(fp, sql).value;
    StartOk(fp, sql);
    StepsUseUp(fp, h, actions);
    RunKeeps(fp, h, actions);
    var end := Run(fp, h, actions);
    assert 0 <= Remaining(end);
  }

  // The decision that precedes a repair

  datatype Route = GenerateSql | SchemaLinking | Clarification | Finalize

  datatype Strategy = MinimalSqlRepair | RelinkSchema | RegeneratePostgres

  datatype Decision = Decision(route: Route, strategy: Option<Strategy>)

  function DecideReflection(error: ErrorType, repairCount: int, canReduceResource: bool): Result<Decision, Failure> {
    if !(0 <= repairCount <= MAX_REPAIR_COUNT) then Err(ContextInvalid)
    else if Repairable(error) && repairCount >= MAX_REPAIR_COUNT then Ok(Decision(Finalize, None))
    else
      match error
      case SyntaxError => Ok(Decision(GenerateSql, Some(MinimalSqlRepair)))
      case SchemaError => Ok(Decision(SchemaLinking, Some(RelinkSchema)))
      case DialectError => Ok(Decision(GenerateSql, Some(RegeneratePostgres)))
      case BusinessKnowledgeMissing => Ok(Decision(Clarification, None))
      case AmbiguousSemantics => Ok(Decision(Clarification, None))
      case ResourceRisk => Ok(Decision(if canReduceResource then Clarification else Finalize, None))
      case _ => Ok(Decision(Finalize, None))
  }

  /** Where each error leads: to a repair while any is left, to the user, or to the end. */
  lemma {:induction false} DecisionTells(error: ErrorType, repairCount: int, canReduceResource: bool)
    ensures
      var r := DecideReflection(error, repairCount, canReduceResource);
      && (r == Err(ContextInvalid) <==> !(0 <= repairCount <= 3)) && (r.Ok? <==> 0 <= repairCount <= 3)
      && (r.Ok? ==>
            && (r.value.strategy == Some(MinimalSqlRepair) <==> error == SyntaxError && repairCount < 3)
            && (r.value.strategy == Some(RelinkSchema) <==> error == SchemaError && repairCount < 3)
            && (r.value.strategy == Some(RegeneratePostgres) <==> error == DialectError && repairCount < 3)
            && (r.value.route == GenerateSql <==>
                  r.value.strategy == Some(MinimalSqlRepair) || r.value.strategy == Some(RegeneratePostgres))
            && (r.value.route == SchemaLinking <==> r.value.strategy == Some(RelinkSchema))
            && (r.value.route == Clarification <==>
                  || error == BusinessKnowledgeMissing || error == AmbiguousSemantics
                  || (error == ResourceRisk && canReduceResource)))
  {
  }

  /** A repair is decided on exactly when a new SQL text would be accepted. */
  lemma {:induction false} DecisionMatchesRegistration(fp: Fingerprint, h: History, sql: Text, canReduceResource: bool)
    requires Reachable(fp, h) && !Blank(sql) && !UsedBefore(fp, h, sql) && h.Current().CurrentError().Some?
    ensures
      var decision := DecideReflection(h.Current().CurrentError().value, h.repairCount, canReduceResource);
      && decision.Ok?
      && (decision.value.strategy.Some? <==> Takes(fp, h, Register(sql)))
  {
    ReachableInvariant(fp, h);
    SeenIsUsed(fp, h, sql);
  }
}
