/**
 * What the manager guarantees over a whole run: an external driver loop that calls `Pass`
 * again and again. Deactivation is absorbing, return values track liveness, and across
 * the whole trace no state is called after its terminate, every discarded state is
 * terminated, and every constructor call directly follows a terminate.
 */
module Lifecycle {
  import opened Wrappers
  import opened GameState
  import opened GameManager

  /** The managers after each pass, each pass's return value, and all calls made, in order. */
  datatype Run<S, C, K> = Run(managers: seq<Manager<S, C>>, results: seq<Result<bool>>, trace: seq<Event<K>>)

  /** The driver loop: `n` consecutive passes starting from `m`. */
  function Drive<S, C, K>(b: Behaviour<S, C, K>, m: Manager<S, C>, n: nat): (r: Run<S, C, K>)
    ensures |r.managers| == n && |r.results| == n
    // the whole run makes at most 3 * n calls into embedder code
    ensures |r.trace| <= 3 * n
    decreases n
  {
    if n == 0 then
      Run([], [], [])
    else
      var step := Pass(b, m);
      var rest := Drive(b, step.manager, n - 1);
      Run([step.manager] + rest.managers, [step.result] + rest.results, step.trace + rest.trace)
  }

  /** A run of `n > 0` passes is one pass followed by a run of `n - 1`. */
  lemma DriveUnfolds<S, C, K>(b: Behaviour<S, C, K>, m: Manager<S, C>, n: nat)
    requires n > 0
    ensures var step := Pass(b, m);
            var rest := Drive(b, step.manager, n - 1);
            && Drive(b, m, n).trace == step.trace + rest.trace
            && Drive(b, m, n).managers == [step.manager] + rest.managers
            && Drive(b, m, n).results == [step.result] + rest.results
            && Final(m, Drive(b, m, n)) == Final(step.manager, rest)
  {
  }

  /** Every pass of a run returns `Ok(true)` exactly when the manager is active after it. */
  lemma {:induction false} ReturnsTrackLiveness<S, C, K>(b: Behaviour<S, C, K>, m: Manager<S, C>, n: nat)
    ensures var r := Drive(b, m, n);
            forall i :: 0 <= i < n ==> (r.results[i] == Ok(true) <==> r.managers[i].isActive)
    decreases n
  {
    if n > 0 {
      DriveUnfolds(b, m, n);
      ReturnsTrackLiveness(b, Pass(b, m).manager, n - 1);
    }
  }

  /** A deactivated manager calls nothing and changes nothing, however many passes it is
      given, and every one of them returns `Ok(false)`. */
  lemma {:induction false} InactiveIsInert<S, C, K>(b: Behaviour<S, C, K>, m: Manager<S, C>, n: nat)
    requires !m.isActive
    ensures var r := Drive(b, m, n);
            && r.trace == []
            && forall i :: 0 <= i < n ==> r.managers[i] == m && r.results[i] == Ok(false)
    decreases n
  {
    if n > 0 {
      DriveUnfolds(b, m, n);
      InactiveIsInert(b, m, n - 1);
    }
  }

  /** Along a run's managers and return values: once a manager is deactivated, every later
      manager is the same one and every later pass returns `Ok(false)`. */
  ghost predicate Absorbing<S, C>(managers: seq<Manager<S, C>>, results: seq<Result<bool>>) {
    && |managers| == |results|
    && forall i, j :: 0 <= i < j < |managers| && !managers[i].isActive ==>
         managers[j] == managers[i] && results[j] == Ok(false)
  }

  /** Putting a pass in front of an absorbing run keeps it absorbing, provided a deactivated
      manager is followed only by itself. */
  lemma AbsorbingCons<S, C>(m: Manager<S, C>, result: Result<bool>, managers: seq<Manager<S, C>>, results: seq<Result<bool>>)
    requires Absorbing(managers, results)
    requires !m.isActive ==> forall i :: 0 <= i < |managers| ==> managers[i] == m && results[i] == Ok(false)
    ensures Absorbing([m] + managers, [result] + results)
  {
    var ms, rs := [m] + managers, [result] + results;
    forall i, j | 0 <= i < j < |ms| && !ms[i].isActive
      ensures ms[j] == ms[i] && rs[j] == Ok(false)
    {
      assert ms[j] == managers[j - 1] && rs[j] == results[j - 1];
      if i > 0 {
        assert ms[i] == managers[i - 1];
      }
    }
  }

  /** Once a pass of a run leaves the manager deactivated, it never changes again and every
      later pass returns `Ok(false)`. */
  lemma {:induction false} DeactivationIsAbsorbing<S, C, K>(b: Behaviour<S, C, K>, m: Manager<S, C>, n: nat)
    ensures Absorbing(Drive(b, m, n).managers, Drive(b, m, n).results)
    decreases n
  {
    if n > 0 {
      var step := Pass(b, m);
      var rest := Drive(b, step.manager, n - 1);
      DriveUnfolds(b, m, n);
      DeactivationIsAbsorbing(b, step.manager, n - 1);
      if !step.manager.isActive {
        InactiveIsInert(b, step.manager, n - 1);
      }
      AbsorbingCons(step.manager, step.result, rest.managers, rest.results);
    }
  }

  /** The manager after a run from `m`. */
  function Final<S, C, K>(m: Manager<S, C>, r: Run<S, C, K>): Manager<S, C> {
    if |r.managers| == 0 then m else r.managers[|r.managers| - 1]
  }

  /** No call touches a state after its terminate; in particular a state is terminated at most once. */
  ghost predicate TerminateIsFinal<K>(t: seq<Event<K>>) {
    forall i, j :: 0 <= i < j < |t| && t[i].Terminate? ==> !t[j].Touches(t[i].id)
  }

  /** Every constructor call, except a first one, directly follows a terminate. */
  ghost predicate CleanupBeforeConstruct<K>(t: seq<Event<K>>) {
    forall i :: 0 < i < |t| && t[i].Construct? ==> t[i - 1].Terminate?
  }

  /** What holds between a manager and the calls that produced it. */
  ghost predicate Consistent<S, C, K>(m: Manager<S, C>, t: seq<Event<K>>) {
    // no state beyond the current serial number has been called
    && (forall e :: e in t && !e.Construct? ==> e.id <= m.activeId)
    // every state that was replaced got its terminate
    && (forall id: nat :: id < m.activeId ==> Terminate(id) in t)
    // the state in the slot has been terminated exactly when the manager is deactivated
    && (Terminate(m.activeId) in t <==> !m.isActive)
    && TerminateIsFinal(t)
    && CleanupBeforeConstruct(t)
  }

  /** A freshly created manager is consistent with the single constructor call that built it. */
  lemma CreateIsConsistent<S, C, K>(b: Behaviour<S, C, K>, context: C, k: K)
    ensures Create(b, context, k).result.Ok? ==>
              Consistent(Create(b, context, k).result.value, Create(b, context, k).trace)
  {
  }

  /** One pass keeps a manager consistent with the growing trace. */
  lemma PassKeepsConsistent<S, C, K>(b: Behaviour<S, C, K>, m: Manager<S, C>, t: seq<Event<K>>)
    requires Consistent(m, t)
    ensures Consistent(Pass(b, m).manager, t + Pass(b, m).trace)
  {
  }

  /** Induction over runs: whatever one pass preserves between a manager and the trace that
      led to it, any number of passes preserves. */
  lemma {:induction false} DriveKeepsInvariant<S, C, K>(b: Behaviour<S, C, K>, inv: (Manager<S, C>, seq<Event<K>>) -> bool,
                                                       m: Manager<S, C>, t: seq<Event<K>>, n: nat)
    requires forall m', t' :: inv(m', t') ==> inv(Pass(b, m').manager, t' + Pass(b, m').trace)
    requires inv(m, t)
    ensures inv(Final(m, Drive(b, m, n)), t + Drive(b, m, n).trace)
    decreases n
  {
    if n > 0 {
      var step := Pass(b, m);
      DriveKeepsInvariant(b, inv, step.manager, t + step.trace, n - 1);
      DriveUnfolds(b, m, n);
      assert t + Drive(b, m, n).trace == (t + step.trace) + Drive(b, step.manager, n - 1).trace;
    } else {
      assert t + Drive(b, m, n).trace == t;
    }
  }

  /** Any number of passes keeps a manager consistent with the growing trace. */
  lemma DriveKeepsConsistent<S, C, K>(b: Behaviour<S, C, K>, m: Manager<S, C>, t: seq<Event<K>>, n: nat)
    requires Consistent(m, t)
    ensures Consistent(Final(m, Drive(b, m, n)), t + Drive(b, m, n).trace)
  {
    var inv := (m': Manager<S, C>, t': seq<Event<K>>) => Consistent(m', t');
    forall m': Manager<S, C>, t': seq<Event<K>> | inv(m', t')
      ensures inv(Pass(b, m').manager, t' + Pass(b, m').trace)
    {
      PassKeepsConsistent(b, m', t');
    }
    DriveKeepsInvariant(b, inv, m, t, n);
  }

  /**
   * The lifecycle of every manager that `Create` returns, over any number of passes: no
   * state is called after its terminate (so none is terminated twice), every constructor
   * call after the first directly follows the outgoing state's terminate, every state
   * that was replaced was terminated, and the last state has been terminated exactly
   * when the manager is deactivated.
   */
  lemma ManagerLifecycle<S, C, K>(b: Behaviour<S, C, K>, context: C, k: K, n: nat)
    requires Create(b, context, k).result.Ok?
    ensures var c := Create(b, context, k);
            var r := Drive(b, c.result.value, n);
            var last := Final(c.result.value, r);
            var t := c.trace + r.trace;
            && TerminateIsFinal(t)
            && CleanupBeforeConstruct(t)
            && (forall id: nat :: id < last.activeId ==> Terminate(id) in t)
            && (Terminate(last.activeId) in t <==> !last.isActive)
  {
    var c := Create(b, context, k);
    CreateIsConsistent(b, context, k);
    DriveKeepsConsistent(b, c.result.value, c.trace, n);
  }

  /**
   * After a transition whose constructor failed, the terminated state left in the slot
   * is unreachable: no later pass calls anything, changes anything, or returns anything
   * but `Ok(false)`.
   */
  lemma FailedStateIsNeverCalled<S, C, K>(b: Behaviour<S, C, K>, m: Manager<S, C>, n: nat)
    requires Pass(b, m).result.Err?
    ensures var failed := Pass(b, m).manager;
            var r := Drive(b, failed, n);
            && r.trace == []
            && forall i :: 0 <= i < n ==> r.managers[i] == failed && r.results[i] == Ok(false)
  {
    InactiveIsInert(b, Pass(b, m).manager, n);
  }

  /** The two modes of the manager: active (passes run the active state) or deactivated. */
  datatype Mode = Active | Terminated

  function ModeOf<S, C>(m: Manager<S, C>): Mode {
    if m.isActive then Active else Terminated
  }

  /** The manager's mode table: `Continue` and a successful change stay `Active`, `Quit`
      and a failed change go to `Terminated`, which has no way out. */
  function NextMode<K>(mode: Mode, outcome: UpdateResult<K>, constructed: bool): Mode {
    match mode
    case Terminated => Terminated
    case Active =>
      match outcome
      case Continue => Active
      case ChangeState(_) => if constructed then Active else Terminated
      case Quit => Terminated
  }

  /** Whether the constructor a `ChangeState` names would succeed on the context terminate leaves. */
  ghost predicate NextStateBuilds<S, C, K>(b: Behaviour<S, C, K>, m: Manager<S, C>) {
    var (outcome, state, context) := b.updateAndDraw(m.active, m.context);
    outcome.ChangeState? && b.construct(outcome.next, b.terminate(state, context).1).0.Ok?
  }

  /** `Pass` follows the manager's mode table. */
  lemma PassFollowsModeTable<S, C, K>(b: Behaviour<S, C, K>, m: Manager<S, C>)
    ensures ModeOf(Pass(b, m).manager) ==
            NextMode(ModeOf(m), b.updateAndDraw(m.active, m.context).0, NextStateBuilds(b, m))
  {
  }
}
