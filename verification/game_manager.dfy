/**
 * The state manager: it owns the shared context and the active state, and each pass
 * hands control to the active state and carries out what that state decided.
 */
module GameManager {
  import opened Wrappers
  import opened GameState

  const InitialFailurePrefix: string := "Failed to create initial state: "
  const NextFailurePrefix: string := "Failed to create next state: "

  /**
   * The manager's fields. `activeId` is the serial number of the state in the `active`
   * slot; it stands for the identity of the boxed state and is what trace events name.
   * Once `isActive` is false the slot still holds the last, already terminated state.
   */
  datatype Manager<S, C> = Manager(context: C, active: S, activeId: nat, isActive: bool)

  /** What creating a manager yields, together with the calls it made. */
  datatype Creation<S, C, K> = Creation(result: Result<Manager<S, C>>, trace: seq<Event<K>>)

  /** What one pass yields: the manager afterwards, the pass's return value, and the calls it made. */
  datatype Step<S, C, K> = Step(manager: Manager<S, C>, result: Result<bool>, trace: seq<Event<K>>)

  /** Builds a manager whose first state comes from constructor `k`, applied to `context`. */
  function Create<S, C, K>(b: Behaviour<S, C, K>, context: C, k: K): (r: Creation<S, C, K>)
    // the constructor is invoked exactly once, and nothing else is
    ensures r.trace == [Construct(k)]
    // failure is reported exactly when the constructor fails, with its message behind the fixed prefix
    ensures r.result.Err? <==> b.construct(k, context).0.Err?
    ensures r.result.Err? ==>
              && |InitialFailurePrefix| <= |r.result.msg|
              && r.result.msg[..|InitialFailurePrefix|] == InitialFailurePrefix
              && r.result.msg[|InitialFailurePrefix|..] == b.construct(k, context).0.msg
    // on success the manager is active, holds the constructed state as state 0,
    // and owns the context as the constructor left it
    ensures r.result.Ok? ==>
              && r.result.value.isActive
              && r.result.value.activeId == 0
              && r.result.value.active == b.construct(k, context).0.value
              && r.result.value.context == b.construct(k, context).1
  {
    var (built, context') := b.construct(k, context);
    match built
    case Ok(state) => Creation(Ok(Manager(context', state, 0, true)), [Construct(k)])
    case Err(msg) => Creation(Err(InitialFailurePrefix + msg), [Construct(k)])
  }

  /** Whether the active state's update, on this manager, asks for something other than `Continue`. */
  ghost predicate LeavesState<S, C, K>(b: Behaviour<S, C, K>, m: Manager<S, C>) {
    m.isActive && !b.updateAndDraw(m.active, m.context).0.Continue?
  }

  /** One pass of the manager. */
  function Pass<S, C, K>(b: Behaviour<S, C, K>, m: Manager<S, C>): (r: Step<S, C, K>)
    // the return value tracks liveness: Ok(true) exactly when the manager is still active
    ensures r.result == Ok(true) <==> r.manager.isActive
    // an error is surfaced only by the pass that deactivates the manager
    ensures r.result.Err? ==> m.isActive && !r.manager.isActive
    // deactivation is absorbing, and a deactivated manager is left exactly as it was
    ensures r.manager.isActive ==> m.isActive
    ensures !m.isActive ==> r.manager == m && r.result == Ok(false) && r.trace == []
    // an active manager updates its active state once, first
    ensures m.isActive ==> |r.trace| > 0 && r.trace[0] == UpdateAndDraw(m.activeId)
    ensures forall i :: 0 < i < |r.trace| ==> !r.trace[i].UpdateAndDraw?
    // after its terminate the outgoing state is never called again; only a constructor may follow
    ensures forall i, j :: 0 <= i < j < |r.trace| && r.trace[i].Terminate? ==> r.trace[j].Construct?
    // the state is terminated exactly when it asks to be left, and only that state is touched
    ensures Terminate(m.activeId) in r.trace <==> LeavesState(b, m)
    ensures forall e :: e in r.trace && !e.Construct? ==> e.id == m.activeId
    // cleanup before construction: a constructor call directly follows the outgoing state's terminate
    ensures forall i :: 0 <= i < |r.trace| && r.trace[i].Construct? ==> 0 < i && r.trace[i - 1] == Terminate(m.activeId)
    // the active state changes only by a transition, which installs the next serial number
    ensures r.manager.isActive ==>
              r.manager.activeId == if LeavesState(b, m) then m.activeId + 1 else m.activeId
    ensures !r.manager.isActive ==> r.manager.activeId == m.activeId
    // a manager deactivates only when its state asks to be left
    ensures m.isActive && !r.manager.isActive ==> LeavesState(b, m)
  {
    if !m.isActive then
      Step(m, Ok(false), [])
    else
      var (outcome, state, context) := b.updateAndDraw(m.active, m.context);
      var updated := [UpdateAndDraw(m.activeId)];
      match outcome
      case Continue =>
        Step(m.(active := state, context := context), Ok(true), updated)
      case ChangeState(k) =>
        var (state', context') := b.terminate(state, context);
        var (built, context'') := b.construct(k, context');
        var trace := updated + [Terminate(m.activeId), Construct(k)];
        (match built
         case Ok(next) => Step(Manager(context'', next, m.activeId + 1, true), Ok(true), trace)
         case Err(msg) => Step(Manager(context'', state', m.activeId, false), Err(NextFailurePrefix + msg), trace))
      case Quit =>
        var (state', context') := b.terminate(state, context);
        Step(Manager(context', state', m.activeId, false), Ok(false), updated + [Terminate(m.activeId)])
  }

  /** A `Continue` keeps the same state (updated in place) and the manager active, returns
      `Ok(true)`, and terminates nothing. */
  lemma PassOnContinue<S, C, K>(b: Behaviour<S, C, K>, m: Manager<S, C>)
    requires m.isActive && b.updateAndDraw(m.active, m.context).0.Continue?
    ensures var (_, state, context) := b.updateAndDraw(m.active, m.context);
            Pass(b, m) == Step(m.(active := state, context := context), Ok(true), [UpdateAndDraw(m.activeId)])
  {
  }

  /** A `ChangeState` whose constructor succeeds terminates the outgoing state, then builds
      the next one from the context the termination left, installs it, and returns `Ok(true)`. */
  lemma PassOnChangeState<S, C, K>(b: Behaviour<S, C, K>, m: Manager<S, C>, k: K)
    requires m.isActive && b.updateAndDraw(m.active, m.context).0 == ChangeState(k)
    requires var (_, state, context) := b.updateAndDraw(m.active, m.context);
             b.construct(k, b.terminate(state, context).1).0.Ok?
    ensures var (_, state, context) := b.updateAndDraw(m.active, m.context);
            var (built, context') := b.construct(k, b.terminate(state, context).1);
            && Pass(b, m).trace == [UpdateAndDraw(m.activeId), Terminate(m.activeId), Construct(k)]
            && Pass(b, m).result == Ok(true)
            && Pass(b, m).manager == Manager(context', built.value, m.activeId + 1, true)
  {
  }

  /** A `ChangeState` whose constructor fails deactivates the manager and returns the
      constructor's message behind the transition prefix. The terminated outgoing state
      stays in the slot; it is never called again (see `Lifecycle.FailedStateIsNeverCalled`). */
  lemma PassOnFailedConstruct<S, C, K>(b: Behaviour<S, C, K>, m: Manager<S, C>, k: K)
    requires m.isActive && b.updateAndDraw(m.active, m.context).0 == ChangeState(k)
    requires var (_, state, context) := b.updateAndDraw(m.active, m.context);
             b.construct(k, b.terminate(state, context).1).0.Err?
    ensures var (_, state, context) := b.updateAndDraw(m.active, m.context);
            var (state', context') := b.terminate(state, context);
            var (built, context'') := b.construct(k, context');
            && Pass(b, m).trace == [UpdateAndDraw(m.activeId), Terminate(m.activeId), Construct(k)]
            && Pass(b, m).result == Err(NextFailurePrefix + built.msg)
            && Pass(b, m).manager == Manager(context'', state', m.activeId, false)
  {
  }

  /** A `Quit` terminates the state, deactivates the manager and returns `Ok(false)`. */
  lemma PassOnQuit<S, C, K>(b: Behaviour<S, C, K>, m: Manager<S, C>)
    requires m.isActive && b.updateAndDraw(m.active, m.context).0.Quit?
    ensures var (_, state, context) := b.updateAndDraw(m.active, m.context);
            var (state', context') := b.terminate(state, context);
            && Pass(b, m).trace == [UpdateAndDraw(m.activeId), Terminate(m.activeId)]
            && Pass(b, m).result == Ok(false)
            && Pass(b, m).manager == Manager(context', state', m.activeId, false)
  {
  }
}
