# tobager state manager, modelled in Dafny

tobager is a small Rust library that structures a game's top-level control flow as a
sequence of game states sharing one context. A `GameManager` owns the context and the
one active state. `GameManager::new` builds the first state with a state constructor.
Each call to `pass` runs the active state's `update_and_draw`. It then acts on the
result: `Continue` keeps the state. `ChangeState(ctor)` terminates the state and builds
the next one. `Quit` terminates the state and deactivates the manager.

This project models that protocol as pure functions over an immutable `Manager` value:

- `wrappers.dfy` (`Wrappers`): `Result<T>` with a string error, the shape of Rust's `Result<T, String>`.
- `game_state.dfy` (`GameState`): the `GameStateUpdateResult` variants (`UpdateResult`). It also holds the embedder-supplied behaviour (`Behaviour`). That is the two trait methods and the constructor table, as uninterpreted functions of `(state, context)`. Last, the `Event` type records every call the manager makes into embedder code.
- `game_manager.dfy` (`GameManager`): the `Manager` fields and `Create` (`GameManager::new`). `Pass` (`GameManager::pass`) returns the new manager, the return value and the calls it made. Four lemmas give the exact outcome of each branch.
- `lifecycle.dfy` (`Lifecycle`): `Drive` is an external driver loop that calls `Pass` `n` times. The lemmas cover whole runs:
  - deactivation is absorbing;
  - return values track liveness;
  - no state is called after its `terminate`;
  - every discarded state is terminated;
  - every constructor call directly follows a `terminate`;
  - `Pass` follows the Active/Terminated transition table.
- `example.dfy` (`Example`): the demonstration program `examples/example.rs` as a concrete behaviour. It has states A and B and a switch counter in the context. The console lines are a queue in the context. It proves the "s", "s", "q" scenario and shows that the counter counts terminations.

Modelling choices:

- A state constructor (a Rust `fn` pointer) is an index `K` into the embedder's constructor table `Behaviour.construct`.
- Every embedder call takes the state and the context by mutable borrow. So each one returns the updated state and context; a constructor returns the updated context.
- Rust identifies a state by its box. The model gives each state a serial number `activeId` instead: 0 for the initial state and one more for each state a transition installs. Trace events name states by this number.
- Suppose a transition's constructor fails (`src/lib.rs:44-49`), or the state quits (`src/lib.rs:52-56`). The code never overwrites `active_state`, so the terminated state stays in the slot, and the model keeps it there. `Lifecycle.FailedStateIsNeverCalled` proves that the kept state is never called again.

## Model

| member | source | states |
|---|---|---|
| GameManager.Create | src/lib.rs:22-32 | the constructor is called exactly once; failure happens exactly when the constructor fails, with the constructor's message after "Failed to create initial state: "; success gives an active manager holding the constructed state and the context as the constructor left it |
| GameManager.Pass | src/lib.rs:34-61 | `Ok(true)` is returned exactly when the manager is still active afterwards; an error only comes from the pass that deactivates; a deactivated manager stays unchanged, calls nothing and returns `Ok(false)`; an active manager calls `update_and_draw` once, first; the state is terminated exactly when it asks to change or quit; after terminate only a constructor call may follow, and every constructor call directly follows the outgoing state's terminate; a new state exists only after a transition |
| GameManager.PassOnContinue | src/lib.rs:41-60 | on `Continue` the same state (as updated) stays active, nothing is terminated, the result is `Ok(true)` |
| GameManager.PassOnChangeState | src/lib.rs:42-60 | on `ChangeState(k)` with a successful constructor: update, terminate, then construct from the context terminate left; the new state is installed and the result is `Ok(true)` |
| GameManager.PassOnFailedConstruct | src/lib.rs:42-49 | on `ChangeState(k)` with a failing constructor: the manager is deactivated, the terminated old state stays in the slot, and the result is `Err("Failed to create next state: " + msg)` |
| GameManager.PassOnQuit | src/lib.rs:52-56 | on `Quit` the state is terminated, the manager is deactivated and the result is `Ok(false)` |
| Lifecycle.Drive | src/lib.rs:36-61 | a run of `n` passes yields `n` managers and `n` return values, and makes at most 3·n calls into embedder code in all |
| Lifecycle.ReturnsTrackLiveness | src/lib.rs:34-60 | over any run, each pass returns `Ok(true)` exactly when the manager is active after it |
| Lifecycle.InactiveIsInert | src/lib.rs:37-39 | any number of passes on a deactivated manager makes no call into a state or constructor, leaves the manager unchanged and returns `Ok(false)` every time |
| Lifecycle.DeactivationIsAbsorbing | src/lib.rs:37-56 | over any run, once a pass leaves the manager deactivated it never changes again and every later pass returns `Ok(false)` |
| Lifecycle.FailedStateIsNeverCalled | src/lib.rs:43-49 | after a failed transition the terminated state left in the slot is never called again, the manager never changes again, and every later pass returns `Ok(false)` |
| Lifecycle.CreateIsConsistent | src/lib.rs:23-31 | a newly created manager satisfies the lifecycle invariant with the trace of its creation |
| Lifecycle.PassKeepsConsistent | src/lib.rs:41-56 | one pass preserves the lifecycle invariant: calls go only to existing states; every replaced state was terminated; the slot's state is terminated exactly when the manager is inactive; no later call touches a state after its terminate; every constructor call directly follows a terminate |
| Lifecycle.DriveKeepsInvariant | src/lib.rs:36-61 | any relation between a manager and its trace that one pass preserves is preserved by any number of passes |
| Lifecycle.DriveKeepsConsistent | src/lib.rs:36-61 | any number of passes preserves the lifecycle invariant |
| Lifecycle.ManagerLifecycle | src/lib.rs:75-82 | for every created manager and any run: no state is called after its terminate, so each is terminated at most once; each constructor call after the first directly follows a terminate; every replaced state was terminated; the last state was terminated exactly when the manager is inactive |
| Lifecycle.PassFollowsModeTable | src/lib.rs:37-72 | the manager's Active/Terminated mode moves by a separately written table: `Continue` and a successful change stay Active, and `Quit` goes to Terminated (the variant docs at lines 66-72); a failed change goes to Terminated (lines 46-48); Terminated never leaves (the early return at lines 37-39) |
| Example.PassCountsTermination | examples/example.rs:41-43 | in the demonstration, one pass raises the switch counter by the number of terminate calls it made |
| Example.SwitchesCountTerminations | examples/example.rs:41-43 | in the demonstration, over any run the switch counter grows by exactly the number of terminate calls |
| Example.SwitchSwitchQuit | examples/example.rs:28-83 | input "s", "s", "q" gives the returns true, true, false; states B(0), then A(0), then A with one input end up in the slot; the switch counter ends at 3; the call trace is the expected nine events |

## Left out

- The bodies of `update_and_draw` and `terminate` (rendering, input, freeing GPU resources) are caller-defined. They are uninterpreted functions supplied in `Behaviour`.
- Behaviour: calls into embedder code (`update_and_draw`, `terminate`, the constructors) are total functions, so each is assumed to return. Panics, unwinding and non-termination are not modelled. If a constructor panicked at `src/lib.rs:44` and the caller caught the unwind, the real manager would stay active with a terminated state in its slot. The lifecycle lemmas do not cover that case.
- Heap allocation, trait-object dispatch, drop order and `fn` pointers are Rust mechanics. States are opaque values, constructors are table indices, and the drop of a discarded state has no observable effect in the model.
- Frame pacing and the external main loop belong to the caller. `Lifecycle.Drive` stands for "call `pass` `n` times". The `unwrap` and `break` in `examples/example.rs:76-83` are not modelled.
- Console I/O in `examples/example.rs`: `println!` output is dropped. `stdin().read_line` becomes a queue of lines in the context, and an exhausted queue reads as an empty line, like end of input.
- `usize` overflow of the example's `inputs` and `switches` counters is not modelled: the counters are unbounded `nat`.
