/**
 * The extension point of the state manager: the outcome a state reports after one
 * update, the behaviour an embedder supplies (the two methods of a game state and the
 * table of state constructors), and the events the manager's calls leave behind.
 */
module GameState {
  import opened Wrappers

  /** What a state's update-and-draw call tells the manager to do next. The constructor
      of the next state is named by its index `K` in the embedder's constructor table. */
  datatype UpdateResult<K> = Continue | ChangeState(next: K) | Quit

  /**
   * Everything the manager calls but does not define, as uninterpreted functions.
   * Each one receives the state (or constructor index) and the shared context and returns
   * what it leaves behind, since every one of them mutably borrows both.
   *  - `updateAndDraw`: one update of the active state; its outcome, the updated state
   *    and the updated context.
   *  - `terminate`: the state's last call before it is deactivated.
   *  - `construct`: the constructor with the given index; a new state or an error
   *    message, and the context as the constructor leaves it.
   */
  datatype Behaviour<!S, !C, !K> = Behaviour(
    updateAndDraw: (S, C) -> (UpdateResult<K>, S, C),
    terminate: (S, C) -> (S, C),
    construct: (K, C) -> (Result<S>, C))

  /** One call the manager makes into embedder code. States are named by the serial
      number the manager gives them: 0 for the initial state, one more for each state
      a transition installs. */
  datatype Event<K> =
    | UpdateAndDraw(id: nat)
    | Terminate(id: nat)
    | Construct(ctor: K)
  {
    /** Whether this event is a call on the state with serial `id`. */
    predicate Touches(id: nat) {
      !Construct? && this.id == id
    }
  }
}
