/**
 * The demonstration program as an instance of the abstract behaviour: two states A and B
 * that count their own inputs, switch to each other on "s", quit on "q", and count
 * terminations in the shared context. Console input is the `lines` queue in the context.
 */
module Example {
  import opened Wrappers
  import opened GameState
  import opened GameManager
  import opened Lifecycle

  /** The shared context: the switch counter, and the input lines not yet read. */
  datatype Context = Context(switches: nat, lines: seq<string>)

  datatype State = StateA(inputs: nat) | StateB(inputs: nat)

  /** The constructor table: `StateA::new` and `StateB::new`. */
  datatype Ctor = NewA | NewB

  /** Reads one line; at end of input the line is empty. */
  function ReadLine(c: Context): (string, Context) {
    if |c.lines| > 0 then (c.lines[0], c.(lines := c.lines[1..])) else ("", c)
  }

  /** One update of A or B: count the input, read a line, and decide. */
  function DemoUpdate(s: State, c: Context): (UpdateResult<Ctor>, State, Context) {
    var (line, c') := ReadLine(c);
    var s' := s.(inputs := s.inputs + 1);
    var outcome :=
      if line == "s\n" then ChangeState(if s.StateA? then NewB else NewA)
      else if line == "q\n" then Quit
      else Continue;
    (outcome, s', c')
  }

  /** Terminating A or B counts one more switch. */
  function DemoTerminate(s: State, c: Context): (State, Context) {
    (s, c.(switches := c.switches + 1))
  }

  /** `StateA::new` and `StateB::new`: a fresh state of the named kind that has seen no input. */
  function DemoConstruct(k: Ctor, c: Context): (Result<State>, Context) {
    (Ok(if k == NewA then StateA(0) else StateB(0)), c)
  }

  function Demo(): Behaviour<State, Context, Ctor> {
    Behaviour(DemoUpdate, DemoTerminate, DemoConstruct)
  }

  /** The number of terminate calls in a trace. */
  function Terminations<K>(t: seq<Event<K>>): nat {
    if |t| == 0 then 0 else (if t[0].Terminate? then 1 else 0) + Terminations(t[1..])
  }

  lemma {:induction false} TerminationsAppend<K>(a: seq<Event<K>>, b: seq<Event<K>>)
    ensures Terminations(a + b) == Terminations(a) + Terminations(b)
    decreases |a|
  {
    if |a| > 0 {
      assert (a + b)[1..] == a[1..] + b;
      TerminationsAppend(a[1..], b);
    } else {
      assert a + b == b;
    }
  }

  /** The switch counter in the context counts exactly the terminate calls the manager made. */
  lemma {:induction false} SwitchesCountTerminations(m: Manager<State, Context>, n: nat)
    ensures Final(m, Drive(Demo(), m, n)).context.switches ==
            m.context.switches + Terminations(Drive(Demo(), m, n).trace)
    decreases n
  {
    var r := Drive(Demo(), m, n);
    if n > 0 {
      var step := Pass(Demo(), m);
      var rest := Drive(Demo(), step.manager, n - 1);
      DriveUnfolds(Demo(), m, n);
      SwitchesCountTerminations(step.manager, n - 1);
      TerminationsAppend(step.trace, rest.trace);
      PassCountsTermination(m);
    } else {
      assert r.trace == [];
    }
  }

  /** One pass raises the switch counter by the number of terminate calls it made. */
  lemma PassCountsTermination(m: Manager<State, Context>)
    ensures Pass(Demo(), m).manager.context.switches == m.context.switches + Terminations(Pass(Demo(), m).trace)
  {
    var step := Pass(Demo(), m);
    if m.isActive {
      var (outcome, state, context) := DemoUpdate(m.active, m.context);
      assert context.switches == m.context.switches;
      var id := m.activeId;
      match outcome
      case Continue =>
        assert step.trace == [UpdateAndDraw(id)];
        assert step.trace[1..] == [];
      case ChangeState(k) =>
        assert step.trace == [UpdateAndDraw(id), Terminate(id), Construct(k)];
        assert step.trace[1..] == [Terminate(id), Construct(k)];
        assert step.trace[1..][1..] == [Construct(k)];
        assert step.trace[1..][1..][1..] == [];
        assert Terminations(step.trace[1..][1..]) == 0;
        var (_, context') := DemoTerminate(state, context);
        assert DemoConstruct(k, context').0.Ok?;
        assert step.manager.context == context';
      case Quit =>
        assert step.trace == [UpdateAndDraw(id), Terminate(id)];
        assert step.trace[1..] == [Terminate(id)];
        assert step.trace[1..][1..] == [];
        assert Terminations(step.trace[1..]) == 1;
        assert step.manager.context == DemoTerminate(state, context).1;
    } else {
      assert step.trace == [];
    }
  }

  /** The input of the scenario below, and the managers it passes through. */
  const Input: seq<string> := ["s\n", "s\n", "q\n"]
  const Start := Manager(Context(0, Input), StateA(0), 0, true)
  const AfterFirst := Manager(Context(1, Input[1..]), StateB(0), 1, true)
  const AfterSecond := Manager(Context(2, Input[2..]), StateA(0), 2, true)
  const AfterThird := Manager(Context(3, []), StateA(1), 2, false)

  /** A reads "s": it is terminated (switches 1) and B is built. */
  lemma FirstPass()
    ensures Pass(Demo(), Start) == Step(AfterFirst, Ok(true), [UpdateAndDraw(0), Terminate(0), Construct(NewB)])
  {
    assert Input[0] == "s\n";
  }

  /** B reads "s": it is terminated (switches 2) and A is built. */
  lemma SecondPass()
    ensures Pass(Demo(), AfterFirst) == Step(AfterSecond, Ok(true), [UpdateAndDraw(1), Terminate(1), Construct(NewA)])
  {
    assert Input[1..][0] == "s\n" && Input[1..][1..] == Input[2..];
  }

  /** A reads "q": it is terminated (switches 3) and the manager deactivates. */
  lemma ThirdPass()
    ensures Pass(Demo(), AfterSecond) == Step(AfterThird, Ok(false), [UpdateAndDraw(2), Terminate(2)])
  {
    assert Input[2..][0] == "q\n" && Input[2..][1..] == [];
  }

  /**
   * Input "s", "s", "q": A switches to B, B switches back to A, A quits. The passes
   * return true, true, false; every state got one input and one terminate, so the
   * switch counter ends at 3.
   */
  lemma SwitchSwitchQuit()
    ensures var c := Create(Demo(), Context(0, ["s\n", "s\n", "q\n"]), NewA);
            && c.result.Ok?
            && var r := Drive(Demo(), c.result.value, 3);
            && r.results == [Ok(true), Ok(true), Ok(false)]
            && r.managers[0].active == StateB(0)
            && r.managers[1].active == StateA(0)
            && r.managers[2].active == StateA(1)
            && r.managers[2].context == Context(3, [])
            && c.trace + r.trace == [Construct(NewA),
                                     UpdateAndDraw(0), Terminate(0), Construct(NewB),
                                     UpdateAndDraw(1), Terminate(1), Construct(NewA),
                                     UpdateAndDraw(2), Terminate(2)]
  {
    assert Create(Demo(), Context(0, Input), NewA) == Creation(Ok(Start), [Construct(NewA)]);
    FirstPass();
    SecondPass();
    ThirdPass();
    var last := Drive(Demo(), AfterSecond, 1);
    assert last == Run([AfterThird], [Ok(false)], [UpdateAndDraw(2), Terminate(2)]);
    var middle := Drive(Demo(), AfterFirst, 2);
    assert middle == Run([AfterSecond, AfterThird], [Ok(true), Ok(false)],
                         [UpdateAndDraw(1), Terminate(1), Construct(NewA), UpdateAndDraw(2), Terminate(2)]);
    var whole := Drive(Demo(), Start, 3);
    assert whole.managers == [AfterFirst, AfterSecond, AfterThird];
  }
}
