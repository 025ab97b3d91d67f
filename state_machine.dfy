/** `State` and `StateMachine` of rust/sample3.rs: a four-state machine
    whose `start` and `pause` are guarded and whose `stop` and `reset`
    always succeed. `Step` is the transition table; the class methods
    are proved to follow it. */
module StateMachines {
  import opened Variants
  import opened Errors

  datatype State = Idle | Running | Paused | Stopped

  /** The machine's operations. */
  datatype Op = Start | Pause | Stop | Reset

  const CannotStart: string := "Cannot start from current state"
  const CannotPause: string := "Cannot pause from current state"

  /** The states an operation may be applied in. */
  predicate Allowed(s: State, op: Op)
  {
    match op
    case Start => s in {Idle, Stopped}
    case Pause => s == Running
    case Stop => true
    case Reset => true
  }

  /** The state an operation leads to when it is allowed. */
  function Target(op: Op): State
  {
    match op
    case Start => Running
    case Pause => Paused
    case Stop => Stopped
    case Reset => Idle
  }

  /** The outcome of one operation and the state after it. */
  datatype Transition = Transition(next: State, result: AppResult<()>)

  /** One operation as the source performs it. It succeeds exactly when
      allowed and then moves to the operation's target; when it fails the
      state is unchanged and the error names the operation. */
  function Step(s: State, op: Op): (t: Transition)
    ensures t.result.IsOk() <==> Allowed(s, op)
    ensures t.result.IsOk() ==> t.next == Target(op)
    ensures t.result.IsErr() ==> t.next == s
    ensures t.result.IsErr() ==> t.result.error == InvalidInput(if op == Start then CannotStart else CannotPause)
  {
    match op
    case Start =>
      (match s
       case Idle => Transition(Running, Ok(()))
       case Stopped => Transition(Running, Ok(()))
       case _ => Transition(s, Err(InvalidInput(CannotStart))))
    case Pause =>
      (match s
       case Running => Transition(Paused, Ok(()))
       case _ => Transition(s, Err(InvalidInput(CannotPause))))
    case Stop => Transition(Stopped, Ok(()))
    case Reset => Transition(Idle, Ok(()))
  }

  /** The state after a sequence of operations. */
  function Run(s: State, ops: seq<Op>): State
    decreases |ops|
  {
    if ops == [] then s else Run(Step(s, ops[0]).next, ops[1..])
  }

  /** Running `a` then `b` is running `a + b`. */
  lemma {:induction false} RunAppend(s: State, a: seq<Op>, b: seq<Op>)
    ensures Run(s, a + b) == Run(Run(s, a), b)
    decreases |a|
  {
    if a != [] {
      assert (a + b)[1..] == a[1..] + b;
      RunAppend(Step(s, a[0]).next, a[1..], b);
    } else {
      assert a + b == b;
    }
  }

  /** `stop` and `reset` win whatever came before, and are idempotent. */
  lemma StopResetAbsorb(s: State, ops: seq<Op>)
    ensures Run(s, ops + [Stop]) == Stopped
    ensures Run(s, ops + [Reset]) == Idle
    ensures Step(Step(s, Stop).next, Stop) == Step(s, Stop)
    ensures Step(Step(s, Reset).next, Reset) == Step(s, Reset)
  {
    RunAppend(s, ops, [Stop]);
    RunAppend(s, ops, [Reset]);
  }

  /** A state is only ever entered by the operation that targets it: if a
      run ends in `Target(op)` having started elsewhere, `op` occurred. */
  lemma {:induction false} EnteredOnlyByItsOperation(s: State, ops: seq<Op>, op: Op)
    requires Run(s, ops) == Target(op) && s != Target(op)
    ensures op in ops
    decreases |ops|
  {
    var s' := Step(s, ops[0]).next;
    if s' == Target(op) {
      assert ops[0] == op;
    } else {
      EnteredOnlyByItsOperation(s', ops[1..], op);
    }
  }

  class StateMachine {
    var currentState: State

    /** `StateMachine::new`: starts in `Idle`. */
    constructor ()
      ensures currentState == Idle
    {
      currentState := Idle;
    }

    /** `start`: allowed from `Idle` or `Stopped`. */
    method Start() returns (r: AppResult<()>)
      modifies this
      ensures Transition(currentState, r) == Step(old(currentState), Op.Start)
    {
      match currentState {
        case Idle =>
          currentState := Running;
          r := Ok(());
        case Stopped =>
          currentState := Running;
          r := Ok(());
        case _ =>
          r := Err(InvalidInput(CannotStart));
      }
    }

    /** `pause`: allowed from `Running` only. */
    method Pause() returns (r: AppResult<()>)
      modifies this
      ensures Transition(currentState, r) == Step(old(currentState), Op.Pause)
    {
      match currentState {
        case Running =>
          currentState := Paused;
          r := Ok(());
        case _ =>
          r := Err(InvalidInput(CannotPause));
      }
    }

    /** `stop`: unconditional. */
    method Stop()
      modifies this
      ensures currentState == Step(old(currentState), Op.Stop).next
    {
      currentState := Stopped;
    }

    /** `reset` (the `Resettable` implementation): unconditional. */
    method Reset()
      modifies this
      ensures currentState == Step(old(currentState), Op.Reset).next
    {
      currentState := Idle;
    }

    /** `get_state`: a snapshot that changes nothing. */
    function GetState(): (s: State)
      reads this
      ensures s == currentState
    {
      currentState
    }
  }

  /** The scenario of a fresh machine: `pause` before `start` fails and
      changes nothing; `start`, `pause`, then `start` again fails; `stop`
      and two `reset`s end in `Idle`. */
  method Scenario()
  {
    var m := new StateMachine();
    var r := m.Pause();
    assert r.IsErr() && m.GetState() == Idle;
    r := m.Start();
    assert r == Ok(()) && m.GetState() == Running;
    r := m.Pause();
    assert r == Ok(()) && m.GetState() == Paused;
    r := m.Start();
    assert r.IsErr() && m.GetState() == Paused;
    m.Stop();
    assert m.GetState() == Stopped;
    m.Reset();
    m.Reset();
    assert m.GetState() == Idle;
  }
}
