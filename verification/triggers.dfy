/** Triggers: boolean conditions bound to commands through edge-detecting bindings.
    Every binding owns a private `previous` cell, seeded from the raw condition when it is
    bound and overwritten with the context-gated reading after every poll. */
module Triggers {
  import opened Wrappers
  import opened Scheduler

  type LoopId = nat
  type SupplierId = nat

  /** The context under which a trigger is live in every OpMode. */
  const Always: string := "ALWAYS"

  /** The scheduler's default button loop, which the loop-less constructors use. */
  const DefaultButtonLoop: LoopId := 0

  /** A condition as built by the constructors and combinators.
      `Source` is an arbitrary (possibly stateful) supplier, `EnabledFlag` reads the
      robot-enabled global, and `Debounced` is a debouncer instance wrapping its input. */
  datatype Cond =
    | Source(id: SupplierId)
    | EnabledFlag
    | And(left: Cond, right: Cond)
    | Or(left: Cond, right: Cond)
    | Not(operand: Cond)
    | Debounced(filter: SupplierId, input: Cond)

  /** What a poll observes: each supplier's current output, the robot-enabled global, and
      each debouncer's output for the input it is given. Debouncer state is opaque: it lives
      in `debounce` and advances once per poll of the debouncer. */
  datatype Env = Env(source: SupplierId -> bool, robotEnabled: bool, debounce: (SupplierId, bool) -> bool)

  /** A stateful supplier that a poll advanced. */
  datatype Probe = SourcePolled(source: SupplierId) | FilterPolled(filter: SupplierId)

  /** The value of one evaluation and the stateful suppliers it polled, in order. */
  datatype Reading = Reading(value: bool, polled: seq<Probe>)

  /** The logical meaning of a condition, with no evaluation order. */
  function Holds(c: Cond, env: Env): bool {
    match c
    case Source(id) => env.source(id)
    case EnabledFlag => env.robotEnabled
    case And(l, r) => Holds(l, env) && Holds(r, env)
    case Or(l, r) => Holds(l, env) || Holds(r, env)
    case Not(x) => !Holds(x, env)
    case Debounced(f, x) => env.debounce(f, Holds(x, env))
  }

  /** Evaluation as Java performs it: `&&` and `||` short-circuit, so the right operand's
      suppliers are polled only when the left operand does not already decide the result. */
  function Eval(c: Cond, env: Env): (r: Reading)
    ensures r.value == Holds(c, env)
    ensures c.Source? ==> r.polled == [SourcePolled(c.id)]
    ensures c.EnabledFlag? ==> r.polled == []
    ensures c.And? && !Holds(c.left, env) ==> r.polled == Eval(c.left, env).polled
    ensures c.And? && Holds(c.left, env) ==> r.polled == Eval(c.left, env).polled + Eval(c.right, env).polled
    ensures c.Or? && Holds(c.left, env) ==> r.polled == Eval(c.left, env).polled
    ensures c.Or? && !Holds(c.left, env) ==> r.polled == Eval(c.left, env).polled + Eval(c.right, env).polled
    ensures c.Not? ==> r.polled == Eval(c.operand, env).polled
    ensures c.Debounced? ==> r.polled == Eval(c.input, env).polled + [FilterPolled(c.filter)]
  {
    match c
    case Source(id) => Reading(env.source(id), [SourcePolled(id)])
    case EnabledFlag => Reading(env.robotEnabled, [])
    case And(l, r) =>
      var a := Eval(l, env);
      if !a.value then a
      else var b := Eval(r, env); Reading(b.value, a.polled + b.polled)
    case Or(l, r) =>
      var a := Eval(l, env);
      if a.value then a
      else var b := Eval(r, env); Reading(b.value, a.polled + b.polled)
    case Not(x) =>
      var a := Eval(x, env);
      Reading(!a.value, a.polled)
    case Debounced(f, x) =>
      var a := Eval(x, env);
      Reading(env.debounce(f, a.value), a.polled + [FilterPolled(f)])
  }

  datatype Trigger = Trigger(loop: LoopId, condition: Cond, context: string)

  /** Trigger(loop, condition, context): each argument is null-checked, in that order. */
  function NewTrigger(loop: Option<LoopId>, condition: Option<Cond>, context: Option<string>): (r: Result<Trigger>)
    ensures r.Ok? <==> loop.Some? && condition.Some? && context.Some?
    ensures r.Ok? ==> r.value.loop == loop.value && r.value.condition == condition.value && r.value.context == context.value
    ensures loop.None? ==> r == Err(NullParam("loop", "Trigger"))
    ensures loop.Some? && condition.None? ==> r == Err(NullParam("condition", "Trigger"))
    ensures loop.Some? && condition.Some? && context.None? ==> r == Err(NullParam("context", "Trigger"))
  {
    if loop.None? then Err(NullParam("loop", "Trigger"))
    else if condition.None? then Err(NullParam("condition", "Trigger"))
    else if context.None? then Err(NullParam("context", "Trigger"))
    else Ok(Trigger(loop.value, condition.value, context.value))
  }

  /** Trigger(condition): the default button loop, in the context of the active OpMode.
      With no OpMode active the context is null and construction fails. */
  function NewTriggerInActiveOpMode(condition: Option<Cond>, activeOpMode: Option<string>): (r: Result<Trigger>)
    ensures activeOpMode.None? ==> r.Err?
    ensures r.Ok? <==> condition.Some? && activeOpMode.Some?
    ensures r.Ok? ==> r.value == Trigger(DefaultButtonLoop, condition.value, activeOpMode.value)
  {
    NewTrigger(Some(DefaultButtonLoop), condition, activeOpMode)
  }

  /** inContext(): live everywhere under ALWAYS, otherwise only while its OpMode is active. */
  function InContext(context: string, activeOpMode: Option<string>): (r: bool)
    ensures r <==> context == Always || activeOpMode == Some(context)
  {
    context == Always || (activeOpMode.Some? && context == activeOpMode.value)
  }

  /** getAsBoolean(): the raw condition; the context plays no part. */
  function GetAsBoolean(t: Trigger, env: Env): (r: Reading)
    ensures r.value == Holds(t.condition, env)
    ensures r.polled == Eval(t.condition, env).polled
  {
    Eval(t.condition, env)
  }

  /** and(other): same loop and context; the raw condition is the short-circuit conjunction. */
  function AndTrigger(t: Trigger, other: Cond): (r: Trigger)
    ensures r.loop == t.loop && r.context == t.context
    ensures forall env :: Holds(r.condition, env) == (Holds(t.condition, env) && Holds(other, env))
    ensures forall env :: !Holds(t.condition, env) ==> Eval(r.condition, env).polled == Eval(t.condition, env).polled
    ensures forall env :: Holds(t.condition, env) ==>
      Eval(r.condition, env).polled == Eval(t.condition, env).polled + Eval(other, env).polled
  {
    Trigger(t.loop, And(t.condition, other), t.context)
  }

  /** or(other): same loop and context; the raw condition is the short-circuit disjunction. */
  function OrTrigger(t: Trigger, other: Cond): (r: Trigger)
    ensures r.loop == t.loop && r.context == t.context
    ensures forall env :: Holds(r.condition, env) == (Holds(t.condition, env) || Holds(other, env))
    ensures forall env :: Holds(t.condition, env) ==> Eval(r.condition, env).polled == Eval(t.condition, env).polled
    ensures forall env :: !Holds(t.condition, env) ==>
      Eval(r.condition, env).polled == Eval(t.condition, env).polled + Eval(other, env).polled
  {
    Trigger(t.loop, Or(t.condition, other), t.context)
  }

  /** negate(): same loop and context; the raw condition is the negation. */
  function NegateTrigger(t: Trigger): (r: Trigger)
    ensures r.loop == t.loop && r.context == t.context
    ensures forall env :: Holds(r.condition, env) == !Holds(t.condition, env)
    ensures forall env :: Eval(r.condition, env).polled == Eval(t.condition, env).polled
  {
    Trigger(t.loop, Not(t.condition), t.context)
  }

  /** debounce(seconds, type): same loop and context; a fresh debouncer `filter` (its period
      and type folded into its opaque behaviour) is fed the raw condition on every poll. */
  function DebounceTrigger(t: Trigger, filter: SupplierId): (r: Trigger)
    ensures r.loop == t.loop && r.context == t.context
    ensures forall env :: Holds(r.condition, env) == env.debounce(filter, Holds(t.condition, env))
    ensures forall env :: Eval(r.condition, env).polled == Eval(t.condition, env).polled + [FilterPolled(filter)]
  {
    Trigger(t.loop, Debounced(filter, t.condition), t.context)
  }

  /** The edge policy of each binding method. */
  datatype Policy = OnChange | OnTrue | OnFalse | WhileTrue | WhileFalse | ToggleOnTrue | ToggleOnFalse

  /** The method name requireNonNullParam reports when the command is null. */
  function MethodName(p: Policy): string {
    match p
    case OnChange => "onChange"
    case OnTrue => "onTrue"
    case OnFalse => "onFalse"
    case WhileTrue => "whileTrue"
    case WhileFalse => "whileFalse"
    case ToggleOnTrue => "toggleOnTrue"
    case ToggleOnFalse => "toggleOnFalse"
  }

  predicate Rising(previous: bool, current: bool) {
    !previous && current
  }

  predicate Falling(previous: bool, current: bool) {
    previous && !current
  }

  function ToggleAction(command: CommandId, isScheduled: bool): Action {
    if isScheduled then Cancel(command) else Schedule(command)
  }

  /** The body of each binding: the request it makes for one (previous, current) pair. */
  function Decide(p: Policy, command: CommandId, previous: bool, current: bool, isScheduled: bool): (r: Action)
    ensures !r.NoAction? ==> r.command == command
    ensures p == OnChange ==> (r == Schedule(command) <==> previous != current) && (previous == current ==> r == NoAction)
    ensures p == OnTrue ==> (r == Schedule(command) <==> Rising(previous, current)) && (!Rising(previous, current) ==> r == NoAction)
    ensures p == OnFalse ==> (r == Schedule(command) <==> Falling(previous, current)) && (!Falling(previous, current) ==> r == NoAction)
    ensures p == WhileTrue ==>
      && (r == Schedule(command) <==> Rising(previous, current))
      && (r == Cancel(command) <==> Falling(previous, current))
      && (previous == current ==> r == NoAction)
    ensures p == WhileFalse ==>
      && (r == Schedule(command) <==> Falling(previous, current))
      && (r == Cancel(command) <==> Rising(previous, current))
      && (previous == current ==> r == NoAction)
    ensures p == ToggleOnTrue ==>
      && (r != NoAction <==> Rising(previous, current))
      && (Rising(previous, current) ==> (r == Cancel(command) <==> isScheduled))
    ensures p == ToggleOnFalse ==>
      && (r != NoAction <==> Falling(previous, current))
      && (Falling(previous, current) ==> (r == Cancel(command) <==> isScheduled))
  {
    match p
    case OnChange => if previous != current then Schedule(command) else NoAction
    case OnTrue => if !previous && current then Schedule(command) else NoAction
    case OnFalse => if previous && !current then Schedule(command) else NoAction
    case WhileTrue =>
      if !previous && current then Schedule(command)
      else if previous && !current then Cancel(command)
      else NoAction
    case WhileFalse =>
      if previous && !current then Schedule(command)
      else if !previous && current then Cancel(command)
      else NoAction
    case ToggleOnTrue => if !previous && current then ToggleAction(command, isScheduled) else NoAction
    case ToggleOnFalse => if previous && !current then ToggleAction(command, isScheduled) else NoAction
  }

  /** One registered binding: the trigger's condition and context, the policy, the command,
      and the binding's own `previous` cell. */
  datatype Binding = Binding(condition: Cond, context: string, policy: Policy, command: CommandId, previous: bool)

  /** Every event loop's bindings, in registration order. */
  type Loops = map<LoopId, seq<Binding>>

  function BindingsOf(loops: Loops, id: LoopId): seq<Binding> {
    if id in loops then loops[id] else []
  }

  datatype Bound = Bound(loops: Loops, polled: seq<Probe>)

  /** onChange/onTrue/.../toggleOnFalse: reject a null command, otherwise append one binding
      to the trigger's loop, its `previous` seeded from the RAW condition (no context gate). */
  function Bind(t: Trigger, p: Policy, command: Option<CommandId>, loops: Loops, env: Env): (r: Result<Bound>)
    ensures command.None? ==> r == Err(NullParam("command", MethodName(p)))
    ensures command.Some? ==> r.Ok?
    ensures r.Ok? ==>
      && r.value.loops.Keys == loops.Keys + {t.loop}
      && (forall id :: id in loops && id != t.loop ==> r.value.loops[id] == loops[id])
      && |r.value.loops[t.loop]| == |BindingsOf(loops, t.loop)| + 1
      && r.value.loops[t.loop][..|BindingsOf(loops, t.loop)|] == BindingsOf(loops, t.loop)
      && r.value.loops[t.loop][|BindingsOf(loops, t.loop)|]
         == Binding(t.condition, t.context, p, command.value, Holds(t.condition, env))
      && r.value.polled == Eval(t.condition, env).polled
  {
    if command.None? then Err(NullParam("command", MethodName(p)))
    else
      var seed := Eval(t.condition, env);
      var b := Binding(t.condition, t.context, p, command.value, seed.value);
      Ok(Bound(loops[t.loop := BindingsOf(loops, t.loop) + [b]], seed.polled))
  }

  /** The value a poll hands to the binding body: the condition, then the context gate. */
  function Current(b: Binding, env: Env, activeOpMode: Option<string>): (r: bool)
    ensures r <==> Holds(b.condition, env) && (b.context == Always || activeOpMode == Some(b.context))
  {
    Eval(b.condition, env).value && InContext(b.context, activeOpMode)
  }

  datatype Step = Step(binding: Binding, scheduled: set<CommandId>, action: Action)

  /** A binding's reaction to one gated value: decide, apply, remember the value. */
  function StepWith(b: Binding, current: bool, scheduled: set<CommandId>): Step {
    var a := Decide(b.policy, b.command, b.previous, current, b.command in scheduled);
    Step(b.(previous := current), Apply(a, scheduled), a)
  }

  /** One poll of one binding. */
  function PollBinding(b: Binding, env: Env, activeOpMode: Option<string>, scheduled: set<CommandId>): (r: Step)
    ensures r.binding.previous == Current(b, env, activeOpMode)
    ensures r.binding == b.(previous := r.binding.previous)
    ensures r.action == Decide(b.policy, b.command, b.previous, r.binding.previous, b.command in scheduled)
    ensures r.scheduled == Apply(r.action, scheduled)
  {
    StepWith(b, Current(b, env, activeOpMode), scheduled)
  }

  /** The suppliers a poll of the whole loop advances, binding by binding. */
  function PolledBy(bindings: seq<Binding>, env: Env): seq<Probe>
    decreases |bindings|
  {
    if |bindings| == 0 then []
    else PolledBy(bindings[..|bindings| - 1], env) + Eval(bindings[|bindings| - 1].condition, env).polled
  }

  /** Binding `b` became `b'` and made request `a` in a poll where it observed `seen`. */
  predicate PolledAs(b: Binding, b': Binding, seen: set<CommandId>, a: Action, env: Env, activeOpMode: Option<string>) {
    && b' == b.(previous := Current(b, env, activeOpMode))
    && a == Decide(b.policy, b.command, b.previous, b'.previous, b.command in seen)
  }

  /** The first `n` bindings have been polled: `next`, `before` and `actions` record what
      each did, each observing the set its predecessors left, and `after` is what the last
      one left. */
  predicate PolledPrefix(bindings: seq<Binding>, n: nat, next: seq<Binding>, before: seq<set<CommandId>>,
                         actions: seq<Action>, after: set<CommandId>, scheduled: set<CommandId>,
                         env: Env, activeOpMode: Option<string>)
    requires n <= |bindings|
  {
    && |next| == n && |before| == n && |actions| == n
    && (forall j :: 0 <= j < n ==> PolledAs(bindings[j], next[j], before[j], actions[j], env, activeOpMode))
    && (n > 0 ==> before[0] == scheduled)
    && (forall j :: 0 < j < n ==> before[j] == Apply(actions[j - 1], before[j - 1]))
    && after == if n == 0 then scheduled else Apply(actions[n - 1], before[n - 1])
  }

  /** Polling one more binding extends the record by exactly that binding's step. */
  lemma PolledPrefixStep(bindings: seq<Binding>, n: nat, next: seq<Binding>, before: seq<set<CommandId>>,
                         actions: seq<Action>, after: set<CommandId>, scheduled: set<CommandId>,
                         env: Env, activeOpMode: Option<string>, s: Step)
    requires n < |bindings|
    requires PolledPrefix(bindings, n, next, before, actions, after, scheduled, env, activeOpMode)
    requires s == PollBinding(bindings[n], env, activeOpMode, after)
    ensures PolledPrefix(bindings, n + 1, next + [s.binding], before + [after], actions + [s.action],
                         s.scheduled, scheduled, env, activeOpMode)
  {
    var next', before', actions' := next + [s.binding], before + [after], actions + [s.action];
    assert PolledAs(bindings[n], next'[n], before'[n], actions'[n], env, activeOpMode);
    forall j | 0 <= j < n
      ensures PolledAs(bindings[j], next'[j], before'[j], actions'[j], env, activeOpMode)
    {
      assert next'[j] == next[j] && before'[j] == before[j] && actions'[j] == actions[j];
    }
    forall j | 0 < j < n + 1
      ensures before'[j] == Apply(actions'[j - 1], before'[j - 1])
    {
      assert before'[j - 1] == before[j - 1] && actions'[j - 1] == actions[j - 1];
    }
  }

  /** EventLoop.poll(): every binding, in registration order. `before[i]` is the scheduled
      set binding i observes, which already reflects the requests of the bindings before it. */
  method PollLoop(bindings: seq<Binding>, env: Env, activeOpMode: Option<string>, scheduled: set<CommandId>)
    returns (next: seq<Binding>, before: seq<set<CommandId>>, after: set<CommandId>, actions: seq<Action>, polled: seq<Probe>)
    ensures |next| == |bindings| && |before| == |bindings| && |actions| == |bindings|
    ensures forall i :: 0 <= i < |bindings| ==> PolledAs(bindings[i], next[i], before[i], actions[i], env, activeOpMode)
    ensures |bindings| > 0 ==> before[0] == scheduled
    ensures forall i :: 0 < i < |bindings| ==> before[i] == Apply(actions[i - 1], before[i - 1])
    ensures after == if |bindings| == 0 then scheduled else Apply(actions[|bindings| - 1], before[|bindings| - 1])
    ensures polled == PolledBy(bindings, env)
  {
    next, before, after, actions, polled := [], [], scheduled, [], [];
    var i := 0;
    while i < |bindings|
      invariant 0 <= i <= |bindings|
      invariant PolledPrefix(bindings, i, next, before, actions, after, scheduled, env, activeOpMode)
      invariant polled == PolledBy(bindings[..i], env)
    {
      var s := PollBinding(bindings[i], env, activeOpMode, after);
      PolledPrefixStep(bindings, i, next, before, actions, after, scheduled, env, activeOpMode, s);
      assert bindings[..i + 1][..i] == bindings[..i];
      next, before, actions := next + [s.binding], before + [after], actions + [s.action];
      after := s.scheduled;
      polled := polled + Eval(bindings[i].condition, env).polled;
      i := i + 1;
    }
    assert bindings[..i] == bindings;
  }

  // ---------------------------------------------------------------------------------------
  // A single binding fed a stream of gated values, with no other actor on its command.

  datatype Run = Run(binding: Binding, scheduled: set<CommandId>)

  function RunBinding(b: Binding, values: seq<bool>, scheduled: set<CommandId>): Run
    decreases |values|
  {
    if |values| == 0 then Run(b, scheduled)
    else
      var s := StepWith(b, values[0], scheduled);
      RunBinding(s.binding, values[1..], s.scheduled)
  }

  function LastOr(previous: bool, values: seq<bool>): bool {
    if |values| == 0 then previous else values[|values| - 1]
  }

  function CountRising(previous: bool, values: seq<bool>): nat
    decreases |values|
  {
    if |values| == 0 then 0
    else (if Rising(previous, values[0]) then 1 else 0) + CountRising(values[0], values[1..])
  }

  function CountFalling(previous: bool, values: seq<bool>): nat
    decreases |values|
  {
    if |values| == 0 then 0
    else (if Falling(previous, values[0]) then 1 else 0) + CountFalling(values[0], values[1..])
  }

  predicate Odd(n: nat) {
    n % 2 == 1
  }

  /** Running a binding never touches a command other than its own, never changes anything
      but its `previous` cell, and leaves that cell at the last value it saw. */
  lemma {:induction false} RunBindingFrame(b: Binding, values: seq<bool>, scheduled: set<CommandId>)
    ensures RunBinding(b, values, scheduled).binding == b.(previous := LastOr(b.previous, values))
    ensures forall c :: c != b.command ==> (c in RunBinding(b, values, scheduled).scheduled <==> c in scheduled)
    decreases |values|
  {
    if |values| > 0 {
      var s := StepWith(b, values[0], scheduled);
      RunBindingFrame(s.binding, values[1..], s.scheduled);
      assert LastOr(values[0], values[1..]) == LastOr(b.previous, values);
    }
  }

  /** whileTrue: if the command starts out scheduled exactly when the cell is true, that
      stays so: the command is scheduled after the run iff the last gated value was true. */
  lemma {:induction false} WhileTrueFollowsCondition(b: Binding, values: seq<bool>, scheduled: set<CommandId>)
    requires b.policy == WhileTrue
    requires (b.command in scheduled) == b.previous
    ensures b.command in RunBinding(b, values, scheduled).scheduled <==> LastOr(b.previous, values)
    decreases |values|
  {
    if |values| > 0 {
      var s := StepWith(b, values[0], scheduled);
      WhileTrueFollowsCondition(s.binding, values[1..], s.scheduled);
      assert LastOr(values[0], values[1..]) == LastOr(b.previous, values);
    }
  }

  /** whileFalse, the mirror: the command is scheduled after the run iff the last value was false. */
  lemma {:induction false} WhileFalseFollowsNegation(b: Binding, values: seq<bool>, scheduled: set<CommandId>)
    requires b.policy == WhileFalse
    requires (b.command in scheduled) == !b.previous
    ensures b.command in RunBinding(b, values, scheduled).scheduled <==> !LastOr(b.previous, values)
    decreases |values|
  {
    if |values| > 0 {
      var s := StepWith(b, values[0], scheduled);
      WhileFalseFollowsNegation(s.binding, values[1..], s.scheduled);
      assert LastOr(values[0], values[1..]) == LastOr(b.previous, values);
    }
  }

  /** onTrue never cancels: the command is scheduled afterwards iff it was before or a
      rising edge occurred. */
  lemma {:induction false} OnTrueSchedulesOnRise(b: Binding, values: seq<bool>, scheduled: set<CommandId>)
    requires b.policy == OnTrue
    ensures b.command in RunBinding(b, values, scheduled).scheduled
            <==> b.command in scheduled || CountRising(b.previous, values) > 0
    decreases |values|
  {
    if |values| > 0 {
      var s := StepWith(b, values[0], scheduled);
      OnTrueSchedulesOnRise(s.binding, values[1..], s.scheduled);
    }
  }

  /** onFalse never cancels: the command is scheduled afterwards iff it was before or a
      falling edge occurred. */
  lemma {:induction false} OnFalseSchedulesOnFall(b: Binding, values: seq<bool>, scheduled: set<CommandId>)
    requires b.policy == OnFalse
    ensures b.command in RunBinding(b, values, scheduled).scheduled
            <==> b.command in scheduled || CountFalling(b.previous, values) > 0
    decreases |values|
  {
    if |values| > 0 {
      var s := StepWith(b, values[0], scheduled);
      OnFalseSchedulesOnFall(s.binding, values[1..], s.scheduled);
    }
  }

  /** toggleOnTrue: every rising edge flips whether the command is scheduled, so a second
      rising edge while the command is still scheduled cancels it. */
  lemma {:induction false} ToggleOnTrueParity(b: Binding, values: seq<bool>, scheduled: set<CommandId>)
    requires b.policy == ToggleOnTrue
    ensures (b.command in RunBinding(b, values, scheduled).scheduled)
            == ((b.command in scheduled) != Odd(CountRising(b.previous, values)))
    decreases |values|
  {
    if |values| > 0 {
      var s := StepWith(b, values[0], scheduled);
      ToggleOnTrueParity(s.binding, values[1..], s.scheduled);
    }
  }

  /** toggleOnFalse: every falling edge flips whether the command is scheduled. */
  lemma {:induction false} ToggleOnFalseParity(b: Binding, values: seq<bool>, scheduled: set<CommandId>)
    requires b.policy == ToggleOnFalse
    ensures (b.command in RunBinding(b, values, scheduled).scheduled)
            == ((b.command in scheduled) != Odd(CountFalling(b.previous, values)))
    decreases |values|
  {
    if |values| > 0 {
      var s := StepWith(b, values[0], scheduled);
      ToggleOnFalseParity(s.binding, values[1..], s.scheduled);
    }
  }

  /** Leaving a trigger's context reads as false: a held whileTrue binding sees a falling
      edge and cancels its command, whatever the raw condition says. */
  lemma LeavingContextCancels(b: Binding, env: Env, activeOpMode: Option<string>, scheduled: set<CommandId>)
    requires b.policy == WhileTrue && b.previous
    requires b.context != Always && activeOpMode != Some(b.context)
    ensures PollBinding(b, env, activeOpMode, scheduled).action == Cancel(b.command)
    ensures b.command !in PollBinding(b, env, activeOpMode, scheduled).scheduled
  {
  }

  /** The seed is the raw condition, the polls are gated: an onFalse bound outside its
      context while the raw condition holds schedules its command on the very first poll. */
  lemma SeedIgnoresContext(t: Trigger, c: CommandId, env: Env, activeOpMode: Option<string>, scheduled: set<CommandId>)
    requires Holds(t.condition, env)
    requires t.context != Always && activeOpMode != Some(t.context)
    ensures var r := Bind(t, OnFalse, Some(c), map[], env);
            && r.Ok? && r.value.loops[t.loop] == [Binding(t.condition, t.context, OnFalse, c, true)]
            && PollBinding(r.value.loops[t.loop][0], env, activeOpMode, scheduled).action == Schedule(c)
  {
  }
}
