/** BaseOpMode: the OpMode lifecycle driver. A session is modelled as a trace of the events
    it causes (bulk-cache setup, robot and user initialisation, bulk reads, scheduler runs)
    over a finite sequence of (stopRequested, opModeIsActive) readings. */
module OpMode {
  import opened Wrappers
  import opened Triggers

  // ---------------------------------------------------------------------------------------
  // The OpMode name

  /** String.lastIndexOf(c): the last position of `c`, or -1. */
  function LastIndexOf(s: string, c: char): (r: int)
    ensures -1 <= r < |s|
    ensures r >= 0 ==> s[r] == c
    ensures forall i :: r < i < |s| ==> s[i] != c
    decreases |s|
  {
    if |s| == 0 then -1
    else if s[|s| - 1] == c then |s| - 1
    else LastIndexOf(s[..|s| - 1], c)
  }

  /** The OpMode name: the class name after its last '.', or the whole class name. */
  function OpModeName(className: string): (r: string)
    ensures '.' !in r
    ensures |r| <= |className| && className[|className| - |r|..] == r
    ensures |r| == |className| || className[|className| - |r| - 1] == '.'
  {
    var k := LastIndexOf(className, '.');
    className[k + 1..]
  }

  // ---------------------------------------------------------------------------------------
  // Globals, hardware and events

  type HardwareMapId = nat

  /** A hardware map: its identity, its Lynx modules and its voltage sensors. */
  datatype Hardware = Hardware(id: HardwareMapId, lynxModules: nat, voltageSensors: nat)

  /** BaseOpMode's static state. `voltageSensor` is the index of the sensor chosen. The
      static `hardwareMap` hides the OpMode's own (inherited) hardware map field. */
  datatype Globals = Globals(
    robotEnabled: bool,
    activeOpMode: Option<string>,
    hardwareMap: Option<Hardware>,
    voltageSensor: Option<nat>,
    initialized: seq<string>)

  const InitialGlobals: Globals := Globals(false, None, None, None, [])

  /** One check of the loop condition: isStopRequested(), then opModeIsActive(). */
  datatype PollFlags = PollFlags(stopRequested: bool, active: bool)

  /** The globals an initialisation step can observe: the ones published before it. */
  datatype View = View(activeOpMode: Option<string>, hardwareMap: Option<Hardware>, voltageSensor: Option<nat>)

  function ViewOf(g: Globals): View {
    View(g.activeOpMode, g.hardwareMap, g.voltageSensor)
  }

  /** What a starting session publishes: its name, its hardware map and its first voltage
      sensor. */
  function Published(hw: Hardware, name: string): View {
    View(Some(name), Some(hw), Some(0))
  }

  datatype Event =
    | SetManualBulkCaching(lynx: nat)
    | RobotInit(view: View)                        // the globals Robot.init observes
    | UserInitialize(name: string, view: View)     // the globals initialize() observes
    | BulkRead(lynx: nat)
    | SchedulerRun(enabled: bool, activeOpMode: Option<string>)  // the globals the run observes

  predicate IsInit(e: Event) {
    e.RobotInit? || e.UserInitialize?
  }

  datatype Session = Session(globals: Globals, trace: seq<Event>, error: Option<Error>)

  /** Every Lynx module switched to manual bulk caching, in order. */
  function ManualCaching(n: nat): (r: seq<Event>)
    ensures |r| == n
    decreases n
  {
    if n == 0 then [] else ManualCaching(n - 1) + [SetManualBulkCaching(n - 1)]
  }

  /** Every Lynx module bulk-read, in order. */
  function BulkReads(n: nat): (r: seq<Event>)
    ensures |r| == n
    decreases n
  {
    if n == 0 then [] else BulkReads(n - 1) + [BulkRead(n - 1)]
  }

  /** One loop iteration: every module bulk-read in order, then exactly one scheduler run. */
  function TickEvents(modules: nat, enabled: bool, name: string): seq<Event> {
    BulkReads(modules) + [SchedulerRun(enabled, Some(name))]
  }

  /** The iterations for a sequence of readings none of which requested a stop. */
  function LoopTrace(ticks: seq<PollFlags>, modules: nat, name: string): seq<Event>
    decreases |ticks|
  {
    if |ticks| == 0 then []
    else LoopTrace(ticks[..|ticks| - 1], modules, name) + TickEvents(modules, ticks[|ticks| - 1].active, name)
  }

  /** How many readings the loop consumes: up to the first stop request. Running out of
      readings counts as a stop (the host always stops an OpMode eventually). */
  function StopIndex(polls: seq<PollFlags>): (r: nat)
    ensures r <= |polls|
    ensures forall k :: 0 <= k < r ==> !polls[k].stopRequested
    ensures r < |polls| ==> polls[r].stopRequested
    decreases |polls|
  {
    if |polls| == 0 || polls[0].stopRequested then 0 else 1 + StopIndex(polls[1..])
  }

  function InitEvents(initialized: seq<string>, name: string, v: View): seq<Event> {
    if name in initialized then [] else [UserInitialize(name, v)]
  }

  function Record(initialized: seq<string>, name: string): seq<string> {
    if name in initialized then initialized else initialized + [name]
  }

  /** The globals a session leaves behind. */
  function GlobalsAfter(g: Globals, hw: Hardware, name: string): Globals {
    if hw.voltageSensors == 0 then g
    else Globals(false, None, None, None, Record(g.initialized, name))
  }

  /** The events of a session that enumerates the Lynx modules and voltage sensors of
      `found` and publishes `own` as the hardware map. */
  function SessionEvents(g: Globals, found: Hardware, own: Hardware, name: string, polls: seq<PollFlags>): seq<Event> {
    if found.voltageSensors == 0 then ManualCaching(found.lynxModules)
    else
      ManualCaching(found.lynxModules) + [RobotInit(Published(own, name))] + InitEvents(g.initialized, name, Published(own, name))
      + LoopTrace(polls[..StopIndex(polls)], found.lynxModules, name) + [SchedulerRun(false, Some(name))]
  }

  /** The events of a session that reads its own hardware map throughout. */
  function SessionTrace(g: Globals, hw: Hardware, name: string, polls: seq<PollFlags>): seq<Event> {
    SessionEvents(g, hw, hw, name, polls)
  }

  /** runOpMode() from the Lynx lookup on: set up bulk caching on `found`'s modules, pick
      its first voltage sensor (failing if there is none), publish the name and `own`,
      initialise once per name, loop until stopped, run the scheduler once more disabled,
      and clear the globals. */
  method RunSession(name: string, g: Globals, found: Hardware, own: Hardware, polls: seq<PollFlags>) returns (r: Session)
    ensures found.voltageSensors == 0 ==> r.error == Some(NoSuchElement) && r.globals == g
    ensures found.voltageSensors > 0 ==>
      && r.error.None?
      && r.globals.activeOpMode.None? && r.globals.hardwareMap.None? && r.globals.voltageSensor.None?
      && !r.globals.robotEnabled
      && name in r.globals.initialized
      && |r.trace| > 0 && r.trace[|r.trace| - 1] == SchedulerRun(false, Some(name))
    ensures r.globals == GlobalsAfter(g, found, name)
    ensures r.trace == SessionEvents(g, found, own, name, polls)
  {
    var trace := ManualCaching(found.lynxModules);
    if found.voltageSensors == 0 {
      return Session(g, trace, Some(NoSuchElement));
    }
    var gl := g.(voltageSensor := Some(0), activeOpMode := Some(name), hardwareMap := Some(own));
    trace := trace + [RobotInit(ViewOf(gl))];
    if name !in gl.initialized {
      trace := trace + [UserInitialize(name, ViewOf(gl))];
      gl := gl.(initialized := gl.initialized + [name]);
    }
    ghost var prelude := trace;
    var i := 0;
    while i < |polls| && !polls[i].stopRequested
      invariant 0 <= i <= StopIndex(polls)
      invariant trace == prelude + LoopTrace(polls[..i], found.lynxModules, name)
      invariant gl.activeOpMode == Some(name) && gl.initialized == Record(g.initialized, name)
    {
      gl := gl.(robotEnabled := polls[i].active);
      assert polls[..i + 1][..i] == polls[..i];
      trace := trace + TickEvents(found.lynxModules, gl.robotEnabled, name);
      i := i + 1;
    }
    gl := gl.(robotEnabled := false);
    trace := trace + [SchedulerRun(gl.robotEnabled, gl.activeOpMode)];
    gl := gl.(activeOpMode := None, hardwareMap := None, voltageSensor := None);
    r := Session(gl, trace, None);
  }

  /** runOpMode() as evidently intended: the Lynx modules and the voltage sensor are looked
      up in the OpMode's own hardware map, the one it then publishes. */
  method RunOpMode(name: string, g: Globals, hw: Hardware, polls: seq<PollFlags>) returns (r: Session)
    ensures hw.voltageSensors == 0 ==> r.error == Some(NoSuchElement) && r.globals == g && r.trace == ManualCaching(hw.lynxModules)
    ensures hw.voltageSensors > 0 ==>
      && r.error.None?
      && r.globals.activeOpMode.None? && r.globals.hardwareMap.None? && r.globals.voltageSensor.None?
      && !r.globals.robotEnabled
      && name in r.globals.initialized
      && |r.trace| > 0 && r.trace[|r.trace| - 1] == SchedulerRun(false, Some(name))
    ensures r.globals == GlobalsAfter(g, hw, name)
    ensures r.trace == SessionTrace(g, hw, name, polls)
  {
    r := RunSession(name, g, hw, hw, polls);
  }

  /** runOpMode() as written: the unqualified `hardwareMap` of the Lynx-module and
      voltage-sensor lookups names BaseOpMode's static field, not the OpMode's own map.
      That field is null unless an earlier session stopped by an exception after
      publishing its map; then the lookups enumerate that stale map. */
  function SessionAsWritten(g: Globals, l: Launch): (r: Session)
    ensures g.hardwareMap.None? ==> r == Session(g, [], Some(NullPointer))
    ensures g.hardwareMap.Some? ==>
      && r.trace == SessionEvents(g, g.hardwareMap.value, l.hw, l.name, l.polls)
      && r.globals == GlobalsAfter(g, g.hardwareMap.value, l.name)
      && (r.error.Some? <==> g.hardwareMap.value.voltageSensors == 0)
  {
    if g.hardwareMap.None? then Session(g, [], Some(NullPointer))
    else
      var found := g.hardwareMap.value;
      Session(GlobalsAfter(g, found, l.name), SessionEvents(g, found, l.hw, l.name, l.polls),
              if found.voltageSensors == 0 then Some(NoSuchElement) else None)
  }

  // ---------------------------------------------------------------------------------------
  // What the scheduler runs observe

  /** The (enabled, activeOpMode) snapshot of every scheduler run in a trace, in order. */
  function Runs(t: seq<Event>): seq<(bool, Option<string>)>
    decreases |t|
  {
    if |t| == 0 then []
    else
      var e := t[|t| - 1];
      Runs(t[..|t| - 1]) + (if e.SchedulerRun? then [(e.enabled, e.activeOpMode)] else [])
  }

  lemma {:induction false} RunsAppend(a: seq<Event>, b: seq<Event>)
    ensures Runs(a + b) == Runs(a) + Runs(b)
    decreases |b|
  {
    if |b| == 0 {
      assert a + b == a;
    } else {
      assert (a + b)[..|a + b| - 1] == a + b[..|b| - 1];
      assert (a + b)[|a + b| - 1] == b[|b| - 1];
      RunsAppend(a, b[..|b| - 1]);
    }
  }

  lemma NoRunsInSetup(n: nat)
    ensures Runs(BulkReads(n)) == [] && Runs(ManualCaching(n)) == []
  {
    NoRunsInBulkReads(n);
    NoRunsInCaching(n);
  }

  lemma {:induction false} NoRunsInBulkReads(n: nat)
    ensures Runs(BulkReads(n)) == []
    decreases n
  {
    if n > 0 {
      var t := BulkReads(n);
      assert t[..|t| - 1] == BulkReads(n - 1);
      NoRunsInBulkReads(n - 1);
    }
  }

  lemma {:induction false} NoRunsInCaching(n: nat)
    ensures Runs(ManualCaching(n)) == []
    decreases n
  {
    if n > 0 {
      var t := ManualCaching(n);
      assert t[..|t| - 1] == ManualCaching(n - 1);
      NoRunsInCaching(n - 1);
    }
  }

  lemma {:induction false} RunsOfLoop(ticks: seq<PollFlags>, modules: nat, name: string)
    ensures Runs(LoopTrace(ticks, modules, name)) == seq(|ticks|, k requires 0 <= k < |ticks| => (ticks[k].active, Some(name)))
    decreases |ticks|
  {
    if |ticks| > 0 {
      var init := ticks[..|ticks| - 1];
      RunsOfLoop(init, modules, name);
      NoRunsInSetup(modules);
      RunsAppend(BulkReads(modules), [SchedulerRun(ticks[|ticks| - 1].active, Some(name))]);
      RunsAppend(LoopTrace(init, modules, name), TickEvents(modules, ticks[|ticks| - 1].active, name));
    }
  }

  /** A session that starts runs the scheduler once per loop iteration, with robotEnabled
      equal to that iteration's opModeIsActive() and the OpMode's name active, then exactly
      once more with robotEnabled false. */
  lemma SessionSchedulerRuns(g: Globals, hw: Hardware, name: string, polls: seq<PollFlags>)
    requires hw.voltageSensors > 0
    ensures Runs(SessionTrace(g, hw, name, polls))
            == seq(StopIndex(polls), k requires 0 <= k < StopIndex(polls) => (polls[k].active, Some(name)))
               + [(false, Some(name))]
  {
    var ticks := polls[..StopIndex(polls)];
    var v := Published(hw, name);
    var pre := ManualCaching(hw.lynxModules) + [RobotInit(v)] + InitEvents(g.initialized, name, v);
    NoRunsInSetup(hw.lynxModules);
    RunsAppend(ManualCaching(hw.lynxModules), [RobotInit(v)]);
    RunsAppend(ManualCaching(hw.lynxModules) + [RobotInit(v)], InitEvents(g.initialized, name, v));
    RunsOfLoop(ticks, hw.lynxModules, name);
    RunsAppend(pre, LoopTrace(ticks, hw.lynxModules, name));
    RunsAppend(pre + LoopTrace(ticks, hw.lynxModules, name), [SchedulerRun(false, Some(name))]);
  }

  // ---------------------------------------------------------------------------------------
  // What Robot.init and initialize() observe

  /** Every initialisation step in `t` observes the globals `v`. */
  predicate InitsSee(t: seq<Event>, v: View) {
    forall i :: 0 <= i < |t| && IsInit(t[i]) ==> t[i].view == v
  }

  predicate NoInits(t: seq<Event>) {
    forall i :: 0 <= i < |t| ==> !IsInit(t[i])
  }

  /** The setup switches module i to manual caching at position i, and a tick's bulk reads
      read module i at position i. */
  lemma {:induction false} SetupContents(n: nat)
    ensures forall i :: 0 <= i < n ==> ManualCaching(n)[i] == SetManualBulkCaching(i)
    ensures forall i :: 0 <= i < n ==> BulkReads(n)[i] == BulkRead(i)
    decreases n
  {
    if n > 0 {
      SetupContents(n - 1);
      assert ManualCaching(n) == ManualCaching(n - 1) + [SetManualBulkCaching(n - 1)];
      assert BulkReads(n) == BulkReads(n - 1) + [BulkRead(n - 1)];
    }
  }

  /** The setup and the bulk reads hold no initialisation step. */
  lemma {:induction false} NoInitsInSetup(n: nat)
    ensures NoInits(ManualCaching(n)) && NoInits(BulkReads(n))
    decreases n
  {
    if n > 0 {
      NoInitsInSetup(n - 1);
      NoInitsAppend(ManualCaching(n - 1), [SetManualBulkCaching(n - 1)]);
      NoInitsAppend(BulkReads(n - 1), [BulkRead(n - 1)]);
    }
  }

  lemma NoInitsAppend(a: seq<Event>, b: seq<Event>)
    requires NoInits(a) && NoInits(b)
    ensures NoInits(a + b)
  {
    forall i | 0 <= i < |a + b|
      ensures (a + b)[i] == if i < |a| then a[i] else b[i - |a|]
    {
    }
  }

  lemma {:induction false} NoInitsInLoop(ticks: seq<PollFlags>, modules: nat, name: string)
    ensures NoInits(LoopTrace(ticks, modules, name))
    decreases |ticks|
  {
    if |ticks| > 0 {
      NoInitsInLoop(ticks[..|ticks| - 1], modules, name);
      NoInitsInSetup(modules);
      NoInitsAppend(BulkReads(modules), [SchedulerRun(ticks[|ticks| - 1].active, Some(name))]);
      NoInitsAppend(LoopTrace(ticks[..|ticks| - 1], modules, name), TickEvents(modules, ticks[|ticks| - 1].active, name));
    }
  }

  /** A session that starts calls Robot.init right after the bulk-caching setup, then the
      user's initialize() when the name is new, and both observe the name, the hardware map
      and the voltage sensor already published; no other event is an initialisation. */
  lemma SessionInitsSeePublished(g: Globals, hw: Hardware, name: string, polls: seq<PollFlags>)
    requires hw.voltageSensors > 0
    ensures var t := SessionTrace(g, hw, name, polls);
            var n := hw.lynxModules;
            && InitsSee(t, Published(hw, name))
            && |t| > n + 1 && t[n] == RobotInit(Published(hw, name))
            && (name !in g.initialized <==> t[n + 1].UserInitialize?)
            && (name !in g.initialized ==> t[n + 1] == UserInitialize(name, Published(hw, name)))
  {
    var v := Published(hw, name);
    var setup := ManualCaching(hw.lynxModules);
    var a := setup + [RobotInit(v)] + InitEvents(g.initialized, name, v);
    var b := LoopTrace(polls[..StopIndex(polls)], hw.lynxModules, name) + [SchedulerRun(false, Some(name))];
    NoInitsInSetup(hw.lynxModules);
    NoInitsInLoop(polls[..StopIndex(polls)], hw.lynxModules, name);
    NoInitsAppend(LoopTrace(polls[..StopIndex(polls)], hw.lynxModules, name), [SchedulerRun(false, Some(name))]);
    forall i | 0 <= i < |a|
      ensures a[i] == if i < |setup| then setup[i] else (if i == |setup| then RobotInit(v) else UserInitialize(name, v))
    {
    }
    forall i | 0 <= i < |a + b|
      ensures (a + b)[i] == if i < |a| then a[i] else b[i - |a|]
    {
    }
    assert SessionTrace(g, hw, name, polls) == a + b;
  }

  /** A Trigger built inside initialize() with the OpMode-scoped constructor takes the
      OpMode's name as its context, so it is live only while that OpMode runs. */
  lemma TriggersBuiltInInitializeTakeTheName(g: Globals, hw: Hardware, name: string, polls: seq<PollFlags>, i: nat, condition: Cond)
    requires hw.voltageSensors > 0
    requires i < |SessionTrace(g, hw, name, polls)| && SessionTrace(g, hw, name, polls)[i].UserInitialize?
    ensures NewTriggerInActiveOpMode(Some(condition), SessionTrace(g, hw, name, polls)[i].view.activeOpMode)
            == Ok(Trigger(DefaultButtonLoop, condition, name))
  {
    SessionInitsSeePublished(g, hw, name, polls);
  }

  // ---------------------------------------------------------------------------------------
  // initialize() at most once per name, across sessions

  /** How many times a trace calls the user's initialize() for `name`. */
  function InitCount(t: seq<Event>, name: string): nat
    decreases |t|
  {
    if |t| == 0 then 0
    else InitCount(t[..|t| - 1], name) + (if t[|t| - 1].UserInitialize? && t[|t| - 1].name == name then 1 else 0)
  }

  lemma {:induction false} InitCountAppend(a: seq<Event>, b: seq<Event>, name: string)
    ensures InitCount(a + b, name) == InitCount(a, name) + InitCount(b, name)
    decreases |b|
  {
    if |b| == 0 {
      assert a + b == a;
    } else {
      assert (a + b)[..|a + b| - 1] == a + b[..|b| - 1];
      assert (a + b)[|a + b| - 1] == b[|b| - 1];
      InitCountAppend(a, b[..|b| - 1], name);
    }
  }

  lemma NoInitInSetup(n: nat, name: string)
    ensures InitCount(BulkReads(n), name) == 0 && InitCount(ManualCaching(n), name) == 0
  {
    NoInitInBulkReads(n, name);
    NoInitInCaching(n, name);
  }

  lemma {:induction false} NoInitInBulkReads(n: nat, name: string)
    ensures InitCount(BulkReads(n), name) == 0
    decreases n
  {
    if n > 0 {
      var t := BulkReads(n);
      assert t[..|t| - 1] == BulkReads(n - 1);
      NoInitInBulkReads(n - 1, name);
    }
  }

  lemma {:induction false} NoInitInCaching(n: nat, name: string)
    ensures InitCount(ManualCaching(n), name) == 0
    decreases n
  {
    if n > 0 {
      var t := ManualCaching(n);
      assert t[..|t| - 1] == ManualCaching(n - 1);
      NoInitInCaching(n - 1, name);
    }
  }

  lemma {:induction false} NoInitInLoop(ticks: seq<PollFlags>, modules: nat, opMode: string, name: string)
    ensures InitCount(LoopTrace(ticks, modules, opMode), name) == 0
    decreases |ticks|
  {
    if |ticks| > 0 {
      NoInitInLoop(ticks[..|ticks| - 1], modules, opMode, name);
      NoInitInSetup(modules, name);
      InitCountAppend(BulkReads(modules), [SchedulerRun(ticks[|ticks| - 1].active, Some(opMode))], name);
      InitCountAppend(LoopTrace(ticks[..|ticks| - 1], modules, opMode), TickEvents(modules, ticks[|ticks| - 1].active, opMode), name);
    }
  }

  /** One session calls initialize() for `name` exactly when it starts, runs as `name`, and
      `name` was not yet recorded; it records `name` afterwards. */
  lemma SessionInitCount(g: Globals, hw: Hardware, opMode: string, polls: seq<PollFlags>, name: string)
    ensures InitCount(SessionTrace(g, hw, opMode, polls), name)
            == if hw.voltageSensors > 0 && opMode == name && name !in g.initialized then 1 else 0
    ensures name in GlobalsAfter(g, hw, opMode).initialized
            <==> name in g.initialized || (hw.voltageSensors > 0 && opMode == name)
  {
    NoInitInSetup(hw.lynxModules, name);
    if hw.voltageSensors > 0 {
      var ticks := polls[..StopIndex(polls)];
      var v := Published(hw, opMode);
      var a := ManualCaching(hw.lynxModules);
      var b := a + [RobotInit(v)];
      var c := b + InitEvents(g.initialized, opMode, v);
      var d := c + LoopTrace(ticks, hw.lynxModules, opMode);
      InitCountAppend(a, [RobotInit(v)], name);
      InitCountAppend(b, InitEvents(g.initialized, opMode, v), name);
      if opMode !in g.initialized {
        assert InitCount(InitEvents(g.initialized, opMode, v), name) == InitCount([UserInitialize(opMode, v)], name);
      }
      NoInitInLoop(ticks, hw.lynxModules, opMode, name);
      InitCountAppend(c, LoopTrace(ticks, hw.lynxModules, opMode), name);
      InitCountAppend(d, [SchedulerRun(false, Some(opMode))], name);
    }
  }

  /** One session request: the OpMode's name, the hardware it finds, the readings it sees. */
  datatype Launch = Launch(name: string, hw: Hardware, polls: seq<PollFlags>)

  function RunAll(g: Globals, launches: seq<Launch>): Session
    decreases |launches|
  {
    if |launches| == 0 then Session(g, [], None)
    else
      var l := launches[|launches| - 1];
      var s := RunAll(g, launches[..|launches| - 1]);
      Session(GlobalsAfter(s.globals, l.hw, l.name), s.trace + SessionTrace(s.globals, l.hw, l.name, l.polls), None)
  }

  /** Across any number of sessions, initialize() runs for a name at most once, and exactly
      once when the name was not recorded at the start but is recorded at the end. */
  lemma {:induction false} InitializeAtMostOncePerName(g: Globals, launches: seq<Launch>, name: string)
    ensures InitCount(RunAll(g, launches).trace, name)
            == if name in RunAll(g, launches).globals.initialized && name !in g.initialized then 1 else 0
    ensures name in g.initialized ==> name in RunAll(g, launches).globals.initialized
    decreases |launches|
  {
    if |launches| > 0 {
      var l := launches[|launches| - 1];
      var s := RunAll(g, launches[..|launches| - 1]);
      InitializeAtMostOncePerName(g, launches[..|launches| - 1], name);
      SessionInitCount(s.globals, l.hw, l.name, l.polls, name);
      InitCountAppend(s.trace, SessionTrace(s.globals, l.hw, l.name, l.polls), name);
    }
  }

  // ---------------------------------------------------------------------------------------
  // The hidden hardware map, as written

  function RunAllAsWritten(g: Globals, launches: seq<Launch>): Session
    decreases |launches|
  {
    if |launches| == 0 then Session(g, [], None)
    else
      var s := RunAllAsWritten(g, launches[..|launches| - 1]);
      var t := SessionAsWritten(s.globals, launches[|launches| - 1]);
      Session(t.globals, s.trace + t.trace, t.error)
  }

  /** The first session after start-up: where the intended session with a voltage sensor
      initialises the OpMode and runs the scheduler, the session as written dereferences
      the null static hardware map before doing anything. */
  lemma ClearedGlobalsSessionFails(l: Launch)
    requires l.hw.voltageSensors > 0
    ensures SessionAsWritten(InitialGlobals, l) == Session(InitialGlobals, [], Some(NullPointer))
    ensures InitCount(SessionTrace(InitialGlobals, l.hw, l.name, l.polls), l.name) == 1
    ensures InitCount(SessionAsWritten(InitialGlobals, l).trace, l.name) == 0
  {
    SessionInitCount(InitialGlobals, l.hw, l.name, l.polls, l.name);
  }

  /** As written, once the static hardware map is null no session ever gets past the first
      lookup: every one fails, nothing is traced, and the globals never change, so no OpMode
      is ever initialised and the scheduler never runs. */
  lemma {:induction false} AsWrittenSessionsNeverStart(g: Globals, launches: seq<Launch>)
    requires g.hardwareMap.None?
    ensures RunAllAsWritten(g, launches).trace == []
    ensures RunAllAsWritten(g, launches).globals == g
    ensures |launches| > 0 ==> RunAllAsWritten(g, launches).error == Some(NullPointer)
    decreases |launches|
  {
    if |launches| > 0 {
      AsWrittenSessionsNeverStart(g, launches[..|launches| - 1]);
    }
  }

  // ---------------------------------------------------------------------------------------
  // enabled(): one cached Trigger per OpMode name

  datatype Cached = Cached(trigger: Trigger, cache: map<string, Trigger>)

  /** enabled(): computeIfAbsent on the name, creating a Trigger on robotEnabled whose
      context is the OpMode's name, polled by the default button loop. */
  function Enabled(cache: map<string, Trigger>, name: string): (r: Cached)
    ensures name in r.cache && r.trigger == r.cache[name]
    ensures name in cache ==> r.cache == cache
    ensures name !in cache ==>
      && r.cache == cache[name := r.trigger]
      && r.trigger == Trigger(DefaultButtonLoop, EnabledFlag, name)
  {
    if name in cache then Cached(cache[name], cache)
    else
      var t := NewTrigger(Some(DefaultButtonLoop), Some(EnabledFlag), Some(name)).value;
      Cached(t, cache[name := t])
  }

  /** Repeated calls with the same name return the same Trigger and change nothing. */
  lemma EnabledIsCached(cache: map<string, Trigger>, name: string)
    ensures var first := Enabled(cache, name);
            var second := Enabled(first.cache, name);
            second.trigger == first.trigger && second.cache == first.cache
    ensures Enabled(cache, name).trigger.context == name || name in cache
  {
  }
}
