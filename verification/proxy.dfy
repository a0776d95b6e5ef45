/** ProxyCommand: schedules its target when initialized, finishes once the target is no
    longer scheduled, and cancels the target only when it is itself interrupted. */
module Proxy {
  import opened Wrappers
  import opened Scheduler

  /** The proxy's name and target, and the target it currently holds (`m_command`). */
  datatype ProxyCommand = ProxyCommand(name: string, target: CommandId, held: Option<CommandId>)

  const NamePrefix: string := "Proxy("

  function ProxyName(inner: string): string {
    NamePrefix + inner + ")"
  }

  /** The inner command's name read back out of a proxy's name. */
  function InnerName(name: string): string
    requires |name| >= |NamePrefix| + 1
  {
    name[|NamePrefix|..|name| - 1]
  }

  /** The constructor rejects a null command and names the proxy after it. */
  function NewProxy(command: Option<Command>): (r: Result<ProxyCommand>)
    ensures command.None? ==> r == Err(NullParam("command", "ProxyCommand"))
    ensures command.Some? ==> r.Ok?
    ensures r.Ok? ==>
      && r.value.target == command.value.id
      && r.value.held.None?
      && |r.value.name| == |command.value.name| + 7
      && r.value.name[..|NamePrefix|] == NamePrefix
      && r.value.name[|r.value.name| - 1] == ')'
      && InnerName(r.value.name) == command.value.name
  {
    if command.None? then Err(NullParam("command", "ProxyCommand"))
    else Ok(ProxyCommand(ProxyName(command.value.name), command.value.id, None))
  }

  datatype Effect = Effect(proxy: ProxyCommand, scheduled: set<CommandId>)

  /** initialize(): take the target from the supplier and schedule it. */
  function Initialize(p: ProxyCommand, scheduled: set<CommandId>): (r: Effect)
    ensures r.proxy.held == Some(p.target)
    ensures r.proxy.name == p.name && r.proxy.target == p.target
    ensures r.scheduled == scheduled + {p.target}
  {
    Effect(p.(held := Some(p.target)), Apply(Schedule(p.target), scheduled))
  }

  /** end(interrupted): cancel the held target only when interrupted, then drop it.
      Interrupting a proxy that holds nothing dereferences null. */
  function End(p: ProxyCommand, interrupted: bool, scheduled: set<CommandId>): (r: Result<Effect>)
    ensures r.Err? <==> interrupted && p.held.None?
    ensures r.Err? ==> r.error == NullPointer
    ensures r.Ok? ==> r.value.proxy == p.(held := None)
    ensures r.Ok? && interrupted ==> r.value.scheduled == scheduled - {p.held.value}
    ensures r.Ok? && !interrupted ==> r.value.scheduled == scheduled
  {
    if interrupted then
      if p.held.None? then Err(NullPointer)
      else Ok(Effect(p.(held := None), Apply(Cancel(p.held.value), scheduled)))
    else Ok(Effect(p.(held := None), scheduled))
  }

  /** execute() does nothing. */
  function Execute(p: ProxyCommand, scheduled: set<CommandId>): (r: Effect)
    ensures r.proxy == p && r.scheduled == scheduled
  {
    Effect(p, scheduled)
  }

  /** isFinished(): nothing held, or the held target is no longer scheduled. */
  function IsFinished(p: ProxyCommand, scheduled: set<CommandId>): (r: bool)
    ensures r <==> p.held.None? || !IsScheduled(scheduled, p.held.value)
  {
    p.held.None? || p.held.value !in scheduled
  }

  /** runsWhenDisabled(): always true, so the proxy survives a disabled robot. */
  function RunsWhenDisabled(p: ProxyCommand): (r: bool)
    ensures r
  {
    true
  }

  /** After initialize, the proxy is finished exactly when its target is not scheduled,
      however the scheduled set has since changed. */
  lemma FinishedTracksTarget(p: ProxyCommand, scheduled: set<CommandId>, later: set<CommandId>)
    ensures var q := Initialize(p, scheduled).proxy;
            IsFinished(q, later) <==> p.target !in later
    ensures !IsFinished(Initialize(p, scheduled).proxy, Initialize(p, scheduled).scheduled)
  {
  }

  /** Whatever the interruption flag, an initialized proxy can always be ended, and is
      finished afterwards. A natural end leaves the target's state untouched; an
      interruption leaves the target unscheduled. */
  lemma EndAfterInitialize(p: ProxyCommand, scheduled: set<CommandId>, later: set<CommandId>, interrupted: bool)
    ensures var q := Initialize(p, scheduled).proxy;
            var e := End(q, interrupted, later);
            && e.Ok?
            && IsFinished(e.value.proxy, e.value.scheduled)
            && (interrupted ==> p.target !in e.value.scheduled)
            && (!interrupted ==> e.value.scheduled == later)
  {
  }

  /** The proxy's name always gives back the inner command's name. */
  lemma NameRoundTrip(inner: string)
    ensures |ProxyName(inner)| >= |NamePrefix| + 1
    ensures InnerName(ProxyName(inner)) == inner
  {
  }
}
