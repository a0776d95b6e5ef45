/** The command scheduler, seen only through the interface the modelled code uses:
    a set of scheduled command ids with schedule, cancel and isScheduled.
    Conflict resolution, default commands and the run loop are not part of this model. */
module Scheduler {

  type CommandId = nat

  /** A command as far as the modelled code observes it: an identity and a name. */
  datatype Command = Command(id: CommandId, name: string)

  /** A request a binding or a proxy makes of the scheduler. */
  datatype Action = Schedule(command: CommandId) | Cancel(command: CommandId) | NoAction

  function IsScheduled(scheduled: set<CommandId>, c: CommandId): bool {
    c in scheduled
  }

  /** The effect of one request on the scheduled set; nothing but the named command changes. */
  function Apply(a: Action, scheduled: set<CommandId>): (r: set<CommandId>)
    ensures a.Schedule? ==> r == scheduled + {a.command}
    ensures a.Cancel? ==> r == scheduled - {a.command}
    ensures a.NoAction? ==> r == scheduled
  {
    match a
    case Schedule(c) => scheduled + {c}
    case Cancel(c) => scheduled - {c}
    case NoAction => scheduled
  }
}
