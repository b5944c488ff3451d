/** The queue handler for chat commands. Unlike the sync handler it catches
    nothing: a payload that does not decode throws out of `HandlePacket`. */
module CommandQueue {
  import opened Base
  import opened Elements
  import opened Packets

  /** One queue entry handled: the event list after it, or the decode failure. */
  function CommandStep(events: seq<Event>, readCommand: Bytes -> Option<CommandPacket>, entry: PacketQueueEntry, player: ElementId): (r: Result<seq<Event>>)
    // every id but the command id is a no-op
    ensures entry.packetId != Command ==> r == Ok(events)
    // a command that does not decode fails and raises nothing
    ensures entry.packetId == Command && readCommand(entry.data).None? ==> r == Fail(DecodeFailed)
    // a decoded command is raised once, on the entry's own player, with the decoded values
    ensures entry.packetId == Command && readCommand(entry.data).Some? ==>
      var packet := readCommand(entry.data).value;
      r == Ok(events + [CommandTriggered(player, packet.command, packet.arguments)])
  {
    if entry.packetId == Command then
      match readCommand(entry.data)
      case Some(packet) => Ok(events + [CommandTriggered(player, packet.command, packet.arguments)])
      case None => Fail(DecodeFailed)
    else Ok(events)
  }

  /** The command queue handler. */
  class CommandQueueHandler {
    const trace: Trace
    const readCommand: Bytes -> Option<CommandPacket>

    constructor (trace: Trace, readCommand: Bytes -> Option<CommandPacket>)
      ensures this.trace == trace && this.readCommand == readCommand
    {
      this.trace := trace;
      this.readCommand := readCommand;
    }

    /** `HandlePacket(queueEntry)`: the outcome is `Threw` when the decode throws. */
    method HandlePacket(entry: PacketQueueEntry) returns (outcome: Outcome)
      modifies trace
      ensures trace.sends == old(trace.sends)
      ensures var r := CommandStep(old(trace.events), readCommand, entry, entry.client.player);
        && (r.Ok? ==> outcome == Done && trace.events == r.value)
        && (r.Fail? ==> outcome == Threw(r.error) && trace.events == old(trace.events))
    {
      outcome := Done;
      if entry.packetId == Command {
        var decoded := readCommand(entry.data);
        if decoded.None? {
          return Threw(DecodeFailed);
        }
        trace.Raise(CommandTriggered(entry.client.player, decoded.value.command, decoded.value.arguments));
      }
    }
  }
}
