/** The bridge's response slot as the object it is: its critical sections, proved to be the
    steps of BridgePipe. */
module PipeBridge {
  import opened Naming
  import opened BridgePipe

  class PipeBridge {
    var connected: bool
    var slot: Slot
    ghost var holder: Holder
    ghost var outstanding: seq<Request>
    ghost var next: nat
    ghost var outcomes: seq<Return>
    ghost var chats: set<nat>

    ghost function Abs(): Bridge
      reads this
    {
      Bridge(connected, slot, holder, outstanding, next, outcomes, chats)
    }

    constructor ()
      ensures Abs() == BOOT
    {
      connected, slot := false, Slot(None, false, Line(Push(""), None), false);
      holder, outstanding, next, outcomes, chats := Free, [], 0, [], {};
    }

    /** The start of a command, g_cmd_cs held: -1 if there is no pipe. */
    method ArmSlot(event: Event) returns (armed: bool)
      requires AtStage(Abs(), Entered) && holder.event == event
      modifies this
      ensures Abs() == Apply(old(Abs()), Arm) && armed == old(connected)
    {
      if !connected {
        outcomes := outcomes + [Unreachable(holder.thread)];
        holder := Free;
        return false;
      }
      slot := slot.(wanted := Some(event), ok := false, signaled := false);
      holder := holder.(stage := Armed, stale := Same(outstanding, event), faithful := true);
      return true;
    }

    /** After a signalled wait. */
    method TakeLine() returns (line: Option<Line>)
      requires AtStage(Abs(), Woken)
      modifies this
      ensures Abs() == Apply(old(Abs()), Take)
      ensures line == if old(slot.ok) then Some(old(slot.line)) else None
    {
      if !slot.ok {
        outcomes := outcomes + [TimedOut(holder.thread, holder.event, holder.serial)];
        line := None;
      } else {
        line := Some(slot.line);
        outcomes := outcomes + [Returned(holder.thread, holder.event, holder.serial, holder.stale,
                                       holder.faithful, slot.line)];
      }
      holder := Free;
    }

    /** `route_pipe_line` for a reply: to the waiter if it expects it and has none yet. */
    method RoutePipeLine(line: Line)
      requires outstanding != []
      requires line == Line(outstanding[0].event, Some(outstanding[0].serial))
      modifies this
      ensures Abs() == Apply(old(Abs()), Route)
    {
      outstanding := outstanding[1..];
      if !slot.ok && slot.wanted == Some(line.event) {
        slot := slot.(line := line, ok := true, signaled := true);
      }
    }
  }
}
