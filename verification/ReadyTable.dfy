/** The ready table as the fixed array it is, proved to be the gate of ReadyGate. */
module ReadyTable {
  import opened Naming
  import opened ReadyGate
  import G = ReadyGate

  class ReadyTable {
    const slots: array<string>
    var count: nat
    var players: int
    var fired: bool
    var timedOut: bool
    var deadline: int

    predicate Valid()
      reads this
    {
      slots.Length == READY_MAX && count <= READY_MAX
    }

    function Abs(): Gate
      requires Valid()
      reads this, slots
    {
      Gate(slots[..count], players, fired, timedOut, deadline)
    }

    constructor ()
      ensures Valid() && fresh(slots) && Abs() == EMPTY
    {
      slots := new string[READY_MAX](i => "");
      count, players, fired, timedOut, deadline := 0, 0, false, false, 0;
    }

    method Find(id: string) returns (at: int)
      requires Valid()
      ensures at == -1 || (0 <= at < count && id != "" && slots[at] == id)
      ensures at == -1 <==> id == "" || id !in Abs().ids
      ensures forall j | 0 <= j < at :: slots[j] != id
    {
      if id == "" {
        return -1;
      }
      for i := 0 to count
        invariant forall j | 0 <= j < i :: slots[j] != id
      {
        if slots[i] == id {
          assert Abs().ids[i] == id;
          return i;
        }
      }
      return -1;
    }

    method Add(id: string) returns (added: bool)
      requires Valid()
      modifies this`count, slots
      ensures Valid() && (Abs(), added) == G.Add(old(Abs()), id)
    {
      var at := Find(id);
      if id == "" || at >= 0 || count >= READY_MAX {
        return false;
      }
      slots[count] := Cut(id);
      count := count + 1;
      assert Abs().ids == old(Abs().ids) + [Cut(id)];
      return true;
    }

    /** Later ids move up by one. */
    method Remove(id: string) returns (removed: bool)
      requires Valid()
      modifies this`count, slots
      ensures Valid()
      ensures removed <==> id != "" && id in old(Abs().ids)
      ensures Abs() == if removed then old(Abs()).(ids := Removed(old(Abs().ids), id)) else old(Abs())
    {
      var at := Find(id);
      if at < 0 {
        return false;
      }
      ghost var before := Abs().ids;
      RemovedAt(before, id, at);
      ShiftDown(at);
      count := count - 1;
      assert slots[..count] == before[..at] + before[at + 1..];
      return true;
    }

    method ShiftDown(at: nat)
      requires Valid() && at < count
      modifies slots
      ensures forall k | 0 <= k < count :: slots[k] == old(slots[if at <= k < count - 1 then k + 1 else k])
    {
      for j := at to count - 1
        invariant forall k | 0 <= k < count :: slots[k] == old(slots[if at <= k < j then k + 1 else k])
      {
        slots[j] := slots[j + 1];
      }
    }

    method OnChat(conn: string, now: int, timeout: int) returns (fire: bool)
      requires Valid()
      modifies this, slots
      ensures Valid() && (Abs(), fire) == G.OnChat(old(Abs()), conn, now, timeout)
    {
      fire := false;
      if fired {
        return;
      }
      var id := IdOf(conn);
      var added := Add(id);
      if added {
        timedOut := false;
        if deadline <= 0 && count > 0 && timeout > 0 {
          deadline := now + timeout;
        }
        if players >= 1 && count >= players {
          fired, timedOut, fire := true, false, true;
        }
      }
    }

    method Tick(now: int) returns (expired: bool)
      requires Valid()
      modifies this
      ensures Valid() && Abs() == G.Tick(old(Abs()), now)
      ensures expired == G.Expired(old(Abs()), now)
    {
      expired := deadline > 0 && count > 0 && !fired && now >= deadline;
      if expired {
        count, deadline, timedOut := 0, 0, true;
      }
    }

    method Reset()
      requires Valid()
      modifies this
      ensures Valid() && Abs() == G.Reset(old(Abs()))
    {
      count, deadline, fired, timedOut := 0, 0, false, false;
    }
  }

  lemma {:induction false} RemovedAt(ids: seq<string>, id: string, at: nat)
    requires at < |ids| && ids[at] == id && forall j | 0 <= j < at :: ids[j] != id
    ensures Removed(ids, id) == ids[..at] + ids[at + 1..]
    decreases |ids|
  {
    if at > 0 {
      RemovedAt(ids[1..], id, at - 1);
      assert ids[1..][..at - 1] == ids[1..at] && ids[1..][at..] == ids[at + 1..];
      assert [ids[0]] + ids[1..at] == ids[..at];
    }
  }
}
