/** The MessageReorderer class, updating its buffer and counters in place. */
module ReorderBuffer {
  import opened Reorderer

  class MessageReorderer {
    var delivered: map<int, int>
    var deliveredIds: set<string>
    var buffer: seq<Held>
    const bufferTimeout: real

    ghost function View(): State
      reads this
    {
      State(delivered, deliveredIds, buffer)
    }

    constructor (timeout: real)
      ensures View() == State(map[], {}, []) && bufferTimeout == timeout
    {
      delivered, deliveredIds, buffer := map[], {}, [];
      bufferTimeout := timeout;
    }

    /** `handed` lists the messages given to on_deliver, in order; the callback leaves them unchanged. */
    method TryDeliver(message: Message, at: real, now: real) returns (handed: seq<Held>)
      modifies this
      ensures (View(), handed) == Reorderer.TryDeliver(old(View()), message, at, now, bufferTimeout)
    {
      if message.id in deliveredIds {
        return [];
      }
      buffer := buffer + [Held(message, at)];
      handed := Flush(now);
    }

    method Flush(now: real) returns (handed: seq<Held>)
      modifies this
      ensures (View(), handed) == Reorderer.Flush(old(View()), now, bufferTimeout)
    {
      hide Reorderer.Flush, SweepOver, SortByKey;
      handed := [];
      var changed := true;
      ghost var goal := Reorderer.Flush(View(), now, bufferTimeout);
      while changed
        invariant changed ==> goal.0 == Reorderer.Flush(View(), now, bufferTimeout).0
        invariant changed ==> goal.1 == handed + Reorderer.Flush(View(), now, bufferTimeout).1
        invariant !changed ==> goal == (View(), handed)
        decreases if changed then 1 + |buffer| else 0
      {
        FlushRound(View(), now, bufferTimeout, handed);
        buffer := SortByKey(buffer);
        var out := SweepBuffer(now);
        assert handed + out + [] == handed + out;
        handed := handed + out;
        changed := out != [];
      }
    }

    /** The inner loop of _flush over the sorted buffer. */
    method SweepBuffer(now: real) returns (out: seq<Held>)
      modifies this
      ensures Sweep(delivered, deliveredIds, out, buffer) ==
        SweepOver(old(delivered), old(deliveredIds), old(buffer), now, bufferTimeout)
    {
      out := [];
      var stillBuffered := [];
      for k := 0 to |buffer|
        invariant buffer == old(buffer)
        invariant Sweep(delivered, deliveredIds, out, stillBuffered) ==
          SweepOver(old(delivered), old(deliveredIds), buffer[..k], now, bufferTimeout)
      {
        var h := buffer[k];
        assert buffer[..k + 1][..k] == buffer[..k] && buffer[..k + 1][k] == h;
        if Ready(delivered, h.msg) || TimedOut(h, now, bufferTimeout) {
          out := out + [h];
          MarkDelivered(h.msg);
        } else {
          stillBuffered := stillBuffered + [h];
        }
      }
      assert buffer[..|buffer|] == buffer;
      buffer := stillBuffered;
    }

    method MarkDelivered(m: Message)
      modifies this`delivered, this`deliveredIds
      ensures delivered == Mark(old(delivered), m) && deliveredIds == old(deliveredIds) + {m.id}
    {
      deliveredIds := deliveredIds + {m.id};
      var current := if m.sender in delivered then delivered[m.sender] else 0;
      var senderSeq := if m.sender in m.clock then m.clock[m.sender] else 0;
      if senderSeq > current {
        delivered := delivered[m.sender := senderSeq];
      }
    }
  }
}
