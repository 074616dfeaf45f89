/**
 * `DenonTcpClient`: the receiver protocol client. It queues outbound payloads
 * while it has no transport and drains them in order when a connection is
 * made, decodes inbound tokens into a last-write-wins state table, and calls
 * its one listener once per stored update.
 *
 * The transport is represented by whether it exists (`connected`, Python's
 * `hasattr(self, 'transport')`) and by the payloads written to it
 * (`written`); the listener and the callables of `define_command` are foreign
 * code, represented by the logs of their calls (`notified`, `invoked`).
 */
module TcpClient {
  import opened Protocol

  class DenonTcpClient {
    const host: string
    const port: int
    var states: map<string, string>
    var commands: set<string>
    var queue: seq<string>
    var connected: bool
    var written: seq<string>
    var notified: seq<Update>
    var invoked: seq<string>

    /** A queue only builds up while there is no transport to write to. */
    ghost predicate Valid()
      reads this
    {
      connected ==> queue == []
    }

    /** Every payload handed to `send`, in order: first those written, then those still queued. */
    ghost function Outbox(): seq<string>
      reads this
    {
      written + queue
    }

    constructor (host: string, port: int)
      ensures this.host == host && this.port == port
      ensures states == map[] && commands == {} && queue == []
      ensures !connected && written == [] && notified == [] && invoked == []
      ensures Valid()
    {
      this.host, this.port := host, port;
      states, commands, queue := map[], {}, [];
      connected, written, notified, invoked := false, [], [], [];
    }

    /** `send`: write now if a transport exists, otherwise append to the queue. */
    method Send(data: string)
      modifies this`written, this`queue
      ensures written == old(written) + (if connected then [data] else [])
      ensures queue == old(queue) + (if connected then [] else [data])
      ensures Valid() == old(Valid())
    {
      if connected {
        written := written + [data];
      } else {
        queue := queue + [data];
      }
    }

    /** `connection_made`: take the transport, then write the queued payloads front first until none is left. */
    method ConnectionMade()
      modifies this`connected, this`written, this`queue
      ensures connected && queue == []
      ensures written == old(written) + old(queue)
      ensures Valid() && Outbox() == old(Outbox())
    {
      connected := true;
      while queue != []
        invariant connected
        invariant written + queue == old(written) + old(queue)
        decreases |queue|
      {
        var next := queue[0];
        assert queue == [next] + queue[1..];
        queue := queue[1..];
        Send(next);
      }
    }

    /** `set_state`: store unconditionally, then call the listener once with the pair. */
    method SetState(key: string, value: string)
      modifies this`states, this`notified
      ensures states == old(states)[key := value]
      ensures notified == old(notified) + [Update(key, value)]
    {
      states := states[key := value];
      notified := notified + [Update(key, value)];
    }

    /** `get_state`: never fails; a key that was never set reads as the empty string. */
    function GetState(key: string): (v: string)
      reads this
      ensures key in states ==> v == states[key]
      ensures key !in states ==> v == ""
    {
      Lookup(states, key)
    }

    /** `define_command`: the name becomes defined (the callable itself is foreign). */
    method DefineCommand(command: string)
      modifies this`commands
      ensures commands == old(commands) + {command}
    {
      commands := commands + {command};
    }

    /** `send_command`: run the named command if it is defined, otherwise only report it. */
    method SendCommand(command: string) returns (found: bool)
      modifies this`invoked
      ensures found <==> command in commands
      ensures invoked == if found then old(invoked) + [command] else old(invoked)
    {
      found := command in commands;
      if found {
        invoked := invoked + [command];
      }
    }

    /** `set_zone_state`: the `key == 'ON'` test, then mute / numeric volume / source. */
    method SetZoneState(key: string, state: string)
      modifies this`states, this`notified
      ensures states == ApplyUpdates(old(states), ZoneUpdates(key, state))
      ensures notified == old(notified) + ZoneUpdates(key, state)
    {
      ghost var before := states;
      if key == "ON" || key == "OFF" {
        SetState(key, state);
      }
      ghost var first := if key == "ON" || key == "OFF" then [Update(key, state)] else [];
      assert states == ApplyUpdates(before, first);
      ApplyUpdatesAppend(before, first, [ZoneField(key, state)]);
      if state == "MUON" || state == "MUOFF" {
        SetState(key + "_MUTE", state[2..]);
      } else if Strings.IsNumeric(state) {
        SetState(key + "_VOL", state);
      } else {
        SetState(key + "_SOURCE", state);
      }
    }

    /** `parse` as written: the first matching prefix decides; an unknown token changes nothing. */
    method Parse(data: string)
      modifies this`states, this`notified
      ensures states == ApplyUpdates(old(states), Decode(data))
      ensures notified == old(notified) + Decode(data)
    {
      if "SI" <= data {
        SetZoneState("ZONE1", data[2..]);
      } else if "Z2" <= data {
        SetZoneState("ZONE2", data[2..]);
      } else if "Z3" <= data {
        SetZoneState("ZONE3", data[2..]);
      } else if "MVMAX" <= data {
        SetState("ZONE1_VOL_MAX", data[4..]);
      } else if "MV" <= data {
        SetState("ZONE1_VOL", data[2..]);
      } else if "MU" <= data {
        SetState("ZONE1_MUTE", data[2..]);
      } else if "ZM" <= data {
        SetState("ZONE1", data[2..]);
      } else if "SV" <= data {
        SetState("VIDEO_SELECT", data[2..]);
      }
    }

    /** `request_status`: the eight status queries, in their fixed order, through `send`. */
    method RequestStatus()
      modifies this`written, this`queue
      ensures written == old(written) + (if connected then StatusQueries else [])
      ensures queue == old(queue) + (if connected then [] else StatusQueries)
      ensures old(Valid()) ==> Valid() && Outbox() == old(Outbox()) + StatusQueries
    {
      Send(StatusQueries[0]);
      Send(StatusQueries[1]);
      Send(StatusQueries[2]);
      Send(StatusQueries[3]);
      Send(StatusQueries[4]);
      Send(StatusQueries[5]);
      Send(StatusQueries[6]);
      Send(StatusQueries[7]);
      assert StatusQueries == [StatusQueries[0], StatusQueries[1], StatusQueries[2], StatusQueries[3],
                               StatusQueries[4], StatusQueries[5], StatusQueries[6], StatusQueries[7]];
      if connected {
        assert written == old(written) + StatusQueries && queue == old(queue);
      } else {
        assert written == old(written) && queue == old(queue) + StatusQueries;
        assert Outbox() == old(written) + (old(queue) + StatusQueries);
      }
    }
  }

  /**
   * Payloads sent before the first connection reach the wire first, in the
   * order they were sent, and a payload sent afterwards follows them.
   */
  method QueuedBeforeConnect(first: string, second: string, third: string) returns (wire: seq<string>)
    ensures wire == [first, second, third]
  {
    var client := new DenonTcpClient("receiver", 23);
    client.Send(first);
    client.Send(second);
    assert client.written == [];
    client.ConnectionMade();
    client.Send(third);
    wire := client.written;
  }
}
