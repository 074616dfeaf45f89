/**
 * `DenonNetworkSwitch`: an on/off entity bound to two configured command
 * strings. A source switch derives its commands from a zone and a source
 * code; a raw token equal to one of the commands sets the switch, and turning
 * it on or off sends the matching command through the shared client.
 */
module Switch {
  import opened Wrappers
  import opened Strings
  import opened Protocol
  import opened EntityState
  import opened TcpClient

  /** The command prefix of a zone: `SI` for zone 1, `Z<n>` for any other zone. */
  function ZonePrefix(zone: nat): string {
    if zone == 1 then "SI" else "Z" + NatToString(zone)
  }

  /** The on command of a source switch: the zone prefix, then the source code. */
  function SourceOnCommand(zone: nat, source: string): string {
    ZonePrefix(zone) + source
  }

  /** The off command of a source switch: the zone prefix, then `?` (a source query). */
  function SourceOffCommand(zone: nat): string {
    ZonePrefix(zone) + "?"
  }

  /** Zone 1 selects with `SI`, zone `n` with `Z<n>`; on appends the source, off appends `?`. */
  lemma SourceCommandsShape(zone: nat, source: string)
    ensures zone == 1 ==> SourceOnCommand(zone, source) == "SI" + source && SourceOffCommand(zone) == "SI?"
    ensures zone != 1 ==> SourceOnCommand(zone, source) == "Z" + NatToString(zone) + source
    ensures zone != 1 ==> SourceOffCommand(zone) == "Z" + NatToString(zone) + "?"
  {
  }

  /** Two zones never share a prefix, so switches of different zones never share a command. */
  lemma ZonePrefixInjective(zone1: nat, zone2: nat)
    requires ZonePrefix(zone1) == ZonePrefix(zone2)
    ensures zone1 == zone2
  {
    assert ZonePrefix(zone1)[0] == (if zone1 == 1 then 'S' else 'Z');
    assert ZonePrefix(zone2)[0] == (if zone2 == 1 then 'S' else 'Z');
    if zone1 != 1 && zone2 != 1 {
      var s1, s2 := NatToString(zone1), NatToString(zone2);
      assert s1 == ("Z" + s1)[1..] == ("Z" + s2)[1..] == s2;
      ValueOfNatToString(zone1);
      ValueOfNatToString(zone2);
    }
  }

  /** A source switch's on and off commands coincide exactly when its source code is `?`. */
  lemma SourceCommandsDiffer(zone: nat, source: string)
    ensures SourceOnCommand(zone, source) == SourceOffCommand(zone) <==> source == "?"
  {
    var p := ZonePrefix(zone);
    if p + source == p + "?" {
      assert source == (p + source)[|p|..] == (p + "?")[|p|..] == "?";
    }
  }

  /** The client key a zone's source is stored under: `ZONE<n>_SOURCE`. */
  function ZoneSourceKey(zone: nat): string {
    "ZONE" + NatToString(zone) + "_SOURCE"
  }

  /**
   * For zones 1 to 3, the client decodes a source switch's on command as that
   * zone's source being the configured code, and its off command as the source
   * `?` (so long as the code is not a mute or volume report).
   */
  lemma SourceCommandsDecode(zone: nat, source: string)
    requires 1 <= zone <= 3
    requires source != "MUON" && source != "MUOFF" && !IsNumeric(source)
    ensures Decode(SourceOnCommand(zone, source)) == [Update(ZoneSourceKey(zone), source)]
    ensures Decode(SourceOffCommand(zone)) == [Update(ZoneSourceKey(zone), "?")]
  {
    assert !IsDigit("?"[0]);
    var key := if zone == 1 then "ZONE1" else if zone == 2 then "ZONE2" else "ZONE3";
    assert NatToString(zone) == [DigitChar(zone)];
    assert ZoneSourceKey(zone) == key + "_SOURCE";
    ZoneKeysSingleUpdate(key, source);
    ZoneKeysSingleUpdate(key, "?");
    var p := ZonePrefix(zone);
    assert p == if zone == 1 then "SI" else if zone == 2 then "Z2" else "Z3";
    ZoneTokenDecodes(p, key, source);
    ZoneTokenDecodes(p, key, "?");
  }

  /** The key the data listener waits for: `zone<n>_source`, or `zoneNone_source` without a zone. */
  function SourceListenerKey(zone: Option<nat>): string {
    "zone" + (match zone case Some(n) => NatToString(n) case None => "None") + "_source"
  }

  /**
   * The data listener compares with a lower-case key, while every key the
   * client stores is upper case: no decoded update ever reaches its branch.
   */
  lemma SourceListenerKeyNeverDecoded(zone: Option<nat>, token: string)
    ensures forall u :: u in Decode(token) ==> u.key != SourceListenerKey(zone)
  {
    DecodedKeysUpperCase(token);
    assert SourceListenerKey(zone)[0] == 'z';
  }

  class DenonNetworkSwitch {
    const name: string
    const onCommand: string
    const offCommand: string
    const zone: Option<nat>
    const source: Option<string>
    const client: DenonTcpClient
    var state: Option<Power>

    constructor (name: string, onCommand: string, offCommand: string,
                 zone: Option<nat>, source: Option<string>, client: DenonTcpClient)
      ensures this.name == name && this.onCommand == onCommand && this.offCommand == offCommand
      ensures this.zone == zone && this.source == source && this.client == client
      ensures state == None
    {
      this.name, this.onCommand, this.offCommand := name, onCommand, offCommand;
      this.zone, this.source, this.client := zone, source, client;
      state := None;
    }

    /** `client_data_received`: on the zone's source key, ON when the value is the switch's source and OFF otherwise. */
    method ClientDataReceived(key: string, value: string)
      modifies this`state
      ensures key == SourceListenerKey(zone) ==> state == Some(if source == Some(value) then On else Off)
      ensures key != SourceListenerKey(zone) ==> state == old(state)
    {
      if key == SourceListenerKey(zone) {
        if source == Some(value) {
          state := Some(On);
        } else {
          state := Some(Off);
        }
      }
    }

    /** `client_raw_data_received`: empty tokens are ignored; the on command is compared before the off command. */
    method ClientRawDataReceived(data: string) returns (updated: bool)
      modifies this`state
      ensures updated <==> data != "" && (data == onCommand || data == offCommand)
      ensures updated && data == onCommand ==> state == Some(On)
      ensures updated && data != onCommand ==> state == Some(Off)
      ensures !updated ==> state == old(state)
    {
      updated := false;
      if data == "" {
        return;
      }
      if data == onCommand {
        state := Some(On);
        updated := true;
      } else if data == offCommand {
        state := Some(Off);
        updated := true;
      }
    }

    /** `turn_on`: send the on command, terminated. */
    method TurnOn()
      requires client.Valid()
      modifies client`written, client`queue
      ensures client.Valid() && client.Outbox() == old(client.Outbox()) + [Terminated(onCommand)]
      ensures client.written == old(client.written) + (if client.connected then [Terminated(onCommand)] else [])
      ensures client.queue == old(client.queue) + (if client.connected then [] else [Terminated(onCommand)])
    {
      client.Send(onCommand + "\r");
    }

    /** `turn_off`: send the off command, terminated. */
    method TurnOff()
      requires client.Valid()
      modifies client`written, client`queue
      ensures client.Valid() && client.Outbox() == old(client.Outbox()) + [Terminated(offCommand)]
      ensures client.written == old(client.written) + (if client.connected then [Terminated(offCommand)] else [])
      ensures client.queue == old(client.queue) + (if client.connected then [] else [Terminated(offCommand)])
    {
      client.Send(offCommand + "\r");
    }
  }
}
