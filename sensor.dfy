/**
 * `DenonNetworkSensor`: an entity that owns its own client (the copy of
 * `DenonTcpClient` in the same source file) and is that client's listener.
 * The zone-1 power report becomes the sensor's state, lower-cased; every
 * other stored pair becomes an attribute.
 */
module Sensor {
  import opened Wrappers
  import opened Strings
  import opened Protocol
  import opened TcpClient

  class DenonNetworkSensor {
    const name: string
    const client: DenonTcpClient
    var state: Option<string>
    var attributes: map<string, string>

    constructor (name: string, host: string, port: int)
      ensures this.name == name && state == None && attributes == map[]
      ensures fresh(client) && client.host == host && client.port == port
      ensures client.states == map[] && client.queue == [] && !client.connected
      ensures client.written == [] && client.notified == [] && client.Valid()
    {
      this.name := name;
      state := None;
      attributes := map[];
      client := new DenonTcpClient(host, port);
    }

    /** `client_data_received`: `ZONE1` sets the state to the lower-cased value; any other key sets that attribute. */
    method ClientDataReceived(key: string, value: string)
      modifies this`state, this`attributes
      ensures key == "ZONE1" ==> state == Some(Lower(value)) && attributes == old(attributes)
      ensures key != "ZONE1" ==> state == old(state) && attributes == old(attributes)[key := value]
    {
      if key == "ZONE1" {
        state := Some(Lower(value));
      } else {
        attributes := attributes[key := value];
      }
    }

    /**
     * A token reaching the sensor's client: the client decodes and stores it,
     * calling the sensor for the update it stores (a token stores at most one).
     * Only a `ZM` token changes the sensor's state.
     */
    method DataReceived(data: string)
      modifies this`state, this`attributes, client`states, client`notified
      ensures client.states == ApplyUpdates(old(client.states), Decode(data))
      ensures client.notified == old(client.notified) + Decode(data)
      ensures state == if "ZM" <= data then Some(Lower(data[2..])) else old(state)
      ensures "ZM" <= data || Decode(data) == [] ==> attributes == old(attributes)
      ensures !("ZM" <= data) && Decode(data) != [] ==>
                attributes == old(attributes)[Decode(data)[0].key := Decode(data)[0].value]
    {
      var before := |client.notified|;
      client.Parse(data);
      var calls := client.notified[before..];
      assert calls == Decode(data);
      OnlyPowerTokenSetsZone1(data);
      if calls != [] {
        assert calls[0] in Decode(data);
        ClientDataReceived(calls[0].key, calls[0].value);
      }
    }
  }
}
