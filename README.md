# Denon AVR network integration: a Dafny model

This project models the client that talks to a Denon receiver over its text
protocol, together with the entities built on top of it.

The client is `DenonTcpClient`. It appears in `denon_tcp_client.py`, and a
near-identical copy appears in `sensor.py`.

- **Outbound:** while there is no transport, every payload is queued. The
  queue is written out in FIFO order when a connection is made.
- **Inbound:** each received chunk is decoded as one token by an ordered,
  first-match-wins prefix table, which includes a sub-grammar for the zone
  tokens. The decoded updates
  go into a state table where the last write wins, and the client calls its
  listener once for every update it stores.
- **Status:** a fixed battery of eight status queries can be sent at any time.

Four entity kinds sit around the client:

- **Sensor:** the client's listener. The zone-1 power report becomes its
  state, and every other key becomes an attribute.
- **Switch:** its source switches derive their on and off commands from a
  zone and a source code.
- **Media player:** one receiver zone. It matches raw tokens against its power
  and mute commands, a volume prefix and a source prefix. Its source names map
  to codes through an insertion-ordered dict.
- **Light:** a switch with a level. The brightness is scaled between the
  configured level range and `[0, 255]`.

## How the model is built

- **Client state.** The client is a class. Its fields are:
  - `states`: the state table.
  - `queue`: the payloads not yet written.
  - `connected`: whether a transport exists (the source's
    `hasattr(self, 'transport')`).
  - `written`: the payloads written to the transport.
  - `notified`: a log of listener calls.
  - `commands` and `invoked`: the defined command names, and the commands
    that were run.

  The ghost predicate `Valid()` says a queue only builds up while there is no
  transport. `Outbox()` is every payload ever handed to `send`, in order.
- **Decoding.** `Protocol.Decode` is the decoding grammar as written, as a pure
  function. `Protocol.Dispatch` states the same grammar as an ordered rule
  table, and a lemma proves the two agree. `TcpClient.DenonTcpClient.Parse` is
  proved to store exactly `Decode`'s updates. The evidently intended grammar,
  which differs only in the `MVMAX` slice, is `Protocol.DecodeIntended` over
  the table `Protocol.DispatchIntended` (see "## Findings").
- **Entities.** Each entity is a class whose fields are the ones its handlers
  update. Its client is a reference to the shared `DenonTcpClient`, and its
  commands are proved to write their payloads when the client is connected
  and to queue them otherwise.
- **One client model.** The `sensor.py` copy of the client
  (`sensor.py:115-254`) has the same state, queue, parse and send logic as
  `denon_tcp_client.py`. Only its logging and its reconnect loop differ, so the
  one class `TcpClient.DenonTcpClient` models both. The copy's methods map as
  follows:
  - `send` (`sensor.py:183-188`) is `Send`.
  - `connection_made` (`sensor.py:167-173`) is `ConnectionMade`.
  - `get_state` (`sensor.py:195-199`) is `GetState`.
  - `parse` (`sensor.py:210-230`) is `Parse`.
  - `set_state` (`sensor.py:190-193`) is `SetState`.
  - `request_status` (`sensor.py:246-254`) is `RequestStatus`.
  - `set_zone_state` (`sensor.py:232-244`) is `SetZoneState`.
- **Payloads.** Payloads are strings. The `.encode('utf-8')` and
  `.decode()` calls are identity on the ASCII protocol.
- **Python built-ins.** Several are written out explicitly:
  - `str.isnumeric` is `Strings.IsNumeric`: non-empty, ASCII digits only.
  - `lower()` is `Strings.Lower`: ASCII letters only.
  - `int(a / b)` is `Strings.TruncDiv`, a quotient truncated toward zero.
  - `str(n)` and `int(s)` are `Strings.IntToString` and `Strings.ValueOf`.
  - A dict is a sequence of (key, value) entries in insertion order
    (`OrderedDict`).
- **What the client does and does not do.** The client in these files does
  not split what it receives on carriage return. `data_received` hands each
  received chunk to `parse` whole, terminator included
  (`denon_tcp_client.py:28-30`, `sensor.py:179-181`). So `MV50\r` stores
  `50\r` under `ZONE1_VOL`, and `Z250\r` is not numeric and lands in
  `ZONE2_SOURCE` (`Protocol.TerminatedZoneReportIsSource`,
  `Protocol.TerminatedChunkExamples`). The model's `data` is such a chunk. The
  client keeps one listener, stores upper-case keys, and has no channel,
  quick-select or `raw_command` rules.

## Model

| member | source | states |
|---|---|---|
| TcpClient.DenonTcpClient.constructor | denon_tcp_client.py:7-14 | The new client has an empty state table, no defined commands, an empty queue and no transport. |
| TcpClient.DenonTcpClient.Send | denon_tcp_client.py:32-37 | With a transport, the payload is written and the queue is unchanged. Without one, the payload is appended to the queue and nothing is written. Validity is preserved. |
| TcpClient.DenonTcpClient.ConnectionMade | denon_tcp_client.py:16-22 | The transport exists and the queue is empty. The queued payloads are written after the earlier ones, in their original FIFO order. The sequence of all payloads sent is unchanged. |
| TcpClient.QueuedBeforeConnect | denon_tcp_client.py:16-37 | Two payloads sent before the first connection, then one sent after it, reach the wire in send order. |
| TcpClient.DenonTcpClient.SetState | denon_tcp_client.py:39-42 | The key is stored unconditionally, every other key is unchanged, and the listener is called exactly once with the pair. |
| TcpClient.DenonTcpClient.GetState | denon_tcp_client.py:44-48 | A present key reads its stored value; an absent key reads as `''`. |
| TcpClient.DenonTcpClient.DefineCommand | denon_tcp_client.py:50-51 | The command name becomes defined. |
| TcpClient.DenonTcpClient.SendCommand | denon_tcp_client.py:53-57 | A defined command is run exactly once; an undefined one runs nothing. |
| TcpClient.DenonTcpClient.SetZoneState | denon_tcp_client.py:81-93 | The states and listener calls are exactly those of `ZoneUpdates`, including the `key == 'ON'` test as written. |
| TcpClient.DenonTcpClient.Parse | denon_tcp_client.py:59-79 | As written, including `data[4:]` for `MVMAX`: the new state table is the old one with `Decode(data)` applied in order, and the listener sees exactly those updates. |
| TcpClient.DenonTcpClient.RequestStatus | denon_tcp_client.py:95-103 | The eight status queries are sent in their fixed order: written if connected, queued otherwise. Validity is kept, and `Outbox()` grows by exactly the battery. |
| Protocol.ZoneFieldCases | denon_tcp_client.py:86-93 | `MUON`/`MUOFF` store `ON`/`OFF` under `<key>_MUTE`. A numeric state goes to `<key>_VOL` and anything else to `<key>_SOURCE`. |
| Protocol.ZoneKeysSingleUpdate | denon_tcp_client.py:81-84 | For the keys `parse` passes (`ZONE1`-`ZONE3`), the `key == 'ON'/'OFF'` test never holds, so one update is made. |
| Protocol.ZoneTokenDecodes | denon_tcp_client.py:61-66 | `SI`, `Z2` and `Z3` tokens are decoded by the zone sub-grammar for zones 1, 2 and 3. |
| Protocol.Decode | denon_tcp_client.py:59-79 | As written, a token yields at most one update. |
| Protocol.DecodeIntended | denon_tcp_client.py:67-69 | The corrected grammar also yields at most one update. |
| Protocol.FirstMatch | denon_tcp_client.py:59-79 | The result is the least-index rule whose prefix starts the token, or none if no rule matches. |
| Protocol.DecodeIsFirstMatch | denon_tcp_client.py:59-79 | Decoding as written equals applying the first matching rule of the ordered dispatch table, whose `MVMAX` rule cuts at 4. |
| Protocol.DecodeIntendedIsFirstMatch | denon_tcp_client.py:59-79 | The corrected decoding equals first-match over the same table with the `MVMAX` rule cutting at 5. |
| Protocol.UnknownTokenIgnored | denon_tcp_client.py:59-79 | A token that starts with no rule's prefix changes nothing, as written and as intended. |
| Protocol.MaxVolumeBeforeVolume | denon_tcp_client.py:67-72 | An `MVMAX` token is stored as the maximum volume and never as the volume, although it also starts with `MV`. As written the value is `data[4:]`, as intended `data[5:]`. |
| Protocol.DecodeIntendedDiffersOnlyOnMaxVolume | denon_tcp_client.py:59-79 | The written and intended grammars agree on every token except those starting with `MVMAX`, where they always differ. |
| Protocol.OnlyPowerTokenSetsZone1 | denon_tcp_client.py:61-76 | A token updates key `ZONE1` exactly when it starts with `ZM`, and then the update is the remainder after `ZM`. |
| Protocol.DecodedKeysUpperCase | denon_tcp_client.py:59-93 | Every key the client stores is one of the twelve stored keys, none of which holds a lower-case letter. |
| Protocol.TerminatedZoneReportIsSource | denon_tcp_client.py:28-30 | A zone chunk ending in its carriage return is never numeric and is stored as that zone's source, terminator included. |
| Protocol.TerminatedChunkExamples | denon_tcp_client.py:28-30 | `MV50\r` stores `50\r` as the volume, and `Z250\r` stores `50\r` as the zone-2 source. |
| Protocol.MaxVolumeValue | denon_tcp_client.py:68-69 | The stored value is the text after the whole `MVMAX` prefix. |
| Protocol.MaxVolumeValueAsWritten | denon_tcp_client.py:68-69 | As written, the stored value is `X` followed by the intended value, so it is never numeric. |
| Protocol.MaxVolumeAsWrittenExample | denon_tcp_client.py:68-69 | `MVMAX55` stores `X55` as written; the intended value is `55`. |
| Protocol.LookupAfterUpdates | denon_tcp_client.py:39-48 | After a sequence of `set_state` calls, `get_state(key)` is the last value written for the key, or the earlier value if none was written. |
| Protocol.ApplyUpdatesAppend | denon_tcp_client.py:39-42 | Applying two batches of updates one after the other equals applying their concatenation. |
| Strings.ValueOfNatToString | light.py:172-174 | Reading back a printed natural number gives the number. |
| Strings.TruncDiv | light.py:146 | The magnitude is the quotient of the magnitudes, and a non-zero result is negative exactly when the operands' signs differ. For non-negative operands it is the Euclidean quotient. |
| Strings.TruncDivTowardZero | light.py:146 | `int(-255 / 2)` is -127, where Euclidean division gives -128. |
| Strings.Lower | sensor.py:83 | Lower-casing keeps the length and maps each character. |
| EntityState.Terminated | switch.py:201-207 | A sent command is the command followed by exactly one carriage return. |
| Sensor.DenonNetworkSensor.constructor | sensor.py:50-63 | The sensor owns a fresh client for its host and port, with no state, no queue and no transport. |
| Sensor.DenonNetworkSensor.ClientDataReceived | sensor.py:80-86 | Key `ZONE1` sets the state to the lower-cased value. Any other key sets that attribute only. |
| Sensor.DenonNetworkSensor.DataReceived | sensor.py:179-230 | The client stores `Decode(data)`, the grammar as written, so `MVMAX55` sets attribute `ZONE1_VOL_MAX` to `X55`. The sensor's state changes only on a `ZM` token. Any other decoded update becomes an attribute. |
| Switch.SourceCommandsShape | switch.py:68-74 | Zone 1 uses prefix `SI` and any other zone uses `Z<n>`. The on command appends the source and the off command appends `?`. |
| Switch.ZonePrefixInjective | switch.py:68-71 | Different zones never share a prefix. |
| Switch.SourceCommandsDiffer | switch.py:73-74 | A source switch's on and off commands coincide exactly when its source code is `?`. |
| Switch.SourceCommandsDecode | switch.py:68-74 | For zones 1-3, the client decodes the on command as that zone's source set to the code, and the off command as source `?`. |
| Switch.SourceListenerKeyNeverDecoded | switch.py:153-158 | The lower-case key the data listener waits for is never a key the client decodes. |
| Switch.DenonNetworkSwitch.constructor | switch.py:110-133 | The switch keeps its commands, zone and source, and its state is unknown. |
| Switch.DenonNetworkSwitch.ClientDataReceived | switch.py:153-160 | On its key, the state becomes ON if the value is the switch's source and OFF otherwise. Any other key changes nothing. |
| Switch.DenonNetworkSwitch.ClientRawDataReceived | switch.py:162-174 | An empty token is ignored. The on command is compared first, then the off command. Exactly those two set the state and report an update. |
| Switch.DenonNetworkSwitch.TurnOn | switch.py:201-203 | The terminated on command is written if the client is connected and queued otherwise, and nothing else is sent. |
| Switch.DenonNetworkSwitch.TurnOff | switch.py:205-207 | The terminated off command is written if the client is connected and queued otherwise, and nothing else is sent. |
| OrderedDict.Get | media_player.py:206-207 | A lookup fails exactly when the key is absent, and a found value belongs to an entry for the key. |
| OrderedDict.PutGet | media_player.py:79 | After `d[k] = v`, `d[k]` is `v`. |
| OrderedDict.PutGetOther | media_player.py:79 | `d[k] = v` leaves every other key's value unchanged. |
| OrderedDict.PutKeys | media_player.py:79 | A present key keeps its place in iteration order, and a new key is iterated last. |
| OrderedDict.FromEntriesLastWins | media_player.py:76-79 | In the dict built from the configured entries, a name maps to the code it was given last. |
| OrderedDict.FromEntriesDistinct | media_player.py:76-79 | The built dict lists each name once. |
| OrderedDict.FromEntriesKeys | media_player.py:76-79 | The built dict's names are exactly the configured names. |
| MediaPlayer.BuildSources | media_player.py:76-79 | The loop builds `FromEntries(configs)`. Its names are distinct, and each name maps to the last code configured for it. |
| MediaPlayer.ZoneSources | media_player.py:81-90 | A zone with no sources uses the platform's dict. Otherwise it builds its own, whose names are exactly the zone's configured names. |
| MediaPlayer.SourceIndex | media_player.py:206-211 | The result is the first position whose code matches and whose name is not the current source, or none if no such position exists. |
| MediaPlayer.FirstSourceMeaning | media_player.py:204-211 | A selected source has the reported code and differs from the current source. Nothing is selected exactly when no such source exists. |
| MediaPlayer.FirstSourceSelectsConfigured | media_player.py:204-211 | With distinct codes, a report of a configured source's code selects that source unless it is already current. |
| MediaPlayer.FindSource | media_player.py:206-211 | The loop with `break` returns the source `FirstSource` selects. |
| MediaPlayer.VolumeRemainder | media_player.py:198-199 | The remainder is the text after the volume prefix the branch matched. |
| MediaPlayer.VolumeRemainderAsWritten | media_player.py:198-199 | As written, the remainder is the token after its first `len(source_prefix)` characters, and empty when the token is shorter than the source prefix. |
| MediaPlayer.VolumeRemainderAgreement | media_player.py:198-199 | The written and intended cuts agree when the two prefixes have equal length. They disagree when the lengths differ and the source prefix fits in the token. |
| MediaPlayer.VolumeRemainderAsWrittenExample | media_player.py:198-199 | With volume prefix `MV` and source prefix `SIN`, the report `MV50` yields `0` as written and `50` as intended. |
| MediaPlayer.DenonNetworkMediaPlayer.constructor | media_player.py:117-161 | Given a dict with distinct names, the source list is the dict's names in iteration order, and the state, volume, mute and source are unknown. |
| MediaPlayer.DenonNetworkMediaPlayer.BranchPrecedence | media_player.py:180-204 | An exact command wins over both prefixes. A token with the volume prefix never reaches the source lookup. |
| MediaPlayer.DenonNetworkMediaPlayer.SharedPrefixHidesSource | media_player.py:198-204 | When the volume prefix starts the source prefix, no token reaches the source lookup. |
| MediaPlayer.DenonNetworkMediaPlayer.VolumeReceived | media_player.py:199-203 | A numeric level sets the volume to `(level - min) / (max - min)`. A non-numeric one changes nothing. If `min == max`, the division fails. |
| MediaPlayer.DenonNetworkMediaPlayer.SourceReceived | media_player.py:204-211 | The source becomes the first other source with the reported code. An update is reported exactly when there is one. |
| MediaPlayer.DenonNetworkMediaPlayer.ClientRawDataReceived | media_player.py:178-214 | An empty token is ignored. On, off, mute on and mute off set exactly their field. A volume report reads its level as written, cut at the source prefix's length, and never tries the source branch. A source report selects by `FirstSource`. Every other field is unchanged. |
| MediaPlayer.DenonNetworkMediaPlayer.TurnOn | media_player.py:270-272 | The terminated on command is written if the client is connected and queued otherwise, and nothing else is sent. |
| MediaPlayer.DenonNetworkMediaPlayer.TurnOff | media_player.py:274-276 | The terminated off command is written if the client is connected and queued otherwise, and nothing else is sent. |
| MediaPlayer.DenonNetworkMediaPlayer.VolumeUp | media_player.py:248-249 | The terminated volume-up command is written if the client is connected and queued otherwise, and nothing else is sent. |
| MediaPlayer.DenonNetworkMediaPlayer.VolumeDown | media_player.py:251-252 | The terminated volume-down command is written if the client is connected and queued otherwise, and nothing else is sent. |
| MediaPlayer.DenonNetworkMediaPlayer.MuteVolume | media_player.py:281-285 | `True` sends the mute-on command and `False` sends the mute-off command, each terminated: written if the client is connected, queued otherwise. |
| MediaPlayer.DenonNetworkMediaPlayer.SelectSourceCommand | media_player.py:287-288 | The command is the source prefix followed by the name's configured code, or by `?` for an unknown name. |
| MediaPlayer.DenonNetworkMediaPlayer.SelectSource | media_player.py:287-288 | The terminated selection command is written if the client is connected and queued otherwise, and nothing else is sent. |
| MediaPlayer.DenonNetworkMediaPlayer.SelectSourceEcho | media_player.py:204-211 | With distinct codes, the code in a selection command, reported back, selects the chosen source. |
| Light.BrightnessBounds | light.py:146 | A level in `[min, max]` scales to a brightness in `[0, 255]`, with `min` at 0 and `max` at 255. |
| Light.LevelForBounds | light.py:172 | A brightness in `[0, 255]` scales to a level in `[min, max]`, with 0 at `min` and 255 at `max`. |
| Light.LevelRoundTrip | light.py:146 | Sending the level for brightness `b` and reading it back gives a brightness of at most `b`. |
| Light.DenonNetworkLight.constructor | light.py:100-113 | The state and brightness are unknown, and the attributes are `None` once the base constructor has run. |
| Light.DenonNetworkLight.SetBrightness | light.py:176-181 | The brightness is stored, and the attributes become exactly `{brightness: value}`. |
| Light.DenonNetworkLight.ClientRawDataReceived | light.py:132-150 | An empty token is ignored. The on command is compared before the off command. A numeric level report sets the scaled brightness and attribute. A non-numeric one changes nothing. If `min == max`, the division fails. |
| Light.DenonNetworkLight.LevelCommand | light.py:172-174 | The level command starts with the level prefix. |
| Light.DenonNetworkLight.LevelCommandInRange | light.py:172-174 | For a brightness in `[0, 255]`, the command carries a decimal level within `[min, max]`, and the level branch reads back that level. |
| Light.DenonNetworkLight.TurnOn | light.py:167-174 | The on command is always sent. The brightness defaults to 255. Only a brightness different from the current one is stored and followed by its level command. The payloads are written if connected and queued otherwise. |
| Light.DenonNetworkLight.TurnOff | switch.py:205-207 | The inherited turn-off writes the terminated off command if the client is connected and queues it otherwise. |

## Left out

- Connection lifecycle is I/O and event-loop concurrency, so it is not
  modelled:
  - `start`, the connect and retry loop with its 5-second sleep, and
    `connection_lost` (`denon_tcp_client.py:24-26`, `sensor.py:126-177`);
  - `data_received`'s byte decoding, and the host's stop hooks.
- Transport, listener and command callables:
  - The transport object is represented only by `connected` and the
    `written` log.
  - The listener is foreign code, represented by the log of its calls.
  - `define_command` stores only the command name, because the callables are
    foreign.
  - `send_command` does not model what the callables do, or its
    print/warning.
- How tokens reach the entities: the media player, the light and non-source
  switches register with `add_raw_listener`, and source switches with
  `add_listener` (`switch.py:147-151`). The client in these files defines
  neither. The entities' handlers are therefore modelled as methods that
  receive a token or a key and value. Delivery of tokens to them, and the lookup of the shared client in
  the host's data, are not part of this model. Each entity is given its
  client as a parameter.
- `async_write_ha_state`, logging, properties that only return a field,
  voluptuous schemas, and service and platform registration are host
  framework plumbing. A handler's `updated` result stands for the state
  write.
- `set_volume_level` (`media_player.py:254-256`) is floating-point arithmetic
  on the stored volume, and it ignores its argument. It is not modelled.
- MediaPlayer.DenonNetworkMediaPlayer.VolumeReceived: the volume is the exact
  ratio `(level - min) / (max - min)` kept as numerator and denominator.
  Python's float rounding is not modelled.
- Light.BrightnessOf and Light.LevelFor are computed in exact rational
  arithmetic, then truncated toward zero. Python computes a float, which can
  differ by rounding where the exact value is within one float step of an
  integer.
- Strings.IsNumeric accepts only ASCII digits, and Strings.Lower folds only
  ASCII letters. Python's Unicode numerics and case mapping are not modelled.
- Entity construction defects are not modelled:
  - `switch.py:78-87` and `switch.py:93-102` call the switch constructor with
    eight arguments where it takes seven, and pass the icon in the zone's
    position.
  - `light.py:113` does the same.
  - `light.py:115`, `light.py:136` and `light.py:139` read `on_command` and
    `off_command`, which are never set; the base class stores
    `_on_command`/`_off_command`.

  Python's argument binding and attribute lookup fail on these before any
  handler runs. The entities are instead built from their configuration by
  name, and the light's handler uses the configured on and off commands.
- Switch.DenonNetworkSwitch.ClientDataReceived is modelled as written.
  Because its key is lower case, it never fires for any update the client
  makes (`Switch.SourceListenerKeyNeverDecoded`). The upper-case key it
  evidently wanted is not substituted.
- TcpClient.DenonTcpClient.SetZoneState keeps the `key == 'ON' or key == 'OFF'`
  test as written. For the zone keys `parse` passes, the test never holds
  (`Protocol.ZoneKeysSingleUpdate`).

## Findings

| source | as written | input that shows it | evidently intended | confidence | as-written member | corrected member |
|---|---|---|---|---|---|---|
| denon_tcp_client.py:68-69 | After matching the five-letter `MVMAX`, the value is cut with `data[4:]`. It keeps the `X`, so it is never numeric. The copy at `sensor.py:219-220` is the same. | `MVMAX55` stores `ZONE1_VOL_MAX = X55`. | `data[5:]`, storing `55`. | high; not executed | Protocol.MaxVolumeValueAsWritten, used by Protocol.Decode and TcpClient.DenonTcpClient.Parse (with Protocol.MaxVolumeAsWrittenExample) | Protocol.MaxVolumeValue, used by Protocol.DecodeIntended (with Protocol.DecodeIntendedIsFirstMatch and Protocol.MaxVolumeBeforeVolume) |
| media_player.py:198-199 | The volume branch tests `vol_prefix` but cuts the remainder at `len(source_prefix)`. | Volume prefix `MV`, source prefix `SIN`, token `MV50`: the level read is `0`. | Cut at `len(vol_prefix)`, reading `50`. | medium (no effect while the two prefixes have equal length, as `SI`/`MV` and `Z2`/`Z2` do); not executed | MediaPlayer.VolumeRemainderAsWritten, used by MediaPlayer.DenonNetworkMediaPlayer.ClientRawDataReceived (with MediaPlayer.VolumeRemainderAsWrittenExample and MediaPlayer.VolumeRemainderAgreement) | MediaPlayer.VolumeRemainder, which MediaPlayer.VolumeRemainderAgreement shows the handler reads whenever the two prefixes have equal length |
