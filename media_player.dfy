/**
 * `DenonNetworkMediaPlayer`: one receiver zone as a media player. It is
 * configured with exact power and mute commands, a volume prefix, a source
 * prefix and a dict from source names to source codes; it reads raw tokens
 * from the shared client and sends its commands through it.
 */
module MediaPlayer {
  import opened Wrappers
  import opened Strings
  import opened OrderedDict
  import opened EntityState
  import opened TcpClient

  // ---------------------------------------------------------------------------
  // Source dicts (`async_setup_platform`)
  // ---------------------------------------------------------------------------

  /**
   * The `for source_config in ...: d[name] = source` loop over an empty dict:
   * later entries with the same name overwrite earlier ones in place.
   */
  method BuildSources(configs: seq<(string, string)>) returns (d: Dict)
    ensures d == FromEntries(configs)
    ensures Distinct(Keys(d))
    ensures forall k :: Get(d, k) == LastValue(configs, k)
  {
    d := [];
    var i := 0;
    while i < |configs|
      invariant 0 <= i <= |configs|
      invariant d == FromEntries(configs[..i])
    {
      assert configs[..i + 1][..i] == configs[..i];
      d := Put(d, configs[i].0, configs[i].1);
      i := i + 1;
    }
    assert configs[..i] == configs;
    FromEntriesDistinct(configs);
    forall k ensures Get(d, k) == LastValue(configs, k) {
      FromEntriesLastWins(configs, k);
    }
  }

  /** A zone configured with no sources shares the platform's dict; otherwise it builds its own. */
  method ZoneSources(platform: Dict, zoneConfigs: seq<(string, string)>) returns (d: Dict)
    ensures zoneConfigs == [] ==> d == platform
    ensures zoneConfigs != [] ==> d == FromEntries(zoneConfigs)
    ensures zoneConfigs != [] ==> forall k :: k in Keys(d) <==> k in Keys(zoneConfigs)
  {
    if |zoneConfigs| == 0 {
      d := platform;
    } else {
      d := BuildSources(zoneConfigs);
      forall k ensures k in Keys(d) <==> k in Keys(zoneConfigs) {
        FromEntriesKeys(zoneConfigs, k);
      }
    }
  }

  // ---------------------------------------------------------------------------
  // Source lookup (the `for source in self._sources` loop)
  // ---------------------------------------------------------------------------

  /** The first position from `from` on whose code is `code` and whose name is not the current source. */
  function SourceIndex(sources: Dict, code: string, current: Option<string>, from: nat): (r: Option<nat>)
    requires from <= |sources|
    ensures r.Some? ==> from <= r.value < |sources|
    ensures r.Some? ==> sources[r.value].1 == code && Some(sources[r.value].0) != current
    ensures r.Some? ==> forall j :: from <= j < r.value ==> sources[j].1 != code || Some(sources[j].0) == current
    ensures r.None? ==> forall j :: from <= j < |sources| ==> sources[j].1 != code || Some(sources[j].0) == current
    decreases |sources| - from
  {
    if from == |sources| then None
    else if sources[from].1 == code && Some(sources[from].0) != current then Some(from)
    else SourceIndex(sources, code, current, from + 1)
  }

  /** The source the loop selects, in dict iteration order, if any. */
  function FirstSource(sources: Dict, code: string, current: Option<string>): Option<string> {
    match SourceIndex(sources, code, current, 0)
    case Some(i) => Some(sources[i].0)
    case None => None
  }

  /** A selected source has the reported code and is not the current source; none is selected only when no such source exists. */
  lemma FirstSourceMeaning(sources: Dict, code: string, current: Option<string>)
    ensures FirstSource(sources, code, current).Some? ==>
              (FirstSource(sources, code, current).value, code) in sources
              && FirstSource(sources, code, current) != current
    ensures FirstSource(sources, code, current).None? <==>
              forall j :: 0 <= j < |sources| ==> sources[j].1 != code || Some(sources[j].0) == current
  {
    var r := SourceIndex(sources, code, current, 0);
    if r.Some? {
      assert sources[r.value] in sources;
    }
  }

  /**
   * With distinct codes, a report of a configured source's code selects that
   * source, unless it is already the current one.
   */
  lemma FirstSourceSelectsConfigured(sources: Dict, name: string, code: string, current: Option<string>)
    requires forall i, j :: 0 <= i < j < |sources| ==> sources[i].1 != sources[j].1
    requires (name, code) in sources && Some(name) != current
    ensures FirstSource(sources, code, current) == Some(name)
  {
    var k :| 0 <= k < |sources| && sources[k] == (name, code);
    var r := SourceIndex(sources, code, current, 0);
    assert r.Some? && r.value <= k;
  }

  /** The loop over the dict: stop at the first source with the code that is not the current one. */
  method FindSource(sources: Dict, code: string, current: Option<string>) returns (found: Option<string>)
    ensures found == FirstSource(sources, code, current)
  {
    found := None;
    var i := 0;
    while i < |sources|
      invariant 0 <= i <= |sources|
      invariant SourceIndex(sources, code, current, 0) == SourceIndex(sources, code, current, i)
    {
      if sources[i].1 == code && Some(sources[i].0) != current {
        found := Some(sources[i].0);
        return;
      }
      i := i + 1;
    }
  }

  // ---------------------------------------------------------------------------
  // The volume branch's slice
  // ---------------------------------------------------------------------------

  /** Python's `s[n:]`: empty once `n` is past the end. */
  function SliceFrom(s: string, n: nat): (r: string)
    ensures n <= |s| ==> s == s[..n] + r
    ensures n > |s| ==> r == ""
  {
    if n <= |s| then s[n..] else ""
  }

  /** The volume branch as written: the remainder is cut at the length of the SOURCE prefix. */
  function VolumeRemainderAsWritten(data: string, sourcePrefix: string): (r: string)
    ensures |sourcePrefix| <= |data| ==> data == data[..|sourcePrefix|] + r
    ensures |sourcePrefix| > |data| ==> r == ""
  {
    SliceFrom(data, |sourcePrefix|)
  }

  /** The remainder after the volume prefix the branch has just matched. */
  function VolumeRemainder(data: string, volPrefix: string): (r: string)
    requires volPrefix <= data
    ensures volPrefix + r == data
  {
    data[|volPrefix|..]
  }

  /**
   * The two cuts agree when the prefixes have the same length; when the
   * source prefix fits in the token and the lengths differ, they disagree.
   */
  lemma VolumeRemainderAgreement(data: string, volPrefix: string, sourcePrefix: string)
    requires volPrefix <= data
    ensures |sourcePrefix| == |volPrefix| ==>
              VolumeRemainderAsWritten(data, sourcePrefix) == VolumeRemainder(data, volPrefix)
    ensures |sourcePrefix| <= |data| && |sourcePrefix| != |volPrefix| ==>
              VolumeRemainderAsWritten(data, sourcePrefix) != VolumeRemainder(data, volPrefix)
  {
  }

  /** With volume prefix `MV` and source prefix `SIN`, the report `MV50` keeps only `0` as written. */
  lemma VolumeRemainderAsWrittenExample()
    ensures VolumeRemainderAsWritten("MV50", "SIN") == "0"
    ensures VolumeRemainder("MV50", "MV") == "50"
  {
  }

  // ---------------------------------------------------------------------------
  // The entity
  // ---------------------------------------------------------------------------

  /** The exact value of `(level - min) / (max - min)`, kept as numerator and denominator. */
  datatype Ratio = Ratio(num: int, den: int)

  /** Which branch of `client_raw_data_received` a token takes. */
  datatype RawBranch = Empty | PowerOn | PowerOff | MuteOn | MuteOff | VolumeReport | SourceReport | NoMatch

  class DenonNetworkMediaPlayer {
    const name: string
    const onCommand: string
    const offCommand: string
    const muteOnCommand: string
    const muteOffCommand: string
    const volUpCommand: string
    const volDownCommand: string
    const volPrefix: string
    const sourcePrefix: string
    const minLevel: nat
    const maxLevel: nat
    const sources: Dict
    const client: DenonTcpClient
    var sourceList: seq<string>
    var state: Option<Power>
    var volume: Option<Ratio>
    var mute: Option<bool>
    var source: Option<string>

    /** `__init__`: nothing is known yet; the source list holds the dict's names in iteration order. */
    constructor (name: string, onCommand: string, offCommand: string,
                 muteOnCommand: string, muteOffCommand: string,
                 volUpCommand: string, volDownCommand: string,
                 volPrefix: string, sourcePrefix: string,
                 minLevel: nat, maxLevel: nat, sources: Dict, client: DenonTcpClient)
      requires Distinct(Keys(sources))
      ensures this.name == name && this.onCommand == onCommand && this.offCommand == offCommand
      ensures this.muteOnCommand == muteOnCommand && this.muteOffCommand == muteOffCommand
      ensures this.volUpCommand == volUpCommand && this.volDownCommand == volDownCommand
      ensures this.volPrefix == volPrefix && this.sourcePrefix == sourcePrefix
      ensures this.minLevel == minLevel && this.maxLevel == maxLevel
      ensures this.sources == sources && this.client == client
      ensures sourceList == Keys(sources) && Distinct(sourceList)
      ensures state == None && volume == None && mute == None && source == None
    {
      this.name, this.onCommand, this.offCommand := name, onCommand, offCommand;
      this.muteOnCommand, this.muteOffCommand := muteOnCommand, muteOffCommand;
      this.volUpCommand, this.volDownCommand := volUpCommand, volDownCommand;
      this.volPrefix, this.sourcePrefix := volPrefix, sourcePrefix;
      this.minLevel, this.maxLevel := minLevel, maxLevel;
      this.sources, this.client := sources, client;
      state, volume, mute, source := None, None, None, None;
      var names := [];
      var i := 0;
      while i < |sources|
        invariant 0 <= i <= |sources|
        invariant names == Keys(sources[..i])
      {
        KeysAppend(sources[..i], sources[i]);
        assert sources[..i + 1] == sources[..i] + [sources[i]];
        names := names + [sources[i].0];
        i := i + 1;
      }
      assert sources[..i] == sources;
      sourceList := names;
    }

    /**
     * The branch a token takes: the exact commands in order, then the volume
     * prefix, then the source prefix (whose `updated == False` test always
     * holds, since no earlier branch was taken).
     */
    function Branch(data: string): RawBranch {
      if data == "" then Empty
      else if data == onCommand then PowerOn
      else if data == offCommand then PowerOff
      else if data == muteOnCommand then MuteOn
      else if data == muteOffCommand then MuteOff
      else if volPrefix <= data then VolumeReport
      else if sourcePrefix <= data then SourceReport
      else NoMatch
    }

    /** An exact command wins over both prefixes, and a volume-prefixed token never reaches the source lookup. */
    lemma BranchPrecedence(data: string)
      ensures data != "" && data in [onCommand, offCommand, muteOnCommand, muteOffCommand] ==>
                Branch(data) in {PowerOn, PowerOff, MuteOn, MuteOff}
      ensures Branch(data) == SourceReport ==> sourcePrefix <= data && !(volPrefix <= data)
      ensures Branch(data) == VolumeReport ==> volPrefix <= data
      ensures Branch(data) == NoMatch ==> !(volPrefix <= data) && !(sourcePrefix <= data)
    {
    }

    /**
     * When the volume prefix starts the source prefix (a zone using `Z2` for
     * both), no token ever reaches the source lookup.
     */
    lemma SharedPrefixHidesSource(data: string)
      requires volPrefix <= sourcePrefix
      ensures Branch(data) != SourceReport
    {
      if sourcePrefix <= data {
        assert data[..|volPrefix|] == sourcePrefix[..|volPrefix|];
      }
    }

    /** The volume branch after its prefix: a numeric level sets the volume, scaled to `[min, max]`. */
    method VolumeReceived(raw: string) returns (updated: bool, failed: bool)
      modifies this`volume
      ensures updated == (IsNumeric(raw) && minLevel != maxLevel)
      ensures failed == (IsNumeric(raw) && minLevel == maxLevel)
      ensures volume == if updated then Some(Ratio(ValueOf(raw) - minLevel, maxLevel - minLevel)) else old(volume)
    {
      updated, failed := false, false;
      if IsNumeric(raw) {
        if maxLevel == minLevel {
          failed := true;
          return;
        }
        volume := Some(Ratio(ValueOf(raw) - minLevel, maxLevel - minLevel));
        updated := true;
      }
    }

    /** The source branch after its prefix: select the first other source with the reported code. */
    method SourceReceived(code: string) returns (updated: bool)
      modifies this`source
      ensures updated == FirstSource(sources, code, old(source)).Some?
      ensures source == if updated then FirstSource(sources, code, old(source)) else old(source)
    {
      updated := false;
      var found := FindSource(sources, code, source);
      if found.Some? {
        source := found;
        updated := true;
      }
    }

    /**
     * `client_raw_data_received` as written: `updated` is whether the entity
     * changed and would write its state; `failed` is the `ZeroDivisionError` of
     * a numeric volume report when `min == max`. The volume branch cuts its
     * level at the length of the source prefix.
     */
    method ClientRawDataReceived(data: string) returns (updated: bool, failed: bool)
      modifies this`state, this`volume, this`mute, this`source
      ensures Branch(data) == Empty || Branch(data) == NoMatch ==>
                !updated && !failed && state == old(state) && volume == old(volume)
                && mute == old(mute) && source == old(source)
      ensures Branch(data) == PowerOn || Branch(data) == PowerOff ==>
                updated && !failed && state == Some(if Branch(data) == PowerOn then On else Off)
                && volume == old(volume) && mute == old(mute) && source == old(source)
      ensures Branch(data) == MuteOn || Branch(data) == MuteOff ==>
                updated && !failed && mute == Some(Branch(data) == MuteOn)
                && state == old(state) && volume == old(volume) && source == old(source)
      ensures Branch(data) == VolumeReport ==>
                var raw := VolumeRemainderAsWritten(data, sourcePrefix);
                state == old(state) && mute == old(mute) && source == old(source)
                && updated == (IsNumeric(raw) && minLevel != maxLevel)
                && failed == (IsNumeric(raw) && minLevel == maxLevel)
                && volume == (if updated then Some(Ratio(ValueOf(raw) - minLevel, maxLevel - minLevel))
                              else old(volume))
      ensures Branch(data) == SourceReport ==>
                var selected := FirstSource(sources, data[|sourcePrefix|..], old(source));
                !failed && updated == selected.Some?
                && source == (if updated then selected else old(source))
                && state == old(state) && volume == old(volume) && mute == old(mute)
    {
      updated, failed := false, false;
      match Branch(data)
      case Empty =>
      case PowerOn =>
        state := Some(On);
        updated := true;
      case PowerOff =>
        state := Some(Off);
        updated := true;
      case MuteOn =>
        mute := Some(true);
        updated := true;
      case MuteOff =>
        mute := Some(false);
        updated := true;
      case VolumeReport =>
        updated, failed := VolumeReceived(VolumeRemainderAsWritten(data, sourcePrefix));
      case SourceReport =>
        updated := SourceReceived(data[|sourcePrefix|..]);
      case NoMatch =>
    }

    /** `turn_on`: send the on command. */
    method TurnOn()
      requires client.Valid()
      modifies client`written, client`queue
      ensures client.Valid() && client.Outbox() == old(client.Outbox()) + [Terminated(onCommand)]
      ensures client.written == old(client.written) + (if client.connected then [Terminated(onCommand)] else [])
      ensures client.queue == old(client.queue) + (if client.connected then [] else [Terminated(onCommand)])
    {
      client.Send(onCommand + "\r");
    }

    /** `turn_off`: send the off command. */
    method TurnOff()
      requires client.Valid()
      modifies client`written, client`queue
      ensures client.Valid() && client.Outbox() == old(client.Outbox()) + [Terminated(offCommand)]
      ensures client.written == old(client.written) + (if client.connected then [Terminated(offCommand)] else [])
      ensures client.queue == old(client.queue) + (if client.connected then [] else [Terminated(offCommand)])
    {
      client.Send(offCommand + "\r");
    }

    /** `volume_up`: send the volume-up command. */
    method VolumeUp()
      requires client.Valid()
      modifies client`written, client`queue
      ensures client.Valid() && client.Outbox() == old(client.Outbox()) + [Terminated(volUpCommand)]
      ensures client.written == old(client.written) + (if client.connected then [Terminated(volUpCommand)] else [])
      ensures client.queue == old(client.queue) + (if client.connected then [] else [Terminated(volUpCommand)])
    {
      client.Send(volUpCommand + "\r");
    }

    /** `volume_down`: send the volume-down command. */
    method VolumeDown()
      requires client.Valid()
      modifies client`written, client`queue
      ensures client.Valid() && client.Outbox() == old(client.Outbox()) + [Terminated(volDownCommand)]
      ensures client.written == old(client.written) + (if client.connected then [Terminated(volDownCommand)] else [])
      ensures client.queue == old(client.queue) + (if client.connected then [] else [Terminated(volDownCommand)])
    {
      client.Send(volDownCommand + "\r");
    }

    /** `mute_volume`: the mute-on command for `True`, the mute-off command otherwise. */
    method MuteVolume(muted: bool)
      requires client.Valid()
      modifies client`written, client`queue
      ensures client.Valid()
      ensures var payload := Terminated(if muted then muteOnCommand else muteOffCommand);
              client.Outbox() == old(client.Outbox()) + [payload]
              && client.written == old(client.written) + (if client.connected then [payload] else [])
              && client.queue == old(client.queue) + (if client.connected then [] else [payload])
    {
      if muted {
        client.Send(muteOnCommand + "\r");
      } else {
        client.Send(muteOffCommand + "\r");
      }
    }

    /** The command `select_source` sends for a name: the source prefix, then the name's code or `?`. */
    function SelectSourceCommand(sourceName: string): (command: string)
      ensures sourcePrefix <= command
      ensures sourceName !in Keys(sources) ==> command[|sourcePrefix|..] == "?"
      ensures sourceName in Keys(sources) ==> (sourceName, command[|sourcePrefix|..]) in sources
    {
      sourcePrefix + Get(sources, sourceName).GetOr("?")
    }

    /** `select_source`: send the selection command, terminated. */
    method SelectSource(sourceName: string)
      requires client.Valid()
      modifies client`written, client`queue
      ensures client.Valid()
      ensures var payload := Terminated(SelectSourceCommand(sourceName));
              client.Outbox() == old(client.Outbox()) + [payload]
              && client.written == old(client.written) + (if client.connected then [payload] else [])
              && client.queue == old(client.queue) + (if client.connected then [] else [payload])
    {
      var code := if sourceName in Keys(sources) then Get(sources, sourceName).value else "?";
      client.Send(sourcePrefix + code + "\r");
    }

    /**
     * The receiver's echo of a selection picks the selected source back up:
     * with distinct codes, the code in `select_source`'s command names that
     * source to the lookup of the source branch.
     */
    lemma SelectSourceEcho(sourceName: string, current: Option<string>)
      requires forall i, j :: 0 <= i < j < |sources| ==> sources[i].1 != sources[j].1
      requires sourceName in Keys(sources) && Some(sourceName) != current
      ensures FirstSource(sources, SelectSourceCommand(sourceName)[|sourcePrefix|..], current) == Some(sourceName)
    {
      FirstSourceSelectsConfigured(sources, sourceName, SelectSourceCommand(sourceName)[|sourcePrefix|..], current);
    }
  }
}
