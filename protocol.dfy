/**
 * The receiver's status grammar as the client decodes it: an ordered,
 * first-match-wins prefix dispatch over one token, a zone sub-grammar for the
 * `SI`/`Z2`/`Z3` tokens, the state table the decoded updates are written to,
 * and the fixed battery of status queries.
 */
module Protocol {
  import opened Wrappers
  import opened Strings

  /** One `set_state(key, value)` call. */
  datatype Update = Update(key: string, value: string)

  /** Where a dispatch rule sends the remainder of a matching token. */
  datatype Target =
    | ZoneOf(zone: string)   // `set_zone_state(zone, remainder)`
    | Field(key: string)     // `set_state(key, remainder)`

  /** A rule tried on tokens starting with `prefix`; the remainder from position `cut` on goes to `target`. */
  datatype Rule = Rule(prefix: string, cut: nat, target: Target)

  /** The dispatch rules of `parse` as written, in the order they are tried (`MVMAX` is cut at 4). */
  const Dispatch: seq<Rule> := [
    Rule("SI", 2, ZoneOf("ZONE1")),
    Rule("Z2", 2, ZoneOf("ZONE2")),
    Rule("Z3", 2, ZoneOf("ZONE3")),
    Rule("MVMAX", 4, Field("ZONE1_VOL_MAX")),
    Rule("MV", 2, Field("ZONE1_VOL")),
    Rule("MU", 2, Field("ZONE1_MUTE")),
    Rule("ZM", 2, Field("ZONE1")),
    Rule("SV", 2, Field("VIDEO_SELECT"))
  ]

  /** The same table with the `MVMAX` rule cut after its whole prefix. */
  const DispatchIntended: seq<Rule> := Dispatch[3 := Rule("MVMAX", 5, Field("ZONE1_VOL_MAX"))]

  /** Every key `parse` can write. */
  const StoredKeys: set<string> := {
    "ZONE1_MUTE", "ZONE1_VOL", "ZONE1_SOURCE", "ZONE2_MUTE", "ZONE2_VOL", "ZONE2_SOURCE",
    "ZONE3_MUTE", "ZONE3_VOL", "ZONE3_SOURCE", "ZONE1_VOL_MAX", "ZONE1", "VIDEO_SELECT"
  }

  /** The queries `request_status` sends, each terminated by a carriage return. */
  const StatusQueries: seq<string> := [
    "SI?\r", "MV?\r", "ZM?\r", "MU?\r", "Z2?\r", "Z2MU?\r", "Z3?\r", "Z3MU?\r"
  ]

  // ---------------------------------------------------------------------------
  // Zone sub-grammar (`set_zone_state`)
  // ---------------------------------------------------------------------------

  predicate IsZoneKey(key: string) {
    key == "ZONE1" || key == "ZONE2" || key == "ZONE3"
  }

  /** The one update of the second `if` chain: mute, numeric volume, or source. */
  function ZoneField(key: string, state: string): Update {
    if state == "MUON" || state == "MUOFF" then Update(key + "_MUTE", state[2..])
    else if IsNumeric(state) then Update(key + "_VOL", state)
    else Update(key + "_SOURCE", state)
  }

  /**
   * The updates of `set_zone_state(key, state)` in call order. The first test
   * compares the KEY with `ON`/`OFF`, and is not chained to the second.
   */
  function ZoneUpdates(key: string, state: string): seq<Update> {
    (if key == "ON" || key == "OFF" then [Update(key, state)] else [])
      + [ZoneField(key, state)]
  }

  /** `MUON`/`MUOFF` store `ON`/`OFF` under `<key>_MUTE`; digits go to `<key>_VOL`; the rest to `<key>_SOURCE`. */
  lemma ZoneFieldCases(key: string, state: string)
    ensures state == "MUON" ==> ZoneField(key, state) == Update(key + "_MUTE", "ON")
    ensures state == "MUOFF" ==> ZoneField(key, state) == Update(key + "_MUTE", "OFF")
    ensures state != "MUON" && state != "MUOFF" && IsNumeric(state) ==>
              ZoneField(key, state) == Update(key + "_VOL", state)
    ensures state != "MUON" && state != "MUOFF" && !IsNumeric(state) ==>
              ZoneField(key, state) == Update(key + "_SOURCE", state)
  {
  }

  /** For the zone keys `parse` passes, the `key == 'ON'` test never holds: one update. */
  lemma ZoneKeysSingleUpdate(key: string, state: string)
    requires IsZoneKey(key)
    ensures ZoneUpdates(key, state) == [ZoneField(key, state)]
  {
  }

  // ---------------------------------------------------------------------------
  // Max volume (the slice of the `MVMAX` branch)
  // ---------------------------------------------------------------------------

  /** The value after the five-character prefix `MVMAX`. */
  function MaxVolumeValue(token: string): (v: string)
    requires "MVMAX" <= token
    ensures "MVMAX" + v == token
  {
    token[5..]
  }

  /**
   * The value the `MVMAX` branch stores as written, `data[4:]`: it keeps the
   * prefix's last letter, so it is never a number.
   */
  function MaxVolumeValueAsWritten(token: string): (v: string)
    requires "MVMAX" <= token
    ensures v == "X" + MaxVolumeValue(token)
    ensures !IsNumeric(v)
  {
    assert token[4] == "MVMAX"[4];
    token[4..]
  }

  /** A concrete max-volume report, decoded as written and as intended. */
  lemma MaxVolumeAsWrittenExample()
    ensures MaxVolumeValueAsWritten("MVMAX55") == "X55"
    ensures MaxVolumeValue("MVMAX55") == "55" && IsNumeric("55")
  {
  }

  // ---------------------------------------------------------------------------
  // Dispatch (`parse`)
  // ---------------------------------------------------------------------------

  /** The updates `parse(token)` makes as written, in call order: `MVMAX` keeps `data[4:]`. */
  function Decode(token: string): (r: seq<Update>)
    ensures |r| <= 1
  {
    if "SI" <= token then ZoneUpdates("ZONE1", token[2..])
    else if "Z2" <= token then ZoneUpdates("ZONE2", token[2..])
    else if "Z3" <= token then ZoneUpdates("ZONE3", token[2..])
    else if "MVMAX" <= token then [Update("ZONE1_VOL_MAX", MaxVolumeValueAsWritten(token))]
    else if "MV" <= token then [Update("ZONE1_VOL", token[2..])]
    else if "MU" <= token then [Update("ZONE1_MUTE", token[2..])]
    else if "ZM" <= token then [Update("ZONE1", token[2..])]
    else if "SV" <= token then [Update("VIDEO_SELECT", token[2..])]
    else []
  }

  /** The evidently intended `parse`: the same, except that `MVMAX` stores `data[5:]`. */
  function DecodeIntended(token: string): (r: seq<Update>)
    ensures |r| <= 1
  {
    if "MVMAX" <= token then [Update("ZONE1_VOL_MAX", MaxVolumeValue(token))] else Decode(token)
  }

  /** The index of the first rule from `from` on whose prefix starts `token`. */
  function FirstMatch(rules: seq<Rule>, token: string, from: nat): (r: Option<nat>)
    requires from <= |rules|
    ensures r.Some? ==> from <= r.value < |rules| && rules[r.value].prefix <= token
    ensures r.Some? ==> forall j :: from <= j < r.value ==> !(rules[j].prefix <= token)
    ensures r.None? ==> forall j :: from <= j < |rules| ==> !(rules[j].prefix <= token)
    decreases |rules| - from
  {
    if from == |rules| then None
    else if rules[from].prefix <= token then Some(from)
    else FirstMatch(rules, token, from + 1)
  }

  /** A rule never cuts past its own prefix. */
  predicate WellCut(rules: seq<Rule>) {
    forall i :: 0 <= i < |rules| ==> rules[i].cut <= |rules[i].prefix|
  }

  /** What a rule does with a token it matches: the remainder from its cut goes to its target. */
  function ApplyRule(rule: Rule, token: string): seq<Update>
    requires rule.prefix <= token && rule.cut <= |rule.prefix|
  {
    var rest := token[rule.cut..];
    match rule.target
    case ZoneOf(zone) => ZoneUpdates(zone, rest)
    case Field(key) => [Update(key, rest)]
  }

  /** The dispatch read off a rule table: the first matching rule wins, no match means no update. */
  function DecodeByTable(rules: seq<Rule>, token: string): seq<Update>
    requires WellCut(rules)
  {
    match FirstMatch(rules, token, 0)
    case None => []
    case Some(i) => ApplyRule(rules[i], token)
  }

  /** `parse` is first-match-wins over `Dispatch`, in the table's order. */
  lemma DecodeIsFirstMatch(token: string)
    ensures WellCut(Dispatch)
    ensures Decode(token) == DecodeByTable(Dispatch, token)
  {
    var r := FirstMatch(Dispatch, token, 0);
    var n := if "SI" <= token then 0
      else if "Z2" <= token then 1
      else if "Z3" <= token then 2
      else if "MVMAX" <= token then 3
      else if "MV" <= token then 4
      else if "MU" <= token then 5
      else if "ZM" <= token then 6
      else if "SV" <= token then 7
      else 8;
    forall j | 0 <= j < n ensures !(Dispatch[j].prefix <= token) {
    }
    if n < 8 {
      assert Dispatch[n].prefix <= token;
      assert r == Some(n);
    } else {
      assert r == None;
    }
  }

  /** Two tables with the same prefixes match a token at the same rule. */
  lemma {:induction false} FirstMatchPrefixesOnly(rules: seq<Rule>, others: seq<Rule>, token: string, from: nat)
    requires |rules| == |others| && from <= |rules|
    requires forall i :: 0 <= i < |rules| ==> rules[i].prefix == others[i].prefix
    ensures FirstMatch(rules, token, from) == FirstMatch(others, token, from)
    decreases |rules| - from
  {
    if from < |rules| {
      FirstMatchPrefixesOnly(rules, others, token, from + 1);
    }
  }

  /** The intended `parse` is first-match-wins over `DispatchIntended`. */
  lemma DecodeIntendedIsFirstMatch(token: string)
    ensures WellCut(DispatchIntended)
    ensures DecodeIntended(token) == DecodeByTable(DispatchIntended, token)
  {
    DecodeIsFirstMatch(token);
    FirstMatchPrefixesOnly(Dispatch, DispatchIntended, token, 0);
    if "MVMAX" <= token {
      assert token[0] == 'M' && token[1] == 'V';
    }
  }

  /** A token none of whose prefixes is in the table updates nothing. */
  lemma UnknownTokenIgnored(token: string)
    requires forall i :: 0 <= i < |Dispatch| ==> !(Dispatch[i].prefix <= token)
    ensures Decode(token) == [] && DecodeIntended(token) == []
  {
    DecodeIsFirstMatch(token);
    assert !("MVMAX" <= token);
  }

  /**
   * `MVMAX` is tried before `MV`: a max-volume token sets `ZONE1_VOL_MAX` and
   * never `ZONE1_VOL`; as written it stores `data[4:]`, as intended `data[5:]`.
   */
  lemma MaxVolumeBeforeVolume(token: string)
    requires "MVMAX" <= token
    ensures Decode(token) == [Update("ZONE1_VOL_MAX", MaxVolumeValueAsWritten(token))]
    ensures DecodeIntended(token) == [Update("ZONE1_VOL_MAX", MaxVolumeValue(token))]
    ensures forall u :: u in Decode(token) + DecodeIntended(token) ==> u.key != "ZONE1_VOL"
  {
    assert token[0] == 'M' && token[1] == 'V';
  }

  /** The two versions of `parse` differ only on max-volume tokens. */
  lemma DecodeIntendedDiffersOnlyOnMaxVolume(token: string)
    ensures !("MVMAX" <= token) ==> DecodeIntended(token) == Decode(token)
    ensures "MVMAX" <= token ==> DecodeIntended(token) != Decode(token)
  {
    if "MVMAX" <= token {
      MaxVolumeBeforeVolume(token);
      assert Decode(token)[0].value != DecodeIntended(token)[0].value;
    }
  }

  /** Only a `ZM` token writes the `ZONE1` key (the zone-1 power state). */
  lemma OnlyPowerTokenSetsZone1(token: string)
    ensures (exists u :: u in Decode(token) && u.key == "ZONE1") <==> "ZM" <= token
    ensures "ZM" <= token ==> Decode(token) == [Update("ZONE1", token[2..])]
  {
    if "ZM" <= token {
      assert token[0] == 'Z' && token[1] == 'M';
      assert Decode(token) == [Update("ZONE1", token[2..])];
    } else {
      forall u | u in Decode(token) ensures u.key != "ZONE1" {
        if "SI" <= token || "Z2" <= token || "Z3" <= token {
          assert |u.key| > 5;
        }
      }
    }
  }

  /** A token made of a zone prefix and a state is decoded by that zone's sub-grammar. */
  lemma ZoneTokenDecodes(prefix: string, zone: string, state: string)
    requires (prefix == "SI" && zone == "ZONE1") || (prefix == "Z2" && zone == "ZONE2")
          || (prefix == "Z3" && zone == "ZONE3")
    ensures Decode(prefix + state) == ZoneUpdates(zone, state)
  {
    var token := prefix + state;
    assert token[..2] == prefix && token[2..] == state;
    assert token[0] == prefix[0] && token[1] == prefix[1];
  }

  /**
   * `parse` sees a whole received chunk, its carriage return included: a zone
   * report then ends in `\r`, is never numeric, and is stored as the zone's source.
   */
  lemma TerminatedZoneReportIsSource(prefix: string, zone: string, state: string)
    requires (prefix == "SI" && zone == "ZONE1") || (prefix == "Z2" && zone == "ZONE2")
          || (prefix == "Z3" && zone == "ZONE3")
    ensures Decode(prefix + (state + "\r")) == [Update(zone + "_SOURCE", state + "\r")]
  {
    var s := state + "\r";
    ZoneTokenDecodes(prefix, zone, s);
    assert s[|s| - 1] == '\r';
    assert s != "MUON" && s != "MUOFF";
  }

  /** A volume chunk keeps its terminator in the stored value; a zone-2 level is stored as a source. */
  lemma TerminatedChunkExamples()
    ensures Decode("MV50\r") == [Update("ZONE1_VOL", "50\r")]
    ensures Decode("Z250\r") == [Update("ZONE2_SOURCE", "50\r")]
  {
    var volume := "MV50\r";
    assert volume[0] == 'M' && volume[1] == 'V' && volume[2] == '5';
    assert volume[2..] == "50\r";
    TerminatedZoneReportIsSource("Z2", "ZONE2", "50");
    assert "Z2" + ("50" + "\r") == "Z250\r";
    assert "ZONE2" + "_SOURCE" == "ZONE2_SOURCE";
  }

  /** No lower-case ASCII letter occurs in `s`. */
  predicate NoLowerCase(s: string) {
    forall i :: 0 <= i < |s| ==> !('a' <= s[i] <= 'z')
  }

  /** The keys of the zone sub-grammar, for the zones `parse` passes, are stored keys. */
  lemma ZoneFieldKeyStored(key: string, state: string)
    requires IsZoneKey(key)
    ensures ZoneField(key, state).key in StoredKeys
  {
    assert key + "_MUTE" in StoredKeys && key + "_VOL" in StoredKeys && key + "_SOURCE" in StoredKeys by {
      if key == "ZONE1" {
        assert key + "_MUTE" == "ZONE1_MUTE" && key + "_VOL" == "ZONE1_VOL" && key + "_SOURCE" == "ZONE1_SOURCE";
      } else if key == "ZONE2" {
        assert key + "_MUTE" == "ZONE2_MUTE" && key + "_VOL" == "ZONE2_VOL" && key + "_SOURCE" == "ZONE2_SOURCE";
      } else {
        assert key + "_MUTE" == "ZONE3_MUTE" && key + "_VOL" == "ZONE3_VOL" && key + "_SOURCE" == "ZONE3_SOURCE";
      }
    }
  }

  /** None of the stored keys holds a lower-case letter. */
  lemma StoredKeysUpperCase()
    ensures forall k :: k in StoredKeys ==> NoLowerCase(k)
  {
  }

  /** Every key `parse` writes is one of `StoredKeys`, all of them upper case. */
  lemma DecodedKeysUpperCase(token: string)
    ensures forall u :: u in Decode(token) ==> u.key in StoredKeys && NoLowerCase(u.key)
  {
    StoredKeysUpperCase();
    if "SI" <= token {
      ZoneFieldKeyStored("ZONE1", token[2..]);
    } else if "Z2" <= token {
      ZoneFieldKeyStored("ZONE2", token[2..]);
    } else if "Z3" <= token {
      ZoneFieldKeyStored("ZONE3", token[2..]);
    }
  }

  // ---------------------------------------------------------------------------
  // State table (`states`, `get_state`)
  // ---------------------------------------------------------------------------

  /** `get_state(key)`: the stored value, or the empty string for a key never set. */
  function Lookup(states: map<string, string>, key: string): string {
    if key in states then states[key] else ""
  }

  /** The table after the updates, applied in order, each overwriting unconditionally. */
  function ApplyUpdates(states: map<string, string>, updates: seq<Update>): map<string, string>
    decreases |updates|
  {
    if updates == [] then states
    else ApplyUpdates(states[updates[0].key := updates[0].value], updates[1..])
  }

  /** The value of the last update to `key`, if any update writes it. */
  function LastWrite(updates: seq<Update>, key: string): Option<string> {
    if updates == [] then None
    else match LastWrite(updates[1..], key)
      case Some(v) => Some(v)
      case None => if updates[0].key == key then Some(updates[0].value) else None
  }

  /** Last write wins: a key holds the value of the last update to it, or keeps its old value. */
  lemma {:induction false} LookupAfterUpdates(states: map<string, string>, updates: seq<Update>, key: string)
    ensures Lookup(ApplyUpdates(states, updates), key) == LastWrite(updates, key).GetOr(Lookup(states, key))
    decreases |updates|
  {
    if updates != [] {
      LookupAfterUpdates(states[updates[0].key := updates[0].value], updates[1..], key);
    }
  }

  /** Applying two batches one after the other is applying their concatenation. */
  lemma {:induction false} ApplyUpdatesAppend(states: map<string, string>, first: seq<Update>, second: seq<Update>)
    ensures ApplyUpdates(states, first + second) == ApplyUpdates(ApplyUpdates(states, first), second)
    decreases |first|
  {
    if first != [] {
      assert (first + second)[0] == first[0];
      assert (first + second)[1..] == first[1..] + second;
      ApplyUpdatesAppend(states[first[0].key := first[0].value], first[1..], second);
    } else {
      assert first + second == second;
    }
  }
}
