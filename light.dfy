/**
 * `DenonNetworkLight`: a switch whose level is also controlled. A raw token
 * equal to the on or off command sets the state; a token made of the level
 * prefix and digits sets the brightness, scaled from the configured level
 * range `[min, max]` to `[0, 255]`. Turning it on sends the on command and,
 * when the requested brightness is new, a level command scaled back.
 */
module Light {
  import opened Wrappers
  import opened Strings
  import opened EntityState
  import opened TcpClient

  /** The attribute name brightness is published under (`ATTR_BRIGHTNESS`). */
  const BrightnessAttribute := "brightness"

  /** The brightness `turn_on` uses when none is requested. */
  const FullBrightness := 255

  /** `int(255 * (level - min) / (max - min))`: the quotient truncated toward zero. */
  function BrightnessOf(level: nat, lo: nat, hi: nat): int
    requires lo != hi
  {
    TruncDiv(255 * (level - lo), hi - lo)
  }

  /** `int(brightness * (max - min) / 255 + min)`: the level command's value. */
  function LevelFor(b: int, lo: nat, hi: nat): int {
    TruncDiv(b * (hi - lo) + 255 * lo, 255)
  }

  /** A product with a factor of at least one is at least the other factor. */
  lemma MulAtLeast(d: int, k: int)
    requires 0 < d && 1 <= k
    ensures d * k >= d
  {
  }

  /** The quotient is the only `q` with a remainder in `[0, d)`. */
  lemma DivUnique(x: int, d: int, q: int, r: int)
    requires 0 < d && 0 <= r < d && x == d * q + r
    ensures x / d == q
  {
    var q', r' := x / d, x % d;
    assert d * (q - q') == r' - r;
    if q > q' {
      MulAtLeast(d, q - q');
    } else if q < q' {
      MulAtLeast(d, q' - q);
    }
  }

  /** A whole-number quotient of a value at most `m * d` is at most `m`. */
  lemma DivAtMost(x: int, d: int, m: int)
    requires 0 <= x && 0 < d && 0 <= m && x <= m * d
    ensures x / d <= m
  {
    var q := x / d;
    assert d * q + x % d == x;
    if q > m {
      MulAtLeast(d, q - m);
    }
  }

  /** Adding a multiple of the divisor adds its factor to the quotient. */
  lemma DivShift(x: int, d: int, k: int)
    requires 0 < d
    ensures (x + d * k) / d == x / d + k
  {
    var q, r := x / d, x % d;
    assert x + d * k == d * (q + k) + r;
    DivUnique(x + d * k, d, q + k, r);
  }

  /** A level in `[min, max]` scales to a brightness in `[0, 255]`, with `min` at 0 and `max` at 255. */
  lemma BrightnessBounds(level: nat, lo: nat, hi: nat)
    requires lo < hi && lo <= level <= hi
    ensures 0 <= BrightnessOf(level, lo, hi) <= 255
    ensures level == lo ==> BrightnessOf(level, lo, hi) == 0
    ensures level == hi ==> BrightnessOf(level, lo, hi) == 255
  {
    var a, d := level - lo, hi - lo;
    assert 255 * a <= 255 * d;
    DivAtMost(255 * a, d, 255);
    if level == hi {
      DivShift(0, d, 255);
    }
  }

  /** A brightness in `[0, 255]` scales to a level in `[min, max]`, with 0 at `min` and 255 at `max`. */
  lemma LevelForBounds(b: int, lo: nat, hi: nat)
    requires lo <= hi && 0 <= b <= 255
    ensures lo <= LevelFor(b, lo, hi) <= hi
    ensures b == 0 ==> LevelFor(b, lo, hi) == lo
    ensures b == 255 ==> LevelFor(b, lo, hi) == hi
  {
    var d := hi - lo;
    assert 0 <= b * d <= 255 * d;
    DivShift(b * d, 255, lo);
    DivAtMost(b * d, 255, d);
    if b == 255 {
      DivShift(0, 255, d);
    }
  }

  /**
   * A level sent for brightness `b`, reported back by the receiver, reads as
   * a brightness no greater than `b`: the two truncations never overshoot.
   */
  lemma LevelRoundTrip(b: int, lo: nat, hi: nat)
    requires lo < hi && 0 <= b <= 255
    ensures LevelFor(b, lo, hi) >= lo
    ensures BrightnessOf(LevelFor(b, lo, hi) as nat, lo, hi) <= b
  {
    var d := hi - lo;
    LevelForBounds(b, lo, hi);
    var q := (b * d) / 255;
    DivShift(b * d, 255, lo);
    assert LevelFor(b, lo, hi) - lo == q;
    assert 255 * q <= b * d;
    DivAtMost(255 * q, d, b);
  }

  class DenonNetworkLight {
    const name: string
    const onCommand: string
    const offCommand: string
    const levelPrefix: string
    const minLevel: nat
    const maxLevel: nat
    const client: DenonTcpClient
    var state: Option<Power>
    var brightness: Option<int>
    /** `None` until the first `set_brightness`: the base constructor resets the light's `{}` to `None`. */
    var attributes: Option<map<string, int>>

    constructor (name: string, onCommand: string, offCommand: string, levelPrefix: string,
                 minLevel: nat, maxLevel: nat, client: DenonTcpClient)
      ensures this.name == name && this.onCommand == onCommand && this.offCommand == offCommand
      ensures this.levelPrefix == levelPrefix && this.minLevel == minLevel && this.maxLevel == maxLevel
      ensures this.client == client
      ensures state == None && brightness == None && attributes == None
    {
      this.name, this.onCommand, this.offCommand := name, onCommand, offCommand;
      this.levelPrefix, this.minLevel, this.maxLevel := levelPrefix, minLevel, maxLevel;
      this.client := client;
      state, brightness, attributes := None, None, None;
    }

    /** `set_brightness`: store the value and publish it as the only attribute. */
    method SetBrightness(b: int)
      modifies this`brightness, this`attributes
      ensures brightness == Some(b)
      ensures attributes == Some(map[BrightnessAttribute := b])
    {
      brightness := Some(b);
      attributes := Some(map[BrightnessAttribute := b]);
    }

    /**
     * `client_raw_data_received`: on command, then off command, then level
     * prefix. A level report that is not a number changes nothing; one that is
     * a number fails with `ZeroDivisionError` when `min == max`.
     */
    method ClientRawDataReceived(data: string) returns (updated: bool, failed: bool)
      modifies this`state, this`brightness, this`attributes
      ensures data == "" ==> !updated && !failed
      ensures data != "" && (data == onCommand || data == offCommand) ==>
                updated && !failed && state == Some(if data == onCommand then On else Off)
                && brightness == old(brightness) && attributes == old(attributes)
      ensures data != "" && data != onCommand && data != offCommand && levelPrefix <= data ==>
                var level := data[|levelPrefix|..];
                state == old(state)
                && updated == (IsNumeric(level) && minLevel != maxLevel)
                && failed == (IsNumeric(level) && minLevel == maxLevel)
                && (updated ==> brightness == Some(BrightnessOf(ValueOf(level), minLevel, maxLevel))
                                && attributes == Some(map[BrightnessAttribute := brightness.value]))
      ensures !updated ==> state == old(state) && brightness == old(brightness) && attributes == old(attributes)
      ensures !(levelPrefix <= data) && data != onCommand && data != offCommand ==> !updated && !failed
    {
      updated, failed := false, false;
      if data == "" {
        return;
      }
      if data == onCommand {
        state := Some(On);
        updated := true;
      } else if data == offCommand {
        state := Some(Off);
        updated := true;
      } else if levelPrefix <= data {
        var level := data[|levelPrefix|..];
        if IsNumeric(level) {
          if maxLevel == minLevel {
            failed := true;
            return;
          }
          SetBrightness(BrightnessOf(ValueOf(level), minLevel, maxLevel));
          updated := true;
        }
      }
    }

    /** The level command for a brightness: the level prefix, then the scaled level in decimal. */
    function LevelCommand(b: int): (command: string)
      ensures levelPrefix <= command
    {
      levelPrefix + IntToString(LevelFor(b, minLevel, maxLevel))
    }

    /**
     * For a valid brightness the level command carries a decimal number within
     * `[min, max]`, which the level branch reads back as that level.
     */
    lemma LevelCommandInRange(b: int)
      requires 0 <= b <= 255 && minLevel <= maxLevel
      ensures IsNumeric(LevelCommand(b)[|levelPrefix|..])
      ensures minLevel <= ValueOf(LevelCommand(b)[|levelPrefix|..]) == LevelFor(b, minLevel, maxLevel) <= maxLevel
    {
      var level := LevelFor(b, minLevel, maxLevel);
      LevelForBounds(b, minLevel, maxLevel);
      ValueOfNatToString(level as nat);
      assert LevelCommand(b)[|levelPrefix|..] == IntToString(level) == NatToString(level as nat);
    }

    /**
     * `turn_on`: the on command always; then, only when the requested
     * brightness (255 by default) differs from the current one, store it and
     * send the level command for it.
     */
    method TurnOn(requested: Option<int>)
      requires client.Valid()
      modifies client`written, client`queue, this`brightness, this`attributes
      ensures client.Valid()
      ensures var b := requested.GetOr(FullBrightness);
              if Some(b) != old(brightness) then
                brightness == Some(b) && attributes == Some(map[BrightnessAttribute := b])
              else
                brightness == old(brightness) && attributes == old(attributes)
      ensures var b := requested.GetOr(FullBrightness);
              var sent := [Terminated(onCommand)] + (if Some(b) != old(brightness) then [Terminated(LevelCommand(b))] else []);
              client.Outbox() == old(client.Outbox()) + sent
              && client.written == old(client.written) + (if client.connected then sent else [])
              && client.queue == old(client.queue) + (if client.connected then [] else sent)
    {
      client.Send(onCommand + "\r");
      var b := requested.GetOr(FullBrightness);
      if Some(b) != brightness {
        SetBrightness(b);
        var level := LevelFor(brightness.value, minLevel, maxLevel);
        client.Send(levelPrefix + IntToString(level) + "\r");
      }
    }

    /** `turn_off`: send the off command. */
    method TurnOff()
      requires client.Valid()
      modifies client`written, client`queue
      ensures client.Valid() && client.Outbox() == old(client.Outbox()) + [Terminated(offCommand)]
      ensures client.written == old(client.written) + (if client.connected then [Terminated(offCommand)] else [])
      ensures client.queue == old(client.queue) + (if client.connected then [] else [Terminated(offCommand)])
    {
      client.Send(offCommand + "\r");
    }
  }
}
