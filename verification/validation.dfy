/**
 * The parameter validator: which parameter names a `setParameter` or
 * `getParameter` call may use, and which values `setParameter` may send for
 * each of them. Validation happens before anything is written to the reader.
 */
module Validation {
  import opened Wrappers
  import opened Strings
  import opened Integers

  /** The parameters the reader understands. */
  const ValidParameters: seq<string> := ["power", "region", "interval"]

  /** The radio regions the reader can be set to. */
  const ValidRegions: seq<string> := ["CN1", "CN2", "US", "EU", "KO"]

  /** The transmit power settings, 1500 to 2600 in steps of 100. */
  const PowerSettings: seq<int> := seq(12, k => 1500 + 100 * k)

  /**
   * `isValidParameter`. A valid name is non-empty, holds neither `|` nor `:`,
   * and starts with neither `t` nor `S`, so a reply `<name>|<value>` never
   * looks like a tag or a status frame.
   */
  function IsValidParameter(name: string): (valid: bool)
    ensures valid ==> |name| > 0 && name[0] != 't' && name[0] != 'S' && ':' !in name && Bar !in name
  {
    assert name in ValidParameters ==> name == "power" || name == "region" || name == "interval";
    name in ValidParameters
  }

  /**
   * `isValidParameterValue`: power must parse as a 64-bit integer between
   * 1500 and 2600 that is a multiple of 100, region must be one of the five
   * region codes, interval must parse as a positive 64-bit integer. Every
   * other name has no valid value. (Every power value that reaches `%` is
   * positive, so Swift's truncating remainder agrees with Dafny's.)
   */
  function IsValidParameterValue(name: string, value: string): (valid: bool)
    ensures valid ==> IsValidParameter(name)
    ensures valid && name != "region" ==> ParseInt(value).Some? && ParseInt(value).value > 0
  {
    if name == "power" then
      match ParseInt(value)
      case None => false
      case Some(power) => power >= 1500 && power <= 2600 && power % 100 == 0
    else if name == "region" then
      value in ValidRegions
    else if name == "interval" then
      match ParseInt(value)
      case None => false
      case Some(interval) => interval > 0
    else
      false
  }

  /** The power values accepted are exactly those that read as one of the twelve settings. */
  lemma PowerValuesAreTheSettings(value: string)
    ensures IsValidParameterValue("power", value) <==>
              ParseInt(value).Some? && ParseInt(value).value in PowerSettings
  {
    match ParseInt(value)
    case None =>
    case Some(n) =>
      if 1500 <= n <= 2600 && n % 100 == 0 {
        var k := n / 100 - 15;
        assert 0 <= k < 12 && n == 1500 + 100 * k;
        assert PowerSettings[k] == n;
      }
      if n in PowerSettings {
        var k :| 0 <= k < 12 && PowerSettings[k] == n;
        assert n == 1500 + 100 * k;
        assert n == 100 * (k + 15);
      }
  }

  /** Each setting, written in decimal, is accepted. */
  lemma PowerSettingAccepted(k: nat)
    requires k < 12
    ensures IsValidParameterValue("power", Show(PowerSettings[k]))
  {
    ParseShow(PowerSettings[k]);
    PowerValuesAreTheSettings(Show(PowerSettings[k]));
  }

  /** A positive interval written in decimal is accepted; zero and negative ones are refused. */
  lemma IntervalAcceptsExactlyPositive(n: int)
    requires Int64Min <= n <= Int64Max
    ensures IsValidParameterValue("interval", Show(n)) <==> n > 0
  {
    ParseShow(n);
  }

  /** No valid value contains the field separator, so a set frame keeps its three fields. */
  lemma ValidValueHasNoBar(name: string, value: string)
    requires IsValidParameterValue(name, value)
    ensures Bar !in value
  {
    if name == "region" {
      assert value in ValidRegions;
    } else {
      ParseIntAlphabet(value);
    }
  }

  /** No valid value contains a colon, which every status reply of the reader contains. */
  lemma ValidValueHasNoColon(name: string, value: string)
    requires IsValidParameterValue(name, value)
    ensures ':' !in value
  {
    if name != "region" {
      ParseIntAlphabet(value);
      assert forall k | 0 <= k < |value| :: value[k] != ':';
    }
  }

  /** The boundary cases: 1500 and 2600 pass, 1550 and 2700 fail. */
  lemma PowerBoundaries()
    ensures IsValidParameterValue("power", "1500")
    ensures IsValidParameterValue("power", "2600")
    ensures !IsValidParameterValue("power", "1550")
    ensures !IsValidParameterValue("power", "2700")
  {
    ParseFourDigits("1500");
    ParseFourDigits("2600");
    ParseFourDigits("1550");
    ParseFourDigits("2700");
  }

  /** Leading zeros and a plus sign are accepted, as Swift's `Int` accepts them. */
  lemma PowerLenientSpellings()
    ensures IsValidParameterValue("power", "01500")
    ensures IsValidParameterValue("power", "+1500")
  {
    ParseFourDigits("1500");
    ParseIgnoresLeadingZero("1500");
    ParseIgnoresPlus("1500");
    assert "0" + "1500" == "01500";
    assert "+" + "1500" == "+1500";
  }

  /** An unknown name is refused before its value is looked at. */
  lemma UnknownParameterRefused()
    ensures !IsValidParameter("bogus")
    ensures forall value :: !IsValidParameterValue("bogus", value)
  {
  }
}
