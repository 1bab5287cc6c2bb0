/**
 * The speaker accessory's handlers, reduced to what they compute: the
 * HomeKit characteristic value sent to the receiver as an action value, the
 * answer read back as a characteristic value, and the conversion between a
 * 0-100 volume percentage and the receiver's volume units.
 */
module PlatformAccessory {
  import opened YamahaApi

  /** HomeKit's `Active` characteristic values. */
  const Inactive: int := 0
  const Active: int := 1

  /** HomeKit's `VolumeSelector` characteristic values. */
  const Increment: int := 0
  const Decrement: int := 1

  /** `handleMuteSet`: a muted speaker switches the receiver's mute on. */
  function MuteSetValue(muted: bool): (v: YamahaActionValue)
    ensures v == On || v == Off
    ensures v == On <==> muted
  {
    if muted then On else Off
  }

  /** `handleMuteGet`: the speaker is muted when the answer is the `On` token. */
  function MuteGetValue(answer: string): (muted: bool)
    ensures muted <==> answer == "On"
  {
    answer == Token(On)
  }

  /** `handleActiveSet`: only `Active` powers the receiver on; anything else puts it in standby. */
  function ActiveSetValue(value: int): (v: YamahaActionValue)
    ensures v == On || v == Standby
    ensures v == On <==> value == Active
  {
    if value == Active then On else Standby
  }

  /** `handleActiveGet`: `Active` when the answer is the `On` token, `Inactive` otherwise. */
  function ActiveGetValue(answer: string): (value: int)
    ensures value == Active || value == Inactive
    ensures value == Active <==> answer == "On"
  {
    if answer == Token(On) then Active else Inactive
  }

  /** `handleVolumeSelectorSet`: `Increment` steps the volume up; anything else steps it down. */
  function VolumeSelectorValue(value: int): (v: YamahaActionValue)
    ensures v == Up || v == Down
    ensures v == Up <==> value == Increment
  {
    if value == Increment then Up else Down
  }

  /** Reading back the token a mute set sends gives the mute state that was set. */
  lemma MuteRoundTrip(muted: bool)
    ensures MuteGetValue(Token(MuteSetValue(muted))) == muted
  {
    TokensDistinct(On, Off);
  }

  /** Reading back the token an active set sends gives the HomeKit value that was set. */
  lemma ActiveRoundTrip(value: int)
    requires value == Active || value == Inactive
    ensures ActiveGetValue(Token(ActiveSetValue(value))) == value
  {
    TokensDistinct(On, Standby);
  }

  /**
   * The answer the get handlers receive is the JSON text of the whole parsed
   * response document, an object; it is never the bare `On` token, so mute
   * always reads as off and the power state as inactive.
   */
  lemma DocumentAnswerReadsOff(answer: string)
    requires |answer| > 0 && answer[0] == '{'
    ensures !MuteGetValue(answer)
    ensures ActiveGetValue(answer) == Inactive
  {
    assert answer[0] != Token(On)[0];
  }

  /** `Math.round`: the nearest integer, halves rounded up. */
  function Round(x: real): (n: int)
    ensures n as real <= x + 0.5 < n as real + 1.0
  {
    (x + 0.5).Floor
  }

  /** Rounding keeps order. */
  lemma RoundMonotone(x: real, y: real)
    requires x <= y
    ensures Round(x) <= Round(y)
  {
  }

  /** Rounding an integer gives that integer. */
  lemma RoundInt(n: int)
    ensures Round(n as real) == n
  {
  }

  /**
   * The percentage `handleVolumeGet` computes, before rounding: the share of
   * the range that lies below `current`, in hundredths.
   */
  function Percentage(current: int, minVolume: int, maxVolume: int): (p: real)
    requires minVolume < maxVolume
    ensures p * (maxVolume - minVolume) as real == (current - minVolume) as real * 100.0
    ensures minVolume <= current <= maxVolume ==> 0.0 <= p <= 100.0
  {
    var span := (maxVolume - minVolume) as real;
    var share := (current - minVolume) as real / span;
    assert share * span == (current - minVolume) as real;
    assert minVolume <= current <= maxVolume ==> 0.0 <= share <= 1.0;
    share * 100.0
  }

  /** `handleVolumeGet`: the device volume as a 0-100 percentage of the range, rounded half up. */
  function VolumeFromDevice(current: int, minVolume: int, maxVolume: int): (percent: int)
    requires minVolume < maxVolume
    ensures percent as real - 0.5 <= Percentage(current, minVolume, maxVolume) < percent as real + 0.5
  {
    Round(Percentage(current, minVolume, maxVolume))
  }

  /** The ends of the range read as 0 and 100, and the range in between within 0-100. */
  lemma VolumeFromDeviceRange(current: int, minVolume: int, maxVolume: int)
    requires minVolume < maxVolume
    ensures VolumeFromDevice(minVolume, minVolume, maxVolume) == 0
    ensures VolumeFromDevice(maxVolume, minVolume, maxVolume) == 100
    ensures minVolume <= current <= maxVolume ==> 0 <= VolumeFromDevice(current, minVolume, maxVolume) <= 100
  {
    var span := (maxVolume - minVolume) as real;
    assert Percentage(minVolume, minVolume, maxVolume) == 0.0;
    assert Percentage(maxVolume, minVolume, maxVolume) == (span / span) * 100.0 == 100.0;
    RoundInt(0);
    RoundInt(100);
    if minVolume <= current <= maxVolume {
      var p := Percentage(current, minVolume, maxVolume);
      assert 0.0 <= (current - minVolume) as real / span <= 1.0;
      RoundMonotone(0.0, p);
      RoundMonotone(p, 100.0);
    }
  }

  /** A louder device volume never reads as a lower percentage. */
  lemma VolumeFromDeviceMonotone(a: int, b: int, minVolume: int, maxVolume: int)
    requires minVolume < maxVolume && a <= b
    ensures VolumeFromDevice(a, minVolume, maxVolume) <= VolumeFromDevice(b, minVolume, maxVolume)
  {
    var span := (maxVolume - minVolume) as real;
    assert (a - minVolume) as real / span <= (b - minVolume) as real / span;
    RoundMonotone(Percentage(a, minVolume, maxVolume), Percentage(b, minVolume, maxVolume));
  }

  /** The device volume a percentage stands for, before `handleVolumeSet` rounds it. */
  function DeviceLevel(percent: int, minVolume: int, maxVolume: int): (level: real)
    ensures (level - minVolume as real) * 100.0 == (maxVolume - minVolume) as real * percent as real
    ensures 0 <= percent <= 100 && minVolume <= maxVolume ==> minVolume as real <= level <= maxVolume as real
  {
    minVolume as real + (maxVolume - minVolume) as real * (percent as real / 100.0)
  }

  /**
   * `handleVolumeSet`: the device volume for a percentage, rounded to a
   * multiple of 10 (the receiver's step) and off the exact level by at most
   * half a step.
   */
  function VolumeToDevice(percent: int, minVolume: int, maxVolume: int): (device: int)
    ensures device % 10 == 0
    ensures DeviceLevel(percent, minVolume, maxVolume) - 5.0 < device as real <= DeviceLevel(percent, minVolume, maxVolume) + 5.0
  {
    Round(DeviceLevel(percent, minVolume, maxVolume) / 10.0) * 10
  }

  /** Percentage 0 sends the minimum and 100 the maximum, each rounded to a multiple of 10. */
  lemma VolumeToDeviceEnds(minVolume: int, maxVolume: int)
    ensures VolumeToDevice(0, minVolume, maxVolume) == Round(minVolume as real / 10.0) * 10
    ensures VolumeToDevice(100, minVolume, maxVolume) == Round(maxVolume as real / 10.0) * 10
  {
    assert DeviceLevel(0, minVolume, maxVolume) == minVolume as real;
    assert DeviceLevel(100, minVolume, maxVolume) == maxVolume as real;
  }

  /** A higher percentage never sends a lower device volume, when the range goes up. */
  lemma VolumeToDeviceMonotone(p: int, q: int, minVolume: int, maxVolume: int)
    requires minVolume < maxVolume && p <= q
    ensures VolumeToDevice(p, minVolume, maxVolume) <= VolumeToDevice(q, minVolume, maxVolume)
  {
    var span := (maxVolume - minVolume) as real;
    assert span * p as real <= span * q as real;
    assert DeviceLevel(p, minVolume, maxVolume) <= DeviceLevel(q, minVolume, maxVolume);
    RoundMonotone(DeviceLevel(p, minVolume, maxVolume) / 10.0, DeviceLevel(q, minVolume, maxVolume) / 10.0);
  }

  /**
   * Setting a percentage and reading the device volume back gives the same
   * percentage up to one point, once the range spans at least 500 units
   * (the rounding to a multiple of 10 then moves the level by at most one
   * percent).
   */
  lemma VolumeRoundTrip(percent: int, minVolume: int, maxVolume: int)
    requires maxVolume - minVolume >= 500
    ensures percent - 1 <= VolumeFromDevice(VolumeToDevice(percent, minVolume, maxVolume), minVolume, maxVolume) <= percent + 1
  {
    var span := (maxVolume - minVolume) as real;
    var device := VolumeToDevice(percent, minVolume, maxVolume);
    var error := device as real - DeviceLevel(percent, minVolume, maxVolume);
    assert -5.0 < error <= 5.0;
    var drift := Percentage(device, minVolume, maxVolume) - percent as real;
    assert drift * span == error * 100.0;
    assert -1.0 < drift <= 1.0;
  }
}
