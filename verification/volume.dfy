/** From a user volume to a codec register and back. */
module Volume {
  import opened AudioTypes

  /** `symbol` is +1 or -1: whether a greater register value is louder. */
  datatype Config = Config(maxVolume: real, minVolume: real, paGain: real, accuracy: real, symbol: int, zeroReg: nat) {
    predicate Valid() {
      accuracy > 0.0 && (symbol == 1 || symbol == -1) && zeroReg < 256
    }

    function Unit(): real {
      symbol as real * accuracy
    }
  }

  /** An entry of the table of offsets, in half dB: it runs from -99 up to 0. */
  function OffsetEntry(index: int): int
    requires 0 <= index < 100
  {
    index - 99
  }

  /** `codec_get_dac_volume_offset`. */
  function Offset(volume: int): real
    requires 1 <= volume <= 100
  {
    OffsetEntry(volume - 1) as real / 2.0
  }

  function Clamp(volume: int): int {
    if volume < 0 then 0 else if volume > 100 then 100 else volume
  }

  /** The DAC volume asked for; `maxGain` is what the whole route may have. */
  function DacVolume(c: Config, maxGain: real, volume: int): real {
    var v := Clamp(volume);
    if v == 0 then c.minVolume
    else
      var d := Offset(v) + maxGain - c.paGain;
      if d < c.maxVolume then d else c.maxVolume
  }

  /** Where a DAC volume lies on the scale of a register whose steps are `unit` and which is `zero` at 0 dB. */
  function LevelOn(unit: real, zero: real, dac: real): real
    requires unit != 0.0
  {
    dac / unit + zero
  }

  /** The DAC volume at a point of that scale. */
  function VolumeAt(unit: real, zero: real, level: real): real {
    unit * (level - zero)
  }

  function Level(c: Config, dac: real): real
    requires c.Valid()
  {
    LevelOn(c.Unit(), c.zeroReg as real, dac)
  }

  predicate InRange(level: real) {
    -1.0 < level < 256.0
  }

  /** The conversion to `uint8_t` cuts towards zero; outside this range it has no defined result. */
  function Cut(level: real): (r: nat)
    requires InRange(level)
    ensures r < 256
    ensures level >= 0.0 ==> r as real <= level < r as real + 1.0
    ensures level < 0.0 ==> r == 0
  {
    if level < 0.0 then 0 else level.Floor
  }

  /** `audio_codec_calculate_reg`. */
  function Reg(c: Config, dac: real): Option<nat>
    requires c.Valid()
  {
    if InRange(Level(c, dac)) then Some(Cut(Level(c, dac))) else None
  }

  /** `audio_codec_cal_dac_volume`. */
  function Recovered(c: Config, reg: nat): real {
    VolumeAt(c.Unit(), c.zeroReg as real, reg as real)
  }

  lemma UnitIs(c: Config)
    requires c.Valid()
    ensures c.Unit() == (if c.symbol == 1 then c.accuracy else -c.accuracy) != 0.0
  {
  }

  /** The scale is anchored: 0 dB is at the register configured for it, and a register away is one step of the accuracy,
      up or down by the symbol. */
  lemma ScaleAnchored(c: Config, reg: nat)
    requires c.Valid() && reg < 256
    ensures Reg(c, 0.0) == Some(c.zeroReg) && Recovered(c, c.zeroReg) == 0.0
    ensures var step := if c.symbol == 1 then c.accuracy else -c.accuracy;
            Recovered(c, reg) == (reg - c.zeroReg) as real * step && Reg(c, Recovered(c, reg)) == Some(reg)
  {
    UnitIs(c);
    ExactlyThere(c.Unit(), c.zeroReg as real, reg as real);
  }

  // ---- the scale ----

  lemma ExactlyThere(unit: real, zero: real, level: real)
    requires unit != 0.0
    ensures LevelOn(unit, zero, VolumeAt(unit, zero, level)) == level
  {
    assert unit * (level - zero) / unit == level - zero;
  }

  /** Going to the scale and back is exact. */
  lemma ScaleInverts(unit: real, zero: real, dac: real)
    requires unit != 0.0
    ensures VolumeAt(unit, zero, LevelOn(unit, zero, dac)) == dac
  {
  }

  /** Moving up the scale moves the volume up or down, according to the sign of the unit. */
  lemma ScaleOrder(unit: real, zero: real, a: real, b: real)
    requires a < b && unit != 0.0
    ensures if unit > 0.0 then VolumeAt(unit, zero, a) < VolumeAt(unit, zero, b)
            else VolumeAt(unit, zero, b) < VolumeAt(unit, zero, a)
  {
    assert VolumeAt(unit, zero, b) - VolumeAt(unit, zero, a) == unit * (b - a);
    if unit > 0.0 {
      assert unit * (b - a) > 0.0;
    } else {
      assert -unit * (b - a) > 0.0;
    }
  }

  lemma OneDown(unit: real, zero: real, a: real)
    ensures VolumeAt(unit, zero, a - 1.0) == VolumeAt(unit, zero, a) - unit
  {
  }

  /** Moving less than one down the scale moves the volume by less than one unit. */
  lemma LessThanOneDown(unit: real, zero: real, a: real, b: real)
    requires unit != 0.0 && a - 1.0 < b <= a
    ensures var (x, y) := (VolumeAt(unit, zero, a), VolumeAt(unit, zero, b));
            if unit > 0.0 then x - unit < y <= x else x <= y < x - unit
  {
    OneDown(unit, zero, a);
    ScaleOrder(unit, zero, a - 1.0, b);
    if b < a {
      ScaleOrder(unit, zero, b, a);
    }
  }

  lemma LevelOrder(unit: real, zero: real, x: real, y: real)
    requires unit != 0.0 && x <= y
    ensures if unit > 0.0 then LevelOn(unit, zero, x) <= LevelOn(unit, zero, y)
            else LevelOn(unit, zero, y) <= LevelOn(unit, zero, x)
  {
    var (a, b) := (LevelOn(unit, zero, x), LevelOn(unit, zero, y));
    ScaleInverts(unit, zero, x);
    ScaleInverts(unit, zero, y);
    if b < a {
      ScaleOrder(unit, zero, b, a);
    } else if a < b {
      ScaleOrder(unit, zero, a, b);
    }
  }

  // ---- there and back ----

  /** With a level that is not negative the volume that comes back is less than one step below the one asked for when
      greater registers are louder, less than one step above it otherwise, and never on the other side. */
  lemma RoundTrip(c: Config, dac: real)
    requires c.Valid() && 0.0 <= Level(c, dac) < 256.0
    ensures var back := Recovered(c, Reg(c, dac).value);
            if c.symbol == 1 then dac - c.accuracy < back <= dac else dac <= back < dac + c.accuracy
  {
    var unit, zero := c.Unit(), c.zeroReg as real;
    UnitIs(c);
    ScaleInverts(unit, zero, dac);
    LessThanOneDown(unit, zero, LevelOn(unit, zero, dac), Reg(c, dac).value as real);
  }

  /** Between -1 and 0 the register is cut upwards, so the error is on the other side. */
  lemma RoundTripBelowZero(c: Config, dac: real)
    requires c.Valid() && -1.0 < Level(c, dac) < 0.0
    ensures var back := Recovered(c, Reg(c, dac).value);
            if c.symbol == 1 then dac <= back < dac + c.accuracy else dac - c.accuracy < back <= dac
  {
    var unit, zero := c.Unit(), c.zeroReg as real;
    UnitIs(c);
    ScaleInverts(unit, zero, dac);
    LessThanOneDown(unit, zero, 0.0, LevelOn(unit, zero, dac));
  }

  // ---- order ----

  lemma OffsetsRise(c: Config, maxGain: real, a: int, b: int)
    requires 1 <= Clamp(a) <= Clamp(b)
    ensures DacVolume(c, maxGain, a) <= DacVolume(c, maxGain, b)
  {
  }

  /** A step of the user volume is half a dB, down from the limit of the route at full volume and cut off at the maximum
      of the codec; nothing, or less, is its minimum. */
  lemma HalfDbSteps(c: Config, maxGain: real, volume: int)
    ensures volume <= 0 ==> DacVolume(c, maxGain, volume) == c.minVolume
    ensures volume > 0 ==> DacVolume(c, maxGain, volume) <= c.maxVolume
    ensures DacVolume(c, maxGain, 100) < c.maxVolume ==> DacVolume(c, maxGain, 100) == maxGain - c.paGain
    ensures volume >= 100 ==> DacVolume(c, maxGain, volume) == DacVolume(c, maxGain, 100)
    ensures 0 < volume < 100 && DacVolume(c, maxGain, volume + 1) < c.maxVolume ==>
              DacVolume(c, maxGain, volume) + 0.5 == DacVolume(c, maxGain, volume + 1)
    ensures 0 < volume < 100 && DacVolume(c, maxGain, volume) == c.maxVolume ==>
              DacVolume(c, maxGain, volume + 1) == c.maxVolume
    ensures maxGain - c.paGain >= c.maxVolume ==> DacVolume(c, maxGain, 100) == c.maxVolume
  {
  }

  lemma CutOrder(a: real, b: real)
    requires InRange(a) && InRange(b) && a <= b
    ensures Cut(a) <= Cut(b)
  {
  }

  /** What comes back of `r` is not above what comes back of `s`, and the registers are in that order, or in the reverse
      when greater registers are softer. */
  predicate NotLouder(c: Config, r: nat, s: nat) {
    Recovered(c, r) <= Recovered(c, s) && if c.symbol == 1 then r <= s else s <= r
  }

  lemma NotLouderIff(c: Config, r: nat, s: nat)
    requires c.Valid()
    ensures NotLouder(c, r, s) <==> Recovered(c, r) <= Recovered(c, s)
    ensures NotLouder(c, r, s) <==> if c.symbol == 1 then r <= s else s <= r
  {
    var unit, zero := c.Unit(), c.zeroReg as real;
    UnitIs(c);
    if r < s {
      ScaleOrder(unit, zero, r as real, s as real);
    } else if s < r {
      ScaleOrder(unit, zero, s as real, r as real);
    }
  }

  lemma RegistersKeepOrder(c: Config, x: real, y: real)
    requires c.Valid() && x <= y && Reg(c, x) != None && Reg(c, y) != None
    ensures NotLouder(c, Reg(c, x).value, Reg(c, y).value)
  {
    UnitIs(c);
    LevelOrder(c.Unit(), c.zeroReg as real, x, y);
    if c.symbol == 1 {
      CutOrder(Level(c, x), Level(c, y));
    } else {
      CutOrder(Level(c, y), Level(c, x));
    }
    NotLouderIff(c, Reg(c, x).value, Reg(c, y).value);
  }

  predicate Defined(c: Config, maxGain: real, volume: int)
    requires c.Valid()
  {
    Reg(c, DacVolume(c, maxGain, volume)) != None
  }

  function RegOf(c: Config, maxGain: real, volume: int): nat
    requires c.Valid() && Defined(c, maxGain, volume)
  {
    Reg(c, DacVolume(c, maxGain, volume)).value
  }

  /** A larger user volume from 1 on, any integer, never gives a softer one. */
  lemma LouderIsNotSofter(c: Config, maxGain: real, a: int, b: int)
    requires c.Valid() && 1 <= a <= b && Defined(c, maxGain, a) && Defined(c, maxGain, b)
    ensures NotLouder(c, RegOf(c, maxGain, a), RegOf(c, maxGain, b))
  {
    OffsetsRise(c, maxGain, a, b);
    RegistersKeepOrder(c, DacVolume(c, maxGain, a), DacVolume(c, maxGain, b));
  }

  /** Neither does one from 0 and below on, if what comes back at 0 is not louder than at 1. */
  lemma LouderFromZero(c: Config, maxGain: real, a: int, b: int)
    requires c.Valid() && a <= b && forall v: int :: Defined(c, maxGain, v)
    requires NotLouder(c, RegOf(c, maxGain, 0), RegOf(c, maxGain, 1))
    ensures NotLouder(c, RegOf(c, maxGain, a), RegOf(c, maxGain, b))
  {
    assert Defined(c, maxGain, a) && Defined(c, maxGain, b) && Defined(c, maxGain, 0) && Defined(c, maxGain, 1);
    if a >= 1 {
      LouderIsNotSofter(c, maxGain, a, b);
    } else {
      assert RegOf(c, maxGain, a) == RegOf(c, maxGain, 0);
      if b >= 1 {
        LouderIsNotSofter(c, maxGain, 1, b);
      } else {
        assert RegOf(c, maxGain, b) == RegOf(c, maxGain, 0);
        NotLouderIff(c, RegOf(c, maxGain, a), RegOf(c, maxGain, b));
      }
    }
  }

  /** The minimum of the codec is less than one step above the register of user volume 1; when greater registers are
      softer, it is not above it at all, unless that is register 0, below which there is none. */
  predicate MinimumFits(c: Config, maxGain: real)
    requires c.Valid() && Defined(c, maxGain, 1)
  {
    var reg := RegOf(c, maxGain, 1);
    if c.symbol == 1 then c.minVolume < Recovered(c, reg + 1) else reg == 0 || c.minVolume <= Recovered(c, reg)
  }

  lemma CutIff(level: real, reg: nat)
    requires InRange(level)
    ensures Cut(level) <= reg <==> level < reg as real + 1.0
    ensures reg <= Cut(level) <==> reg == 0 || reg as real <= level
  {
  }

  lemma LevelIff(unit: real, zero: real, dac: real, a: real)
    requires unit != 0.0
    ensures LevelOn(unit, zero, dac) < a <==>
              if unit > 0.0 then dac < VolumeAt(unit, zero, a) else VolumeAt(unit, zero, a) < dac
    ensures LevelOn(unit, zero, dac) == a <==> dac == VolumeAt(unit, zero, a)
  {
    var level := LevelOn(unit, zero, dac);
    ScaleInverts(unit, zero, dac);
    if level < a {
      ScaleOrder(unit, zero, level, a);
    } else if a < level {
      ScaleOrder(unit, zero, a, level);
    }
  }

  lemma MinimumFitsIff(c: Config, maxGain: real)
    requires c.Valid() && Defined(c, maxGain, 0) && Defined(c, maxGain, 1)
    ensures MinimumFits(c, maxGain) <==> NotLouder(c, RegOf(c, maxGain, 0), RegOf(c, maxGain, 1))
  {
    var unit, zero, reg := c.Unit(), c.zeroReg as real, RegOf(c, maxGain, 1);
    UnitIs(c);
    NotLouderIff(c, RegOf(c, maxGain, 0), reg);
    CutIff(Level(c, c.minVolume), reg);
    LevelIff(unit, zero, c.minVolume, reg as real + 1.0);
    LevelIff(unit, zero, c.minVolume, reg as real);
  }

  /** With volume 0 and below included, the order of volumes holds exactly if the minimum of the codec fits below user
      volume 1, for which it is enough that it is not above what is asked for there. */
  lemma LouderFromZeroIff(c: Config, maxGain: real)
    requires c.Valid() && forall v: int :: Defined(c, maxGain, v)
    ensures Defined(c, maxGain, 1)
    ensures MinimumFits(c, maxGain)
       <==> forall a, b: int :: a <= b ==> NotLouder(c, RegOf(c, maxGain, a), RegOf(c, maxGain, b))
    ensures c.minVolume <= DacVolume(c, maxGain, 1) ==> MinimumFits(c, maxGain)
  {
    assert Defined(c, maxGain, 0) && Defined(c, maxGain, 1);
    MinimumFitsIff(c, maxGain);
    if c.minVolume <= DacVolume(c, maxGain, 1) {
      RegistersKeepOrder(c, DacVolume(c, maxGain, 0), DacVolume(c, maxGain, 1));
    }
    if NotLouder(c, RegOf(c, maxGain, 0), RegOf(c, maxGain, 1)) {
      forall a, b: int | a <= b
        ensures NotLouder(c, RegOf(c, maxGain, a), RegOf(c, maxGain, b))
      {
        LouderFromZero(c, maxGain, a, b);
      }
    }
  }

  // ---- the gain of the whole route ----

  function Limit(c: Config, maxGain: real): real {
    maxGain - c.paGain
  }

  lemma AskedWithinLimit(c: Config, maxGain: real, volume: int)
    requires Clamp(volume) > 0
    ensures DacVolume(c, maxGain, volume) <= Limit(c, maxGain)
    ensures Clamp(volume) == 100 && Limit(c, maxGain) <= c.maxVolume ==>
              DacVolume(c, maxGain, volume) == Limit(c, maxGain)
  {
  }

  /** With registers in range, DAC and amplifier together stay within the gain of the route when greater registers are
      louder, and less than one step over it otherwise. */
  lemma GainBound(c: Config, maxGain: real, volume: int)
    requires c.Valid() && Clamp(volume) > 0 && 0.0 <= Level(c, DacVolume(c, maxGain, volume)) < 256.0
    ensures var back := Recovered(c, Reg(c, DacVolume(c, maxGain, volume)).value);
            if c.symbol == 1 then back + c.paGain <= maxGain else back + c.paGain < maxGain + c.accuracy
  {
    AskedWithinLimit(c, maxGain, volume);
    RoundTrip(c, DacVolume(c, maxGain, volume));
  }

  /** What comes back at a user volume keeps the route within its gain. */
  predicate Within(c: Config, maxGain: real, volume: int)
    requires c.Valid() && Defined(c, maxGain, volume)
  {
    Recovered(c, RegOf(c, maxGain, volume)) + c.paGain <= maxGain
  }

  /** When greater registers are softer, a user volume is within the gain of the route exactly if the register it is cut
      down to is not below where the limit lies on the scale of the register. */
  lemma WithinIff(c: Config, maxGain: real, volume: int)
    requires c.Valid() && c.symbol == -1 && Defined(c, maxGain, volume)
    ensures Within(c, maxGain, volume)
       <==> Level(c, Limit(c, maxGain)) <= Cut(Level(c, DacVolume(c, maxGain, volume))) as real
    ensures Level(c, DacVolume(c, maxGain, volume)) >= 0.0 ==>
              (Within(c, maxGain, volume) <==>
                 Level(c, Limit(c, maxGain)) <= Level(c, DacVolume(c, maxGain, volume)).Floor as real)
  {
    UnitIs(c);
    LevelIff(c.Unit(), c.zeroReg as real, Limit(c, maxGain), RegOf(c, maxGain, volume) as real);
  }

  /** All user volumes from 1 on are within it exactly if the full one is. */
  lemma AllWithinIff(c: Config, maxGain: real)
    requires c.Valid() && forall v: int :: v >= 1 ==> Defined(c, maxGain, v)
    ensures Defined(c, maxGain, 100)
    ensures Within(c, maxGain, 100) <==> forall v: int :: v >= 1 ==> Within(c, maxGain, v)
  {
    assert Defined(c, maxGain, 100);
    if Within(c, maxGain, 100) {
      forall v: int | v >= 1
        ensures Within(c, maxGain, v)
      {
        if v <= 100 {
          LouderIsNotSofter(c, maxGain, v, 100);
        } else {
          assert DacVolume(c, maxGain, v) == DacVolume(c, maxGain, 100);
        }
      }
    }
  }

  // ---- the handle ----

  class Handle {
    const config: Config
    var regValue: nat
    var userVolume: int
    ghost var asked: Option<real>  // the DAC volume the register was last set for

    /** The register is the one the volume asked for is converted to. */
    ghost predicate Holds()
      reads this
    {
      config.Valid() && (asked != None ==> Reg(config, asked.value) == Some(regValue))
    }

    constructor (c: Config, reg: nat, user: int)
      requires c.Valid()
      ensures config == c && regValue == reg && userVolume == user && asked == None && Holds()
    {
      config, regValue, userVolume, asked := c, reg, user, None;
    }

    /** `audio_codec_get_dac_reg_value`; `None` where the conversion to a register has no defined result. */
    method GetDacRegValue(maxGain: real, volume: int) returns (reg: Option<nat>)
      requires Holds()
      modifies this
      ensures Holds() && reg == Reg(config, DacVolume(config, maxGain, volume))
      ensures reg != None ==>
                && regValue == reg.value && userVolume == Clamp(volume)
                && asked == Some(DacVolume(config, maxGain, volume))
      ensures reg == None ==> regValue == old(regValue) && userVolume == old(userVolume) && asked == old(asked)
    {
      var user := volume;
      if user < 0 {
        user := 0;
      } else if user > 100 {
        user := 100;
      }
      var dac;
      if user == 0 {
        dac := config.minVolume;
      } else {
        dac := Offset(user) + maxGain - config.paGain;
        dac := if dac < config.maxVolume then dac else config.maxVolume;
      }
      UnitIs(config);
      var level := dac / config.Unit() + config.zeroReg as real;
      if !InRange(level) {
        return None;
      }
      regValue := Cut(level);
      userVolume := user;
      asked := Some(dac);
      reg := Some(regValue);
    }

    /** `audio_codec_cal_dac_volume`: it gives back the volume asked for, to within one step on the side the symbol
        says, if that lies on the scale of the register at 0 or above. */
    method CalDacVolume() returns (dac: real)
      requires Holds()
      ensures dac == Recovered(config, regValue)
      ensures asked != None && 0.0 <= Level(config, asked.value) < 256.0 ==>
                if config.symbol == 1 then asked.value - config.accuracy < dac <= asked.value
                else asked.value <= dac < asked.value + config.accuracy
    {
      dac := config.symbol as real * config.accuracy * (regValue as real - config.zeroReg as real);
      if asked != None && 0.0 <= Level(config, asked.value) < 256.0 {
        RoundTrip(config, asked.value);
      }
    }
  }
}
