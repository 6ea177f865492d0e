/** Calibration resolution and the output-stage relay choice of the DAC start
    sequence. The board is fixed at build time by a preprocessor flag; here it
    is a `Variant` value. */
module Calibration {
  import opened Settings

  /** Build variants: the `Z10`, `Z20`, `Z20_125` and `Z20_250_12` flags, and
      `OtherBoard` for a build that defines none of them (no calibration branch). */
  datatype Variant = Z10 | Z20 | Z20_125 | Z20_250_12 | OtherBoard

  /** One channel's raw calibration: a full-scale gain code and a DC offset code. */
  datatype RawChannel = RawChannel(fullScale: u32, offset: int)

  datatype RawPair = RawPair(ch1: RawChannel, ch2: RawChannel)

  /** The raw fields of the calibration store that the start sequence reads:
      `gen_ch*_g_1` / `gen_ch*_off_1` (x1 gain, 250-12 boards),
      `gen_ch*_g_5` / `gen_ch*_off_5` (x5 gain, 250-12 boards) and
      `be_ch*_fs` / `be_ch*_dc_offs` (Z10 and Z20_125 boards). */
  datatype CalibParams = CalibParams(genX1: RawPair, genX5: RawPair, frontEnd: RawPair)

  /** Which of the three raw field sets a start reads. */
  datatype FieldSet = GenX1Fields | GenX5Fields | FrontEndFields

  /** The offsets and gains handed to the generator (`setCalibration`). */
  datatype ChannelCalibration = ChannelCalibration(ch1Offset: u32, ch1Gain: real, ch2Offset: u32, ch2Gain: real)

  /** The defaults the start sequence begins with: no offset, unit gain. */
  const Identity: ChannelCalibration := ChannelCalibration(0, 1.0, 0, 1.0)

  /** `calibDACFullScaleToVoltage`: a fixed-point full-scale code to a gain in
      volts, `g * 100 / 2^32`, with 0 standing for "no scale". */
  function FullScaleToVoltage(fullScaleGain: u32): (v: real)
    ensures fullScaleGain == 0 ==> v == 1.0
    ensures fullScaleGain != 0 ==> 0.0 < v < 100.0
    ensures fullScaleGain != 0 ==> v * 4294967296.0 == fullScaleGain as real * 100.0
  {
    if fullScaleGain == 0 then 1.0 else fullScaleGain as real * 100.0 / 4294967296.0
  }

  /** Over the reals the sentinel is unambiguous: no nonzero code converts to
      exactly 1 V, because 2^32 is not a multiple of 100. */
  lemma SentinelOnlyForZero(g: u32)
    ensures FullScaleToVoltage(g) == 1.0 <==> g == 0
  {
  }

  /** Over the reals distinct codes convert to distinct gains, so the exact
      conversion loses nothing (the source's `float` result is not modelled). */
  lemma FullScaleToVoltageInjective(g1: u32, g2: u32)
    requires FullScaleToVoltage(g1) == FullScaleToVoltage(g2)
    ensures g1 == g2
  {
  }

  /** Over the reals nonzero codes convert monotonically. */
  lemma FullScaleToVoltageMonotone(g1: u32, g2: u32)
    requires 0 < g1 < g2
    ensures FullScaleToVoltage(g1) < FullScaleToVoltage(g2)
  {
  }

  /** The raw field set a start reads, or None when the defaults stay in place.
      On Z20 the calibration flag is forced to 0; on a build with no branch
      nothing is read even with calibration on. */
  function SelectedFields(variant: Variant, useCalib: bool, gain: GainMode): (f: Option<FieldSet>)
    ensures f.Some? ==> useCalib && variant != Z20 && variant != OtherBoard
    ensures f == Some(FrontEndFields) <==> useCalib && (variant == Z10 || variant == Z20_125)
    ensures f == Some(GenX1Fields) <==> useCalib && variant == Z20_250_12 && gain == X1
    ensures f == Some(GenX5Fields) <==> useCalib && variant == Z20_250_12 && gain != X1
  {
    match variant
    case Z20 => None
    case OtherBoard => None
    case Z20_250_12 =>
      if !useCalib then None
      else if gain == X1 then Some(GenX1Fields)
      else Some(GenX5Fields)
    case _ =>
      if useCalib then Some(FrontEndFields) else None
  }

  function Pick(params: CalibParams, f: FieldSet): RawPair
  {
    match f
    case GenX1Fields => params.genX1
    case GenX5Fields => params.genX5
    case FrontEndFields => params.frontEnd
  }

  /** Offsets are stored in `uint32_t` locals, gains go through the conversion. */
  function Convert(raw: RawPair): ChannelCalibration
  {
    ChannelCalibration(
      ToU32(raw.ch1.offset), FullScaleToVoltage(raw.ch1.fullScale),
      ToU32(raw.ch2.offset), FullScaleToVoltage(raw.ch2.fullScale))
  }

  /** The calibration handed to the generator for one start. */
  function ResolveCalibration(variant: Variant, useCalib: bool, gain: GainMode, params: CalibParams): (c: ChannelCalibration)
    ensures 0.0 < c.ch1Gain <= 100.0 && 0.0 < c.ch2Gain <= 100.0
    ensures !useCalib || variant == Z20 || variant == OtherBoard ==> c == Identity
    ensures useCalib && (variant == Z10 || variant == Z20_125) ==>
      c.ch1Gain == FullScaleToVoltage(params.frontEnd.ch1.fullScale) &&
      c.ch2Gain == FullScaleToVoltage(params.frontEnd.ch2.fullScale) &&
      c.ch1Offset == ToU32(params.frontEnd.ch1.offset) &&
      c.ch2Offset == ToU32(params.frontEnd.ch2.offset)
    ensures useCalib && variant == Z20_250_12 ==>
      var raw := if gain == X1 then params.genX1 else params.genX5;
      c.ch1Gain == FullScaleToVoltage(raw.ch1.fullScale) &&
      c.ch2Gain == FullScaleToVoltage(raw.ch2.fullScale) &&
      c.ch1Offset == ToU32(raw.ch1.offset) &&
      c.ch2Offset == ToU32(raw.ch2.offset)
  {
    match SelectedFields(variant, useCalib, gain)
    case None => Identity
    case Some(f) => Convert(Pick(params, f))
  }

  /** Fields outside the selected set never influence the result. */
  lemma ResolveReadsOnlySelectedFields(variant: Variant, useCalib: bool, gain: GainMode, p: CalibParams, q: CalibParams)
    requires forall f :: SelectedFields(variant, useCalib, gain) == Some(f) ==> Pick(p, f) == Pick(q, f)
    ensures ResolveCalibration(variant, useCalib, gain, p) == ResolveCalibration(variant, useCalib, gain, q)
  {
  }

  /** The two relay outputs of the MAX7311 expander and their ranges. */
  datatype Output = Out1 | Out2
  datatype OutputRange = Range2V | Range10V

  /** The range both outputs are switched to, on the boards that have the relays. */
  function OutputStage(variant: Variant, gain: GainMode): (r: Option<OutputRange>)
    ensures r.Some? <==> variant == Z20_250_12
    ensures r == Some(Range2V) <==> variant == Z20_250_12 && gain == X1
    ensures r == Some(Range10V) <==> variant == Z20_250_12 && gain != X1
  {
    if variant == Z20_250_12 then Some(if gain == X1 then Range2V else Range10V) else None
  }
}
