/** Shared vocabulary of the DAC streaming controller: an Option type, the
    C++ `uint32_t` range, and the streaming settings snapshot the controller
    reads (`CStreamSettings`). */
module Settings {

  datatype Option<+T> = None | Some(value: T)

  const TWO_POW_32: int := 0x1_0000_0000

  /** Values of a C++ `uint32_t`. */
  type u32 = x: int | 0 <= x < TWO_POW_32

  /** Implicit C++ conversion of an integer to `uint32_t`: reduction modulo 2^32. */
  function ToU32(x: int): (r: u32)
    ensures 0 <= x < TWO_POW_32 ==> r == x
    ensures (x - r) % TWO_POW_32 == 0
  {
    x % TWO_POW_32
  }

  /** `CStreamSettings::DAC_NET` streams from the network; anything else plays a file. */
  datatype DacMode = DacNet | DacFile

  /** `CStreamSettings::WAV`, `CStreamSettings::TDMS`, or any other enum code. */
  datatype FileType = Wav | Tdms | OtherFileType(code: int)

  /** The gain selector of 250-12 boards: `CStreamSettings::X1`, or the x5 setting. */
  datatype GainMode = X1 | X5

  /** One settings snapshot, as returned by `getSettings()` / `getTempSettings()`.
      `isSet` is `isSetted()`; port, repeat mode, repeat count and memory budget are
      passed through to the streaming manager unchanged and are kept as opaque codes. */
  datatype StreamSettings = StreamSettings(
    isSet: bool,
    mode: DacMode,
    port: int,
    dacHz: int,
    calibration: bool,
    dacGain: GainMode,
    fileType: FileType,
    filePath: string,
    repeatMode: int,
    repeatCount: int,
    memoryUsage: int)
}
