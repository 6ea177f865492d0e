/** Destination selection: which streaming manager a start creates. */
module Destination {
  import opened Settings

  /** The host a network-mode manager is bound to. */
  const LoopbackHost: string := "127.0.0.1"

  /** `CDACStreamingManager::WAV_TYPE` and `CDACStreamingManager::TDMS_TYPE`. */
  datatype FileKind = WavType | TdmsType

  /** What the manager's `notifyStop` callback does when playback ends. */
  datatype StopHook = NoHook | RequestNonBlockingStop

  /** The arguments a streaming manager is created with. */
  datatype ManagerSpec =
    | NetworkManager(host: string, port: int)
    | FileManager(kind: FileKind, path: string, repeatMode: int, repeatCount: int, memoryUsage: int)
  {
    /** Only file managers get a `notifyStop` callback, and it requests a
        non-blocking stop. */
    function Hook(): (h: StopHook)
      ensures h == RequestNonBlockingStop <==> FileManager?
      ensures h == NoHook <==> NetworkManager?
    {
      if FileManager? then RequestNonBlockingStop else NoHook
    }
  }

  /** The manager a start creates from the settings, or None when the file
      format is neither WAV nor TDMS and the start returns early. */
  function SelectDestination(s: StreamSettings): (r: Option<ManagerSpec>)
    ensures r.None? <==> s.mode == DacFile && s.fileType.OtherFileType?
    ensures s.mode == DacNet ==> r == Some(NetworkManager(LoopbackHost, s.port))
    ensures r.Some? && r.value.FileManager? ==>
      s.mode == DacFile &&
      (r.value.kind == WavType <==> s.fileType == Wav) &&
      (r.value.kind == TdmsType <==> s.fileType == Tdms) &&
      r.value.path == s.filePath && r.value.repeatMode == s.repeatMode &&
      r.value.repeatCount == s.repeatCount && r.value.memoryUsage == s.memoryUsage
    ensures r.Some? ==> (r.value.Hook() == RequestNonBlockingStop <==> s.mode == DacFile)
  {
    match s.mode
    case DacNet => Some(NetworkManager(LoopbackHost, s.port))
    case DacFile =>
      match s.fileType
      case Wav => Some(FileManager(WavType, s.filePath, s.repeatMode, s.repeatCount, s.memoryUsage))
      case Tdms => Some(FileManager(TdmsType, s.filePath, s.repeatMode, s.repeatCount, s.memoryUsage))
      case OtherFileType(_) => None
  }

  /** A network manager reads none of the file settings. */
  lemma NetworkIgnoresFileSettings(s: StreamSettings, t: StreamSettings)
    requires s.mode == DacNet && t.mode == DacNet && s.port == t.port
    ensures SelectDestination(s) == SelectDestination(t)
  {
  }
}
