/**
 The client's capture switch (`AudioCapture` in src/ui/audio/mod.rs): a
 recording flag shared with the audio callback, the input stream while
 recording, an optional datagram connection, and the encoder that turns one
 callback frame into at most 256 bytes.

 The audio host, the device, the stream, the WAV writer and the Opus encoder
 are foreign code; each appears here only through the outcome it reports,
 passed in as a parameter. A Rust panic (`expect`, `unwrap`, `panic!`, an
 out-of-range slice) is an `Err` carrying the reason; the state after a
 panic is not modelled.
 */
module Capture {
  import opened Types
  import Fragmenter

  /** Size of the encoder's output array. */
  const MaxEncodedSize: nat := 256

  /** One audio sample, as the bit pattern of an IEEE-754 single. */
  type Sample = bv32

  /** The sample formats the audio library can report. */
  datatype SampleFormat = I8 | I16 | I32 | I64 | U8 | U16 | U32 | U64 | F32 | F64

  /** A device's default input configuration. */
  datatype InputConfig = InputConfig(sampleFormat: SampleFormat, sampleRate: nat, channels: nat)

  /** An error reported by the audio library. */
  datatype DeviceError = DeviceError(code: int)

  /** The default input device, described by what its calls will return. */
  datatype InputDevice = InputDevice(
    defaultInputConfig: Result<InputConfig, DeviceError>,
    buildStream: Result<(), DeviceError>,
    play: Result<(), DeviceError>)

  /** The audio host, and the file system's answer to creating the debug WAV file. */
  datatype Platform = Platform(
    defaultInputDevice: Option<InputDevice>,
    wavCreate: Result<(), IoError>)

  /** A running input stream. */
  datatype Stream = Stream(config: InputConfig)

  /** The debug WAV file that records the raw input. */
  datatype WavWriter = WavWriter(path: string, config: InputConfig)

  /** Why the program panics. */
  datatype Panic =
    | RuntimeUnavailable
    | NoInputDevice
    | NoInputConfig
    | WavCreateFailed
    | UnsupportedSampleFormat
    | BuildStreamFailed
    | PlayFailed
    | EncoderUnavailable
    | EncodeFailed
    | EncodedLengthOutOfRange

  /** `AudioCapture`. The chunk start, sample buffer and silence counter are
      initialised but never read or written afterwards. */
  datatype AudioCapture = AudioCapture(
    isRecording: bool,
    stream: Option<Stream>,
    audioConnection: Option<Fragmenter.AudioConnection>,
    chunkStart: Option<Instant>,
    buffer: seq<Sample>,
    silenceCounter: nat,
    wavWriter: Option<WavWriter>)

  /** `AudioCapture::new`: a runtime must be available (else panic); a failed
      connection only leaves the capture without one. Recording starts off. */
  function New(runtime: Result<(), IoError>, connection: Result<Fragmenter.AudioConnection, IoError>)
    : (r: Result<AudioCapture, Panic>)
    ensures r.Err? <==> runtime.Err?
    ensures r.Err? ==> r.error == RuntimeUnavailable
    ensures r.Ok? ==>
      && !r.value.isRecording
      && r.value.stream.None?
      && r.value.chunkStart.None?
      && |r.value.buffer| == 0
      && r.value.silenceCounter == 0
      && r.value.wavWriter.None?
      && (r.value.audioConnection.Some? <==> connection.Ok?)
      && (connection.Ok? ==> r.value.audioConnection.value == connection.value)
  {
    if runtime.Err? then Err(RuntimeUnavailable)
    else
      var conn := if connection.Ok? then Some(connection.value) else None;
      Ok(AudioCapture(false, None, conn, None, [], 0, None))
  }

  /** Where the debug recording of a session started at `datetime` is written. */
  function RecordingPath(manifestDir: string, datetime: string): string
  {
    manifestDir + "/recordings/record_" + datetime + ".wav"
  }

  /** Everything starting a recording needs from the platform, stated independently
      of the order in which the program asks for it. */
  predicate CanStart(platform: Platform)
  {
    && platform.defaultInputDevice.Some?
    && platform.defaultInputDevice.value.defaultInputConfig.Ok?
    && platform.defaultInputDevice.value.defaultInputConfig.value.sampleFormat == F32
    && platform.wavCreate.Ok?
    && platform.defaultInputDevice.value.buildStream.Ok?
    && platform.defaultInputDevice.value.play.Ok?
  }

  /** `start_recording`: get the device and its configuration, open the debug
      WAV file, raise the flag, build the stream (only for 32-bit float
      samples) and start it. Any failure panics. */
  function StartRecording(c: AudioCapture, platform: Platform, manifestDir: string, datetime: string)
    : (r: Result<AudioCapture, Panic>)
    ensures r.Ok? <==> CanStart(platform)
    ensures platform.defaultInputDevice.None? ==> r == Err(NoInputDevice)
    ensures platform.defaultInputDevice.Some? && platform.defaultInputDevice.value.defaultInputConfig.Err?
            ==> r == Err(NoInputConfig)
    ensures platform.defaultInputDevice.Some? && platform.defaultInputDevice.value.defaultInputConfig.Ok?
            && platform.wavCreate.Ok?
            && platform.defaultInputDevice.value.defaultInputConfig.value.sampleFormat != F32
            ==> r == Err(UnsupportedSampleFormat)
    ensures platform.defaultInputDevice.Some? && platform.defaultInputDevice.value.defaultInputConfig.Ok?
            && platform.wavCreate.Err?
            ==> r == Err(WavCreateFailed)
    ensures platform.defaultInputDevice.Some? && platform.defaultInputDevice.value.defaultInputConfig.Ok?
            && platform.wavCreate.Ok?
            && platform.defaultInputDevice.value.defaultInputConfig.value.sampleFormat == F32
            && platform.defaultInputDevice.value.buildStream.Err?
            ==> r == Err(BuildStreamFailed)
    ensures platform.defaultInputDevice.Some? && platform.defaultInputDevice.value.defaultInputConfig.Ok?
            && platform.wavCreate.Ok?
            && platform.defaultInputDevice.value.defaultInputConfig.value.sampleFormat == F32
            && platform.defaultInputDevice.value.buildStream.Ok?
            && platform.defaultInputDevice.value.play.Err?
            ==> r == Err(PlayFailed)
    ensures r.Ok? ==>
      && r.value.isRecording
      && r.value.stream == Some(Stream(platform.defaultInputDevice.value.defaultInputConfig.value))
      && r.value.wavWriter == Some(WavWriter(RecordingPath(manifestDir, datetime),
                                             platform.defaultInputDevice.value.defaultInputConfig.value))
      && r.value.(isRecording := c.isRecording, stream := c.stream, wavWriter := c.wavWriter) == c
  {
    match platform.defaultInputDevice
    case None => Err(NoInputDevice)
    case Some(device) =>
      match device.defaultInputConfig
      case Err(_) => Err(NoInputConfig)
      case Ok(config) =>
        if platform.wavCreate.Err? then Err(WavCreateFailed)
        else
          var armed := c.(wavWriter := Some(WavWriter(RecordingPath(manifestDir, datetime), config)),
                          isRecording := true);
          if config.sampleFormat != F32 then Err(UnsupportedSampleFormat)
          else if device.buildStream.Err? then Err(BuildStreamFailed)
          else if device.play.Err? then Err(PlayFailed)
          else Ok(armed.(stream := Some(Stream(config))))
  }

  /** `stop_recording`: lower the flag and drop the stream. */
  function StopRecording(c: AudioCapture): (r: AudioCapture)
    ensures !r.isRecording && r.stream.None?
    ensures r.(isRecording := c.isRecording, stream := c.stream) == c
  {
    c.(isRecording := false, stream := None)
  }

  /** `toggle_recording`: stop when recording, start otherwise; return the new
      state of the flag. */
  function ToggleRecording(c: AudioCapture, platform: Platform, manifestDir: string, datetime: string)
    : (r: Result<(AudioCapture, bool), Panic>)
    ensures c.isRecording ==> r.Ok?
    ensures !c.isRecording ==> (r.Ok? <==> CanStart(platform))
    ensures r.Ok? ==> r.value.1 == !c.isRecording && r.value.0.isRecording == r.value.1
    ensures r.Ok? ==> (r.value.0.stream.Some? <==> r.value.1)
    ensures r.Ok? ==>
      && r.value.0.chunkStart == c.chunkStart
      && r.value.0.buffer == c.buffer
      && r.value.0.silenceCounter == c.silenceCounter
      && r.value.0.audioConnection == c.audioConnection
    ensures c.isRecording ==> r == Ok((StopRecording(c), false))
    ensures !c.isRecording && r.Ok? ==> r.value.0 == StartRecording(c, platform, manifestDir, datetime).value
    ensures !c.isRecording && r.Err? ==> r.error == StartRecording(c, platform, manifestDir, datetime).error
  {
    if c.isRecording then Ok((StopRecording(c), false))
    else
      match StartRecording(c, platform, manifestDir, datetime)
      case Err(p) => Err(p)
      case Ok(started) => Ok((started, true))
  }

  /** Toggling twice, when both toggles succeed, restores the flag and leaves
      the chunk start, sample buffer, silence counter and connection as they were. */
  lemma ToggleTwiceRestores(c: AudioCapture, p1: Platform, p2: Platform, dir: string, t1: string, t2: string)
    requires ToggleRecording(c, p1, dir, t1).Ok?
    requires ToggleRecording(ToggleRecording(c, p1, dir, t1).value.0, p2, dir, t2).Ok?
    ensures var twice := ToggleRecording(ToggleRecording(c, p1, dir, t1).value.0, p2, dir, t2).value;
      && twice.0.isRecording == c.isRecording
      && twice.1 == c.isRecording
      && twice.0.chunkStart == c.chunkStart
      && twice.0.buffer == c.buffer
      && twice.0.silenceCounter == c.silenceCounter
      && twice.0.audioConnection == c.audioConnection
  {
  }

  /** What the Opus library reports: whether an encoder could be created, and
      the result of encoding one frame into the 256-byte output array (the
      length it claims, and the bytes it wrote from the front of the array). */
  datatype OpusCall = OpusCall(encoderCreated: bool, encode: Option<(nat, seq<byte>)>)

  /** The output array after the library wrote `written` at its front. */
  function OutputArray(written: seq<byte>): (out: seq<byte>)
    ensures |out| == MaxEncodedSize
  {
    if |written| >= MaxEncodedSize then written[..MaxEncodedSize]
    else written + seq(MaxEncodedSize - |written|, _ => 0)
  }

  /** `encode_opus`: the first `len` bytes of the output array, where `len` is
      what the library reports; a failure, or a `len` beyond the array, panics. */
  function EncodeOpus(data: seq<Sample>, opus: OpusCall): (r: Result<seq<byte>, Panic>)
    ensures r.Ok? ==> |r.value| <= MaxEncodedSize
    ensures r.Ok? <==> opus.encoderCreated && opus.encode.Some? && opus.encode.value.0 <= MaxEncodedSize
    ensures r.Ok? ==> |r.value| == opus.encode.value.0
    ensures r.Ok? ==> forall i :: 0 <= i < |r.value| ==>
              r.value[i] == (if i < |opus.encode.value.1| then opus.encode.value.1[i] else 0)
    ensures !opus.encoderCreated ==> r == Err(EncoderUnavailable)
    ensures opus.encoderCreated && opus.encode.None? ==> r == Err(EncodeFailed)
    ensures opus.encoderCreated && opus.encode.Some? && opus.encode.value.0 > MaxEncodedSize
            ==> r == Err(EncodedLengthOutOfRange)
  {
    if !opus.encoderCreated then Err(EncoderUnavailable)
    else match opus.encode
      case None => Err(EncodeFailed)
      case Some((len, written)) =>
        var output := OutputArray(written);
        if len > |output| then Err(EncodedLengthOutOfRange)
        else Ok(output[..len])
  }

  /** What one invocation of the input callback did: nothing, or hand the frame
      to the debug WAV writer and, with a connection, encode it. The encoded
      bytes are given to `send_audio` without awaiting the call, so no
      datagram is sent. */
  datatype CallbackEffect =
    | Ignored
    | Handled(toWavWriter: seq<Sample>, encoded: Option<seq<byte>>)

  /** The callback installed by `build_stream`, run on one frame. The stream's
      sample rate only reaches the encoder, whose outcome is `opus`. */
  function InputCallback(c: AudioCapture, data: seq<Sample>, opus: OpusCall)
    : (r: Result<CallbackEffect, Panic>)
    ensures !c.isRecording ==> r == Ok(Ignored)
    ensures c.isRecording && r.Ok? ==> r.value.Handled? && r.value.toWavWriter == data
    ensures c.isRecording && c.audioConnection.None? ==> r.Ok?
    ensures r.Ok? && r.value.Handled? ==>
              (r.value.encoded.Some? <==> c.audioConnection.Some?)
    ensures r.Ok? && r.value.Handled? && r.value.encoded.Some? ==>
              |r.value.encoded.value| <= MaxEncodedSize
    ensures c.isRecording && c.audioConnection.Some? ==>
              && (r.Ok? <==> EncodeOpus(data, opus).Ok?)
              && (r.Ok? ==> r.value.encoded == Some(EncodeOpus(data, opus).value))
              && (r.Err? ==> r.error == EncodeOpus(data, opus).error)
  {
    if !c.isRecording then Ok(Ignored)
    else if c.audioConnection.None? then Ok(Handled(data, None))
    else match EncodeOpus(data, opus)
      case Err(p) => Err(p)
      case Ok(bytes) => Ok(Handled(data, Some(bytes)))
  }

  /** Once recording is toggled off, every later frame is ignored. */
  lemma ToggleOffSilencesCallback(c: AudioCapture, platform: Platform, dir: string, t: string,
                                  data: seq<Sample>, opus: OpusCall)
    requires c.isRecording
    ensures ToggleRecording(c, platform, dir, t).Ok?
    ensures InputCallback(ToggleRecording(c, platform, dir, t).value.0, data, opus) == Ok(Ignored)
  {
  }
}
