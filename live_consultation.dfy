/** The live voice consultation of LiveConsultationPage.tsx: the byte and sample
    helpers around `btoa`/`atob`, the de-interleaving of 16-bit PCM, and the
    session controller with its flags, references, transcript accumulators and
    playback scheduler.

    Browser objects (the media stream, the input audio context and its nodes, the
    live session) are opaque handles handed in by the caller. Time on the output
    audio context is counted in ticks of its 24 kHz sample clock, so a chunk of
    `n` frames lasts `n` ticks. */
module LiveConsultation {
  import opened Types
  import Base64

  type byte = Base64.byte

  // ---------------------------------------------------------------------------
  // Binary strings: the bridge between byte arrays and btoa/atob
  // ---------------------------------------------------------------------------

  /** The string `String.fromCharCode` builds from bytes, one character each. */
  function BinaryString(b: seq<byte>): (s: string)
    ensures |s| == |b|
    ensures forall i :: 0 <= i < |b| ==> s[i] as int == b[i]
  {
    seq(|b|, i requires 0 <= i < |b| => b[i] as char)
  }

  /** Every character fits in a byte. */
  predicate IsBinary(s: string) {
    forall i :: 0 <= i < |s| ==> s[i] as int < 256
  }

  /** `s.charCodeAt(i)` for every index of a binary string. */
  function CharCodes(s: string): (b: seq<byte>)
    requires IsBinary(s)
    ensures |b| == |s|
    ensures forall i :: 0 <= i < |s| ==> b[i] == s[i] as int
  {
    seq(|s|, i requires 0 <= i < |s| => s[i] as int)
  }

  /** `btoa(s)`; `None` where it throws (a character above 255). */
  function Btoa(s: string): (r: Option<string>)
    ensures r.Some? <==> IsBinary(s)
  {
    if IsBinary(s) then Some(Base64.Encode(CharCodes(s))) else None
  }

  /** `atob(s)`: the decoded bytes as a binary string; `None` where it throws. */
  function Atob(s: string): (r: Option<string>)
    ensures r.Some? ==> IsBinary(r.value)
    ensures r.Some? <==> Base64.Decode(s).Some?
  {
    match Base64.Decode(s)
    case None => None
    case Some(b) => Some(BinaryString(b))
  }

  lemma BinaryCodes(b: seq<byte>)
    ensures IsBinary(BinaryString(b))
    ensures CharCodes(BinaryString(b)) == b
  {
  }

  /** `atob` undoes `btoa` on every binary string. */
  lemma AtobBtoa(b: seq<byte>)
    ensures Btoa(BinaryString(b)).Some?
    ensures Atob(Btoa(BinaryString(b)).value) == Some(BinaryString(b))
  {
    BinaryCodes(b);
    Base64.DecodeEncode(b);
  }

  /** `encode`: the bytes as a binary string, then `btoa`. */
  method Encode(bytes: array<byte>) returns (r: string)
    ensures Btoa(BinaryString(bytes[..])) == Some(r)
    ensures r == Base64.Encode(bytes[..])
    ensures Base64.Decode(r) == Some(bytes[..])
  {
    var binary := "";
    var i := 0;
    while i < bytes.Length
      invariant 0 <= i <= bytes.Length
      invariant binary == BinaryString(bytes[..i])
    {
      binary := binary + [bytes[i] as char];
      i := i + 1;
    }
    assert bytes[..i] == bytes[..];
    BinaryCodes(bytes[..]);
    Base64.DecodeEncode(bytes[..]);
    r := Btoa(binary).value;
  }

  /** `decode`: `atob`, then one byte per character holding its char code
      (a `Uint8Array` stores each code modulo 256). `None` where `atob` throws. */
  method Decode(base64: string) returns (r: Option<array<byte>>)
    ensures r.None? <==> Atob(base64).None?
    ensures r.Some? ==> fresh(r.value)
    ensures r.Some? ==>
      r.value.Length == |Atob(base64).value|
      && forall i :: 0 <= i < r.value.Length ==> r.value[i] == Atob(base64).value[i] as int
    ensures r.Some? ==> r.value[..] == Base64.Decode(base64).value
  {
    var binary := Atob(base64);
    if binary.None? {
      return None;
    }
    var s := binary.value;
    var bytes := new byte[|s|];
    for i := 0 to |s|
      invariant forall j :: 0 <= j < i ==> bytes[j] == s[j] as int
    {
      bytes[i] := s[i] as int % 256;
    }
    r := Some(bytes);
  }

  // ---------------------------------------------------------------------------
  // 16-bit samples
  // ---------------------------------------------------------------------------

  /** The conversion an `Int16Array` applies to a stored number: modulo 2^16 into
      the signed range. */
  function ToInt16(x: int): (r: int)
    ensures -32768 <= r < 32768
    ensures (r - x) % 65536 == 0
  {
    var m := x % 65536;
    if m >= 32768 then m - 65536 else m
  }

  /** The sample stored little-endian in two bytes. */
  function Sample(lo: byte, hi: byte): (r: int)
    ensures r == ToInt16(lo + 256 * hi)
  {
    var u := lo + 256 * hi;
    if u >= 32768 then u - 65536 else u
  }

  /** `new Int16Array(data.buffer)`: `None` for an odd number of bytes (a
      RangeError), otherwise one sample per byte pair. */
  function Int16View(data: seq<byte>): (r: Option<seq<int>>)
    ensures r.Some? <==> |data| % 2 == 0
    ensures r.Some? ==> |r.value| == |data| / 2
    ensures r.Some? ==> forall i :: 0 <= i < |r.value| ==> r.value[i] == Sample(data[2 * i], data[2 * i + 1])
  {
    if |data| % 2 != 0 then None
    else Some(seq(|data| / 2, i requires 0 <= i < |data| / 2 => Sample(data[2 * i], data[2 * i + 1])))
  }

  /** The bytes of an `Int16Array` built from `samples`, little-endian. */
  function PcmBytes(samples: seq<int>): (data: seq<byte>)
    ensures |data| == 2 * |samples|
  {
    seq(2 * |samples|, j requires 0 <= j < 2 * |samples| =>
      var u := samples[j / 2] % 65536;
      if j % 2 == 0 then u % 256 else u / 256)
  }

  /** Every sample wrapped to 16 bits. */
  function Wrapped(samples: seq<int>): (r: seq<int>)
    ensures |r| == |samples|
    ensures forall i :: 0 <= i < |r| ==> r[i] == ToInt16(samples[i])
  {
    seq(|samples|, i requires 0 <= i < |samples| => ToInt16(samples[i]))
  }

  /** Reading back the bytes of an `Int16Array` gives its samples, each wrapped to
      16 bits (so 32768 reads back as -32768). */
  lemma Int16ViewOfPcm(samples: seq<int>)
    ensures Int16View(PcmBytes(samples)) == Some(Wrapped(samples))
  {
    var data := PcmBytes(samples);
    var view := Int16View(data).value;
    forall i | 0 <= i < |samples|
      ensures view[i] == ToInt16(samples[i])
    {
      var u := samples[i] % 65536;
      assert data[2 * i] == u % 256 && data[2 * i + 1] == u / 256;
      var lo: int, hi: int := data[2 * i], data[2 * i + 1];
      assert lo + 256 * hi == u;
    }
    assert view == Wrapped(samples);
  }

  /** Frame `i` of a channel reads sample `i * k + c`, which lies inside the
      sample array whenever there are `n / k` frames. */
  lemma FrameIndexInRange(n: nat, k: nat, i: nat, c: nat)
    requires k >= 1 && i < n / k && c < k
    ensures i * k + c < n
  {
    assert (i + 1) * k <= (n / k) * k;
    assert (n / k) * k <= n;
  }

  /** `samples[j]`, read only where `FrameIndexInRange` shows it exists. */
  function SampleAt(samples: seq<int>, j: int): int {
    if 0 <= j < |samples| then samples[j] else 0
  }

  /** `decodeAudioData`: the 16-bit samples de-interleaved into `numChannels`
      channels of `n / numChannels` frames each; `None` where the `Int16Array`
      cannot be built or where there are no frames, since `createBuffer` rejects
      a length of 0. Channel values are the raw samples (the source scales them
      by 1/32768). */
  method DecodeAudioData(data: array<byte>, numChannels: nat) returns (r: Option<array2<int>>)
    requires numChannels >= 1
    ensures r.None? <==> Int16View(data[..]).None? || |Int16View(data[..]).value| / numChannels == 0
    ensures r.Some? ==> fresh(r.value)
    ensures r.Some? ==>
      var samples := Int16View(data[..]).value;
      r.value.Length0 == numChannels && r.value.Length1 == |samples| / numChannels
      && forall c, i :: 0 <= c < numChannels && 0 <= i < r.value.Length1 ==>
        r.value[c, i] == SampleAt(samples, i * numChannels + c)
  {
    var view := Int16View(data[..]);
    if view.None? {
      return None;
    }
    var samples := view.value;
    var frameCount := |samples| / numChannels;
    if frameCount == 0 {
      return None;
    }
    var buffer := new int[numChannels, frameCount];
    for channel := 0 to numChannels
      invariant forall c, i :: 0 <= c < channel && 0 <= i < frameCount ==>
        buffer[c, i] == SampleAt(samples, i * numChannels + c)
    {
      for i := 0 to frameCount
        invariant forall c, j :: 0 <= c < channel && 0 <= j < frameCount ==>
          buffer[c, j] == SampleAt(samples, j * numChannels + c)
        invariant forall j :: 0 <= j < i ==> buffer[channel, j] == SampleAt(samples, j * numChannels + channel)
      {
        FrameIndexInRange(|samples|, numChannels, i, channel);
        buffer[channel, i] := samples[i * numChannels + channel];
      }
    }
    r := Some(buffer);
  }

  // ---------------------------------------------------------------------------
  // The session controller, as values
  // ---------------------------------------------------------------------------

  const InitialStatus := "Kanda buto kugirango utangire."
  const ConnectingStatus := "Turimo guhuza na seriveri..."
  const ListeningStatus := "Wavuga... Ndi kukumva."
  const ErrorStatus := "Habaye ikibazo. Ongera ugerageze."
  const EndedStatus := "Ikiganiro kirangiye. Kanda buto wongere utangire."
  const MicrophoneStatus := "Ntushobora gukoresha mikoro. Reba uburenganzira bwawe."

  /** One finished exchange of the transcript. */
  datatype Turn = Turn(user: string, model: string)

  /** A buffer source started at tick `start`, playing `duration` ticks. */
  datatype Chunk = Chunk(start: nat, duration: nat)

  /** The input audio context and whether the browser reports it 'closed'. */
  datatype InputContext = InputContext(id: nat, closed: bool)

  /** What `stopRecording` releases, one entry per browser call. */
  datatype Release =
    | CloseSession(session: nat)
    | DisconnectProcessor(processor: nat)
    | DisconnectSource(source: nat)
    | CloseContext(context: nat)
    | StopTracks(stream: nat)

  /** The parts of a server message the page reads; `audio` is the inline data of
      the first part of the model turn, absent when any link of that chain is. */
  datatype ServerMessage = ServerMessage(
    outputTranscription: Option<string>,
    inputTranscription: Option<string>,
    turnComplete: bool,
    audio: Option<string>)

  /** Everything the page holds: its state, its refs, the closure variables of
      the running session (`capturedUserText`, `capturedModelText`,
      `nextStartTime`), what was played and what was sent. */
  datatype LiveState = LiveState(
    isConnecting: bool,
    isConnected: bool,
    statusText: string,
    transcription: seq<Turn>,
    currentUserText: string,
    currentModelText: string,
    capturedUserText: string,
    capturedModelText: string,
    session: Option<nat>,
    mediaStream: Option<nat>,
    audioContext: Option<InputContext>,
    scriptProcessor: Option<nat>,
    mediaStreamSource: Option<nat>,
    nextStartTime: nat,
    playback: seq<Chunk>,
    sent: seq<string>)

  function Initial(): LiveState {
    LiveState(false, false, InitialStatus, [], "", "", "", "",
      None, None, None, None, None, 0, [], [])
  }

  function SessionRelease(s: LiveState): seq<Release> {
    if s.session.Some? then [CloseSession(s.session.value)] else []
  }

  function ProcessorRelease(s: LiveState): seq<Release> {
    if s.scriptProcessor.Some? then [DisconnectProcessor(s.scriptProcessor.value)] else []
  }

  function SourceRelease(s: LiveState): seq<Release> {
    if s.mediaStreamSource.Some? then [DisconnectSource(s.mediaStreamSource.value)] else []
  }

  function ContextRelease(s: LiveState): seq<Release> {
    if s.audioContext.Some? && !s.audioContext.value.closed then [CloseContext(s.audioContext.value.id)] else []
  }

  function StreamRelease(s: LiveState): seq<Release> {
    if s.mediaStream.Some? then [StopTracks(s.mediaStream.value)] else []
  }

  /** The calls `stopRecording` makes on the browser objects, in order: one per ref
      that is set, except that a context the browser already reports 'closed' is
      not closed again. */
  function Releases(s: LiveState): (calls: seq<Release>)
    ensures calls == [] <==>
      s.session.None? && s.scriptProcessor.None? && s.mediaStreamSource.None? && s.mediaStream.None?
      && (s.audioContext.None? || s.audioContext.value.closed)
    ensures s.session.Some? ==> CloseSession(s.session.value) in calls
    ensures s.audioContext.Some? ==> (CloseContext(s.audioContext.value.id) in calls <==> !s.audioContext.value.closed)
  {
    SessionRelease(s) + ProcessorRelease(s) + SourceRelease(s) + ContextRelease(s) + StreamRelease(s)
  }

  /** `stopRecording`: every ref is cleared except an input context the browser
      already reports 'closed', the flags drop and the status is the "ended"
      text. */
  function Stop(s: LiveState): (r: LiveState)
    ensures r.session.None? && r.scriptProcessor.None? && r.mediaStreamSource.None? && r.mediaStream.None?
    ensures r.audioContext.None? <==> s.audioContext.None? || !s.audioContext.value.closed
    ensures !r.isConnected && !r.isConnecting && r.statusText == EndedStatus
    ensures r.transcription == s.transcription && r.playback == s.playback
    ensures r.(session := s.session, scriptProcessor := s.scriptProcessor, mediaStreamSource := s.mediaStreamSource,
               audioContext := s.audioContext, mediaStream := s.mediaStream, isConnected := s.isConnected,
               isConnecting := s.isConnecting, statusText := s.statusText) == s
  {
    s.(session := None,
       scriptProcessor := None,
       mediaStreamSource := None,
       audioContext := if s.audioContext.Some? && !s.audioContext.value.closed then None else s.audioContext,
       mediaStream := None,
       isConnected := false,
       isConnecting := false,
       statusText := EndedStatus)
  }

  /** A second `stopRecording` releases nothing and changes nothing. */
  lemma StopIdempotent(s: LiveState)
    ensures Releases(Stop(s)) == []
    ensures Stop(Stop(s)) == Stop(s)
  {
  }

  /** `handleToggleConsultation` up to its `await`: a running or starting session is
      only torn down; otherwise the page enters connecting with an empty transcript.
      The session's callbacks keep the accumulators as they were at this moment. */
  function Toggle(s: LiveState): (r: LiveState)
    ensures s.isConnected || s.isConnecting ==> r == Stop(s)
    ensures !(s.isConnected || s.isConnecting) ==>
      r.isConnecting && r.statusText == ConnectingStatus
      && r.transcription == [] && r.currentUserText == "" && r.currentModelText == ""
      && r.capturedUserText == s.currentUserText && r.capturedModelText == s.currentModelText
      && r.(isConnecting := s.isConnecting, statusText := s.statusText, transcription := s.transcription,
            currentUserText := s.currentUserText, currentModelText := s.currentModelText,
            capturedUserText := s.capturedUserText, capturedModelText := s.capturedModelText) == s
  {
    if s.isConnected || s.isConnecting then Stop(s)
    else s.(isConnecting := true,
            statusText := ConnectingStatus,
            transcription := [],
            currentUserText := "",
            currentModelText := "",
            capturedUserText := s.currentUserText,
            capturedModelText := s.currentModelText)
  }

  /** The microphone was granted: the stream is kept, a fresh scheduler starts at
      tick 0, and the session is requested. */
  function MicrophoneGranted(s: LiveState, stream: nat, session: nat): (r: LiveState)
    ensures r.nextStartTime == 0 && r.playback == []
    ensures r.mediaStream == Some(stream) && r.session == Some(session)
    ensures r.(mediaStream := s.mediaStream, nextStartTime := s.nextStartTime, playback := s.playback, session := s.session) == s
  {
    s.(mediaStream := Some(stream), nextStartTime := 0, playback := [], session := Some(session))
  }

  /** `getUserMedia` failed. */
  function MicrophoneDenied(s: LiveState): (r: LiveState)
    ensures r.statusText == MicrophoneStatus && !r.isConnecting
    ensures r.(statusText := s.statusText, isConnecting := s.isConnecting) == s
  {
    s.(statusText := MicrophoneStatus, isConnecting := false)
  }

  /** `onopen`: the input graph is built and the page is connected. */
  function Opened(s: LiveState, context: InputContext, source: nat, processor: nat): (r: LiveState)
    ensures r.isConnected && !r.isConnecting && r.statusText == ListeningStatus
    ensures r.audioContext == Some(context) && r.mediaStreamSource == Some(source) && r.scriptProcessor == Some(processor)
    ensures r.(audioContext := s.audioContext, mediaStreamSource := s.mediaStreamSource, scriptProcessor := s.scriptProcessor,
               isConnecting := s.isConnecting, isConnected := s.isConnected, statusText := s.statusText) == s
  {
    s.(audioContext := Some(context), mediaStreamSource := Some(source), scriptProcessor := Some(processor),
       isConnecting := false, isConnected := true, statusText := ListeningStatus)
  }

  /** `onerror`: the error text is set, then `stopRecording` replaces it. */
  function Errored(s: LiveState): (r: LiveState)
    ensures r == Stop(s)
    ensures r.statusText == EndedStatus
  {
    Stop(s.(statusText := ErrorStatus))
  }

  function TextOf(fragment: Option<string>): string {
    if fragment.Some? then fragment.value else ""
  }

  /** The transcript part of `onmessage`: fragments are appended to the
      accumulators; a completed turn appends the pair the session's closure
      captured and empties both accumulators. */
  function Transcribe(s: LiveState, m: ServerMessage): (r: LiveState)
    ensures !m.turnComplete ==>
      r.currentModelText == s.currentModelText + TextOf(m.outputTranscription)
      && r.currentUserText == s.currentUserText + TextOf(m.inputTranscription)
      && r.transcription == s.transcription
    ensures m.turnComplete ==>
      r.transcription == s.transcription + [Turn(s.capturedUserText, s.capturedModelText)]
      && r.currentUserText == "" && r.currentModelText == ""
    ensures r.(transcription := s.transcription, currentUserText := s.currentUserText, currentModelText := s.currentModelText) == s
  {
    var model := s.currentModelText + TextOf(m.outputTranscription);
    var user := s.currentUserText + TextOf(m.inputTranscription);
    if m.turnComplete then
      s.(transcription := s.transcription + [Turn(s.capturedUserText, s.capturedModelText)],
         currentUserText := "", currentModelText := "")
    else s.(currentUserText := user, currentModelText := model)
  }

  /** The number of frames in a base64 audio payload, or `None` where `decode` or
      `decodeAudioData` throws: the text is not base 64, the byte count is odd,
      or there is no sample at all. */
  function ChunkFrames(audio: string): (n: Option<nat>)
    ensures n.Some? ==> n.value >= 1
  {
    match Base64.Decode(audio)
    case None => None
    case Some(bytes) =>
      match Int16View(bytes)
      case None => None
      case Some(samples) => if |samples| == 0 then None else Some(|samples|)
  }

  function Max(a: nat, b: nat): (m: nat)
    ensures m >= a && m >= b && (m == a || m == b)
  {
    if a >= b then a else b
  }

  /** The audio part of `onmessage`: the chunk starts at the later of the
      scheduler's time and the clock, and the scheduler moves past its end. The
      scheduler has already moved to the start when decoding throws. */
  function Schedule(s: LiveState, audio: string, now: nat): (r: LiveState)
    ensures ChunkFrames(audio).None? ==> r.playback == s.playback && r.nextStartTime == Max(s.nextStartTime, now)
    ensures ChunkFrames(audio).Some? ==>
      var start := Max(s.nextStartTime, now);
      r.playback == s.playback + [Chunk(start, ChunkFrames(audio).value)]
      && r.nextStartTime == start + ChunkFrames(audio).value
    ensures r.(nextStartTime := s.nextStartTime, playback := s.playback) == s
  {
    var start := Max(s.nextStartTime, now);
    match ChunkFrames(audio)
    case None => s.(nextStartTime := start)
    case Some(frames) => s.(nextStartTime := start + frames, playback := s.playback + [Chunk(start, frames)])
  }

  /** `onmessage` at clock tick `now`. An empty or absent payload schedules nothing. */
  function Receive(s: LiveState, m: ServerMessage, now: nat): LiveState {
    var t := Transcribe(s, m);
    if m.audio.Some? && m.audio.value != "" then Schedule(t, m.audio.value, now) else t
  }

  /** `onaudioprocess`: the frame is wrapped to 16 bits, base64-encoded, and sent
      only while the session ref is set. */
  function Forward(s: LiveState, frame: seq<int>): (r: LiveState)
    ensures s.session.None? ==> r == s
    ensures s.session.Some? ==>
      |r.sent| == |s.sent| + 1 && r.sent[..|s.sent|] == s.sent
      && Base64.Decode(r.sent[|s.sent|]).Some?
      && Int16View(Base64.Decode(r.sent[|s.sent|]).value) == Some(Wrapped(frame))
    ensures r.(sent := s.sent) == s
  {
    if s.session.Some? then
      Int16ViewOfPcm(frame);
      Base64.DecodeEncode(PcmBytes(frame));
      s.(sent := s.sent + [Base64.Encode(PcmBytes(frame))])
    else s
  }

  // ---------------------------------------------------------------------------
  // Properties of the scheduler and the transcript
  // ---------------------------------------------------------------------------

  /** Each chunk ends no later than the next one starts, and the scheduler's time
      is no earlier than the end of the last one. */
  predicate GapFree(playback: seq<Chunk>, next: nat) {
    (forall i :: 0 <= i < |playback| - 1 ==> playback[i].start + playback[i].duration <= playback[i + 1].start)
    && (|playback| > 0 ==> playback[|playback| - 1].start + playback[|playback| - 1].duration <= next)
  }

  predicate Scheduled(s: LiveState) {
    GapFree(s.playback, s.nextStartTime)
  }

  lemma InitialScheduled()
    ensures Scheduled(Initial())
  {
  }

  /** Scheduling a chunk keeps the playback gap-free. */
  lemma ScheduleKeepsGapFree(s: LiveState, audio: string, now: nat)
    requires Scheduled(s)
    ensures Scheduled(Schedule(s, audio, now))
  {
    var r := Schedule(s, audio, now);
    if ChunkFrames(audio).Some? {
      var n := |s.playback|;
      assert r.playback[..n] == s.playback;
      assert n > 0 ==> r.playback[n - 1] == s.playback[n - 1];
    }
  }

  /** Every message keeps the playback gap-free. */
  lemma ReceiveKeepsSchedule(s: LiveState, m: ServerMessage, now: nat)
    requires Scheduled(s)
    ensures Scheduled(Receive(s, m, now))
  {
    if m.audio.Some? && m.audio.value != "" {
      ScheduleKeepsGapFree(Transcribe(s, m), m.audio.value, now);
    }
  }

  /** The other events leave the schedule alone, or restart it. */
  lemma EventsKeepSchedule(s: LiveState, stream: nat, session: nat, context: InputContext, source: nat, processor: nat, frame: seq<int>)
    requires Scheduled(s)
    ensures Scheduled(Stop(s)) && Scheduled(Toggle(s)) && Scheduled(Errored(s))
    ensures Scheduled(MicrophoneGranted(s, stream, session)) && Scheduled(MicrophoneDenied(s))
    ensures Scheduled(Opened(s, context, source, processor)) && Scheduled(Forward(s, frame))
  {
  }

  /** In a gap-free schedule every chunk ends before any later one starts, so start
      times never decrease. */
  lemma {:induction false} GapFreeOrdered(playback: seq<Chunk>, next: nat, i: int, j: int)
    requires GapFree(playback, next)
    requires 0 <= i < j < |playback|
    ensures playback[i].start + playback[i].duration <= playback[j].start
    ensures playback[i].start <= playback[j].start
    decreases j - i
  {
    if j > i + 1 {
      GapFreeOrdered(playback, next, i + 1, j);
    }
  }

  /** The state after a run of messages, each with its clock reading. */
  function ReceiveAll(s: LiveState, ms: seq<(ServerMessage, nat)>): LiveState
    decreases |ms|
  {
    if ms == [] then s else ReceiveAll(Receive(s, ms[0].0, ms[0].1), ms[1..])
  }

  predicate NoTurnComplete(ms: seq<(ServerMessage, nat)>) {
    forall k :: 0 <= k < |ms| ==> !ms[k].0.turnComplete
  }

  /** The fragments of the model's speech, in arrival order. */
  function ModelFragments(ms: seq<(ServerMessage, nat)>): string
    decreases |ms|
  {
    if ms == [] then "" else TextOf(ms[0].0.outputTranscription) + ModelFragments(ms[1..])
  }

  /** The fragments of the patient's speech, in arrival order. */
  function UserFragments(ms: seq<(ServerMessage, nat)>): string
    decreases |ms|
  {
    if ms == [] then "" else TextOf(ms[0].0.inputTranscription) + UserFragments(ms[1..])
  }

  /** Until a turn completes, the accumulators are their old text followed by every
      fragment in arrival order, and the transcript does not change. */
  lemma {:induction false} FragmentsAccumulate(s: LiveState, ms: seq<(ServerMessage, nat)>)
    requires NoTurnComplete(ms)
    ensures ReceiveAll(s, ms).currentModelText == s.currentModelText + ModelFragments(ms)
    ensures ReceiveAll(s, ms).currentUserText == s.currentUserText + UserFragments(ms)
    ensures ReceiveAll(s, ms).transcription == s.transcription
    decreases |ms|
  {
    if ms != [] {
      var t := Receive(s, ms[0].0, ms[0].1);
      assert NoTurnComplete(ms[1..]) by {
        forall k | 0 <= k < |ms[1..]| ensures !ms[1..][k].0.turnComplete {
          assert ms[1..][k] == ms[k + 1];
        }
      }
      FragmentsAccumulate(t, ms[1..]);
      assert t.currentModelText == s.currentModelText + TextOf(ms[0].0.outputTranscription);
      assert t.currentUserText == s.currentUserText + TextOf(ms[0].0.inputTranscription);
    }
  }

  /** A completed turn grows the transcript by one entry, the pair captured when
      the session started, and empties both accumulators. */
  lemma TurnCompleteAppendsOne(s: LiveState, m: ServerMessage, now: nat)
    requires m.turnComplete
    ensures var r := Receive(s, m, now);
      |r.transcription| == |s.transcription| + 1
      && r.transcription[..|s.transcription|] == s.transcription
      && r.transcription[|s.transcription|] == Turn(s.capturedUserText, s.capturedModelText)
      && r.currentUserText == "" && r.currentModelText == ""
  {
    var t := Transcribe(s, m);
    assert t.transcription[..|s.transcription|] == s.transcription;
  }

  /** A started consultation whose first turn completes records the accumulators
      of the moment the button was pressed, not the text heard since. */
  lemma FirstTurnIsStale(s: LiveState, stream: nat, session: nat, m: ServerMessage, now: nat)
    requires !s.isConnected && !s.isConnecting
    requires m.turnComplete
    ensures Receive(MicrophoneGranted(Toggle(s), stream, session), m, now).transcription
      == [Turn(s.currentUserText, s.currentModelText)]
  {
  }

  // ---------------------------------------------------------------------------
  // The page object
  // ---------------------------------------------------------------------------

  /** The page with its React state, refs and session closure variables as fields.
      Each handler is proved to take `State()` to the value the functions above
      give. */
  class LiveSession {
    var isConnecting: bool
    var isConnected: bool
    var statusText: string
    var transcription: seq<Turn>
    var currentUserText: string
    var currentModelText: string
    var capturedUserText: string
    var capturedModelText: string
    var session: Option<nat>
    var mediaStream: Option<nat>
    var audioContext: Option<InputContext>
    var scriptProcessor: Option<nat>
    var mediaStreamSource: Option<nat>
    var nextStartTime: nat
    var playback: seq<Chunk>
    var sent: seq<string>

    function State(): LiveState
      reads this
    {
      LiveState(isConnecting, isConnected, statusText, transcription, currentUserText, currentModelText,
        capturedUserText, capturedModelText, session, mediaStream, audioContext, scriptProcessor,
        mediaStreamSource, nextStartTime, playback, sent)
    }

    predicate Valid()
      reads this
    {
      Scheduled(State())
    }

    constructor()
      ensures State() == Initial() && Valid()
    {
      isConnecting, isConnected, statusText := false, false, InitialStatus;
      transcription, currentUserText, currentModelText := [], "", "";
      capturedUserText, capturedModelText := "", "";
      session, mediaStream, audioContext, scriptProcessor, mediaStreamSource := None, None, None, None, None;
      nextStartTime, playback, sent := 0, [], [];
    }

    /** `stopRecording`, also run on unmount and on `onclose`; `calls` are the
        browser calls it makes. */
    method StopRecording() returns (calls: seq<Release>)
      requires Valid()
      modifies this
      ensures State() == Stop(old(State()))
      ensures calls == Releases(old(State()))
      ensures Valid()
    {
      var c1 := ReleaseSession();
      var c2 := ReleaseProcessor();
      var c3 := ReleaseSource();
      var c4 := ReleaseContext();
      var c5 := ReleaseStream();
      calls := c1 + c2 + c3 + c4 + c5;
      isConnected := false;
      isConnecting := false;
      statusText := EndedStatus;
    }

    method ReleaseSession() returns (calls: seq<Release>)
      modifies this
      ensures State() == old(State()).(session := None)
      ensures calls == SessionRelease(old(State()))
    {
      calls := [];
      if session.Some? {
        calls := [CloseSession(session.value)];
        session := None;
      }
    }

    method ReleaseProcessor() returns (calls: seq<Release>)
      modifies this
      ensures State() == old(State()).(scriptProcessor := None)
      ensures calls == ProcessorRelease(old(State()))
    {
      calls := [];
      if scriptProcessor.Some? {
        calls := [DisconnectProcessor(scriptProcessor.value)];
        scriptProcessor := None;
      }
    }

    method ReleaseSource() returns (calls: seq<Release>)
      modifies this
      ensures State() == old(State()).(mediaStreamSource := None)
      ensures calls == SourceRelease(old(State()))
    {
      calls := [];
      if mediaStreamSource.Some? {
        calls := [DisconnectSource(mediaStreamSource.value)];
        mediaStreamSource := None;
      }
    }

    method ReleaseContext() returns (calls: seq<Release>)
      modifies this
      ensures old(audioContext).Some? && !old(audioContext).value.closed ==> State() == old(State()).(audioContext := None)
      ensures !(old(audioContext).Some? && !old(audioContext).value.closed) ==> State() == old(State())
      ensures calls == ContextRelease(old(State()))
    {
      calls := [];
      if audioContext.Some? && !audioContext.value.closed {
        calls := [CloseContext(audioContext.value.id)];
        audioContext := None;
      }
    }

    method ReleaseStream() returns (calls: seq<Release>)
      modifies this
      ensures State() == old(State()).(mediaStream := None)
      ensures calls == StreamRelease(old(State()))
    {
      calls := [];
      if mediaStream.Some? {
        calls := [StopTracks(mediaStream.value)];
        mediaStream := None;
      }
    }

    /** `handleToggleConsultation` up to the microphone request. The session's
        callbacks are created here, with the accumulators of this render. */
    method ToggleConsultation()
      requires Valid()
      modifies this
      ensures State() == Toggle(old(State()))
      ensures Valid()
    {
      if isConnected || isConnecting {
        var _ := StopRecording();
        return;
      }
      capturedUserText, capturedModelText := currentUserText, currentModelText;
      EnterConnecting();
      ClearTranscript();
    }

    method EnterConnecting()
      modifies this
      ensures State() == old(State()).(isConnecting := true, statusText := ConnectingStatus)
    {
      isConnecting := true;
      statusText := ConnectingStatus;
    }

    method ClearTranscript()
      modifies this
      ensures State() == old(State()).(transcription := [], currentUserText := "", currentModelText := "")
    {
      transcription := [];
      currentUserText := "";
      currentModelText := "";
    }

    /** The rest of `handleToggleConsultation` once `getUserMedia` resolves. */
    method OnMicrophoneGranted(stream: nat, handle: nat)
      requires Valid()
      modifies this
      ensures State() == MicrophoneGranted(old(State()), stream, handle)
      ensures Valid()
    {
      mediaStream := Some(stream);
      nextStartTime := 0;
      playback := [];
      session := Some(handle);
    }

    /** The `catch` of `handleToggleConsultation`. */
    method OnMicrophoneDenied()
      requires Valid()
      modifies this
      ensures State() == MicrophoneDenied(old(State()))
      ensures Valid()
    {
      statusText := MicrophoneStatus;
      isConnecting := false;
    }

    /** `onopen`: the input graph is built, then the page shows it is listening. */
    method OnOpen(context: InputContext, source: nat, processor: nat)
      requires Valid()
      modifies this
      ensures State() == Opened(old(State()), context, source, processor)
      ensures Valid()
    {
      AttachInput(context, source, processor);
      MarkListening();
    }

    method AttachInput(context: InputContext, source: nat, processor: nat)
      modifies this
      ensures State() == old(State()).(audioContext := Some(context), mediaStreamSource := Some(source), scriptProcessor := Some(processor))
    {
      audioContext := Some(context);
      mediaStreamSource := Some(source);
      scriptProcessor := Some(processor);
    }

    method MarkListening()
      modifies this
      ensures State() == old(State()).(isConnecting := false, isConnected := true, statusText := ListeningStatus)
    {
      isConnecting := false;
      isConnected := true;
      statusText := ListeningStatus;
    }

    method OnError()
      requires Valid()
      modifies this
      ensures State() == Errored(old(State()))
      ensures Valid()
    {
      statusText := ErrorStatus;
      var _ := StopRecording();
    }

    /** `onmessage`, decoding the audio with `decode` and `decodeAudioData`. */
    method OnMessage(m: ServerMessage, now: nat)
      requires Valid()
      modifies this
      ensures State() == Receive(old(State()), m, now)
      ensures Valid()
    {
      AccumulateTranscript(m);
      if m.audio.Some? && m.audio.value != "" {
        PlayAudio(m.audio.value, now);
      }
    }

    /** The transcription part of `onmessage`. */
    method AccumulateTranscript(m: ServerMessage)
      requires Valid()
      modifies this
      ensures State() == Transcribe(old(State()), m)
      ensures Valid()
    {
      if m.outputTranscription.Some? {
        currentModelText := currentModelText + m.outputTranscription.value;
      }
      if m.inputTranscription.Some? {
        currentUserText := currentUserText + m.inputTranscription.value;
      }
      if m.turnComplete {
        transcription := transcription + [Turn(capturedUserText, capturedModelText)];
        currentUserText := "";
        currentModelText := "";
      }
    }

    /** The audio part of `onmessage`: decode, then start a buffer source at the
        scheduler's time and move the scheduler past it. */
    method PlayAudio(audio: string, now: nat)
      requires Valid()
      modifies this
      ensures State() == Schedule(old(State()), audio, now)
      ensures Valid()
    {
      ScheduleKeepsGapFree(State(), audio, now);
      nextStartTime := Max(nextStartTime, now);
      var bytes := Decode(audio);
      if bytes.None? {
        return;
      }
      var buffer := DecodeAudioData(bytes.value, 1);
      if buffer.None? {
        return;
      }
      var duration := buffer.value.Length1;
      playback := playback + [Chunk(nextStartTime, duration)];
      nextStartTime := nextStartTime + duration;
    }

    /** `onaudioprocess` with the frame already truncated to integers. */
    method OnAudioProcess(frame: seq<int>)
      requires Valid()
      modifies this
      ensures State() == Forward(old(State()), frame)
      ensures Valid()
    {
      var pcm := PcmBytes(frame);
      var bytes := new byte[|pcm|](i requires 0 <= i < |pcm| => pcm[i]);
      assert bytes[..] == pcm;
      var data := Encode(bytes);
      if session.Some? {
        sent := sent + [data];
      }
    }
  }
}
