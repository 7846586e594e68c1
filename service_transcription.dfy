/** `TranscriptionService.process`: download the audio, transcribe it, save the
    transcription as finished and return it; any failure is re-raised. */
module TranscriptionService {
  import opened Wrappers
  import opened Documents
  import opened TranscriptionModel
  import opened Store
  import opened Oracles
  import opened TranscriptionRepository

  /** The prompt that biases the transcriber towards clinical vocabulary; it is
      also stored as the transcription's `context`. */
  const MedicalContext: string :=
    "Medical consultation recording. It may contain technical medical terminology, patient symptoms, diagnosis, treatment plan, medications, or clinical observations."

  /** Decimal digits of a natural number, as `str` writes them. */
  function NatText(n: nat): (r: string)
    ensures |r| >= 1 && forall i :: 0 <= i < |r| ==> '0' <= r[i] <= '9'
    decreases n
  {
    var d := ['0' + (n % 10) as char];
    if n < 10 then d else NatText(n / 10) + d
  }

  function IntText(n: int): string {
    if n < 0 then "-" + NatText(-n) else NatText(n)
  }

  /** `raise_for_status`: 4xx is a client error and 5xx a server error; any
      other status passes. */
  function RaiseForStatus(resp: HttpResponse, url: string): (r: Outcome)
    ensures r.Pass? <==> !(400 <= resp.statusCode < 600)
    ensures r.Fail? ==>
      r.error == IntText(resp.statusCode) + (if resp.statusCode < 500 then " Client Error: " else " Server Error: ")
                 + resp.reason + " for url: " + url
  {
    if 400 <= resp.statusCode < 500 then
      Fail(IntText(resp.statusCode) + " Client Error: " + resp.reason + " for url: " + url)
    else if 500 <= resp.statusCode < 600 then
      Fail(IntText(resp.statusCode) + " Server Error: " + resp.reason + " for url: " + url)
    else
      Pass
  }

  function AudioFileName(sessionId: string): string {
    "audio_" + sessionId + ".mp3"
  }

  /** `_download_audio`: the body of a successful response, named after the session. */
  function DownloadResult(caps: Capabilities, url: string, sessionId: string): (r: Result<AudioFile>)
    ensures r.Success? <==> caps.fetch(url).Success? && !(400 <= caps.fetch(url).value.statusCode < 600)
    ensures r.Success? ==> r.value == AudioFile(caps.fetch(url).value.content, AudioFileName(sessionId))
    ensures caps.fetch(url).Failure? ==> r == Failure(caps.fetch(url).error)
  {
    var resp :- caps.fetch(url);
    var status := RaiseForStatus(resp, url);
    if status.Fail? then Failure(status.error)
    else Success(AudioFile(resp.content, AudioFileName(sessionId)))
  }

  /** What `_transcribe_audio` returns: the transcriber's text, language and
      duration, and the prompt used as context. */
  datatype TranscriptionResult = TranscriptionResult(text: string, language: string, duration: real, context: string)

  function TranscribeResult(caps: Capabilities, file: AudioFile): (r: Result<TranscriptionResult>)
    ensures r.Success? <==> caps.transcribe(file, MedicalContext).Success?
    ensures r.Success? ==>
      var w := caps.transcribe(file, MedicalContext).value;
      r.value == TranscriptionResult(w.text, w.language, w.duration, MedicalContext)
  {
    var w :- caps.transcribe(file, MedicalContext);
    Success(TranscriptionResult(w.text, w.language, w.duration, MedicalContext))
  }

  /** The record built from a transcription result; `language` is not a field
      of the model and is dropped. */
  function FinishedTranscription(sessionId: string, url: string, res: TranscriptionResult): (t: Transcription)
    ensures t.sessionId == sessionId && t.audioUrl == Some(url)
    ensures t.text == Some(res.text) && t.duration == Some(res.duration) && t.context == Some(res.context)
    ensures t.status == Some(TranscriptionFinished) && t.errorMessage == None
    ensures t.createdAt == ServerTimestamp && t.updatedAt == None
  {
    NewTranscription(sessionId, Some(res.text)).(
      audioUrl := Some(url), context := Some(res.context), duration := Some(res.duration),
      status := Some(TranscriptionFinished))
  }

  /** The whole of `process` on the store's value. A failure at any step
      leaves every document as it was; a success has made exactly the two
      calls and then one accepted save, the saved document reads back as the
      returned, finished transcription, and its text is the transcriber's. */
  function ProcessSpec(s: StoreState, caps: Capabilities, url: string, sessionId: string)
    : (r: (StoreState, Result<Transcription>))
    ensures r.0.down == s.down
    ensures r.1.Failure? ==> r.0.docs == s.docs
    ensures r.1.Success? ==>
      var t := r.1.value;
      && t.sessionId == sessionId && t.audioUrl == Some(url) && t.context == Some(MedicalContext)
      && t.status == Some(TranscriptionFinished)
      && r.0.journal == s.journal + [Call(DownloadAudio(url)), Call(TranscribeAudio), Attempt(SaveTranscriptionWrite(t), true)]
      && TranscriptionKey(sessionId) in r.0.docs
      && ParseTranscription(r.0.docs[TranscriptionKey(sessionId)]) == Success(t)
      && var file := DownloadResult(caps, url, sessionId);
         file.Success? && caps.transcribe(file.value, MedicalContext).Success?
         && t.text == Some(caps.transcribe(file.value, MedicalContext).value.text)
  {
    var s1 := Record(s, DownloadAudio(url));
    var file := DownloadResult(caps, url, sessionId);
    if file.Failure? then (s1, Failure(file.error))
    else
      var s2 := Record(s1, TranscribeAudio);
      var res := TranscribeResult(caps, file.value);
      if res.Failure? then (s2, Failure(res.error))
      else
        var t := FinishedTranscription(sessionId, url, res.value);
        var (s3, o) := Apply(s2, SaveTranscriptionWrite(t));
        if o.Fail? then (s3, Failure(o.error)) else (s3, Success(t))
  }

  method Download(store: RecordStore, caps: Capabilities, url: string, sessionId: string) returns (r: Result<AudioFile>)
    modifies store
    ensures store.State() == Record(old(store.State()), DownloadAudio(url))
    ensures r == DownloadResult(caps, url, sessionId)
  {
    store.CallExternal(DownloadAudio(url));
    r := DownloadResult(caps, url, sessionId);
  }

  method Transcribe(store: RecordStore, caps: Capabilities, file: AudioFile) returns (r: Result<TranscriptionResult>)
    modifies store
    ensures store.State() == Record(old(store.State()), TranscribeAudio)
    ensures r == TranscribeResult(caps, file)
  {
    store.CallExternal(TranscribeAudio);
    r := TranscribeResult(caps, file);
  }

  method Process(store: RecordStore, caps: Capabilities, url: string, sessionId: string) returns (r: Result<Transcription>)
    modifies store
    ensures (store.State(), r) == ProcessSpec(old(store.State()), caps, url, sessionId)
  {
    var file := Download(store, caps, url, sessionId);
    if file.Failure? {
      return Failure(file.error);
    }
    var res := Transcribe(store, caps, file.value);
    if res.Failure? {
      return Failure(res.error);
    }
    var t := FinishedTranscription(sessionId, url, res.value);
    var o := SaveTranscription(store, t);
    if o.Fail? {
      return Failure(o.error);
    }
    r := Success(t);
  }
}
