/**
 * The IPC handlers of the main process (electron/main.js) that carry logic: `save-settings`,
 * `transcribe-audio` with its one-in-flight flag, and `get-ai-answer`. The configuration store is a map
 * from setting names to values; the remote services are functions of the request and the attempt number.
 */
module MainProcess {
  import opened Wrappers
  import opened Json
  import opened Retry
  import opened AnswerParsing

  type Store = map<string, Json>

  /** `store.get(key)`: `undefined` for a missing key. */
  function Get(store: Store, key: string): (v: Json)
    ensures key !in store ==> v == Undefined
  {
    if key in store then store[key] else Undefined
  }

  // ---------------------------------------------------------------- save-settings

  /** One entry of `save-settings`: a null or undefined value deletes the key, any other value sets it. */
  function ApplyEntry(store: Store, entry: (string, Json)): (r: Store)
    ensures IsNullish(entry.1) ==> entry.0 !in r
    ensures !IsNullish(entry.1) ==> entry.0 in r && r[entry.0] == entry.1
    ensures forall k :: k != entry.0 ==> (k in r <==> k in store) && (k in store ==> r[k] == store[k])
  {
    if IsNullish(entry.1) then store - {entry.0} else store[entry.0 := entry.1]
  }

  /** The store after applying the entries in order. */
  function Merge(store: Store, entries: seq<(string, Json)>): (r: Store)
    ensures forall k :: k in r ==> k in store || exists i :: 0 <= i < |entries| && entries[i].0 == k
    decreases |entries|
  {
    if entries == [] then store
    else ApplyEntry(Merge(store, entries[..|entries| - 1]), entries[|entries| - 1])
  }

  /** A key no entry names keeps its presence and its value. */
  lemma {:induction false} MergeKeepsUnnamedKeys(store: Store, entries: seq<(string, Json)>, key: string)
    requires forall i :: 0 <= i < |entries| ==> entries[i].0 != key
    ensures key in Merge(store, entries) <==> key in store
    ensures key in store ==> Merge(store, entries)[key] == store[key]
    decreases |entries|
  {
    if entries != [] {
      MergeKeepsUnnamedKeys(store, entries[..|entries| - 1], key);
    }
  }

  /** The last entry naming a key decides it: deleted when its value is nullish, set to it otherwise. */
  lemma {:induction false} MergeLastEntryWins(store: Store, entries: seq<(string, Json)>, i: nat)
    requires i < |entries|
    requires forall j :: i < j < |entries| ==> entries[j].0 != entries[i].0
    ensures IsNullish(entries[i].1) ==> entries[i].0 !in Merge(store, entries)
    ensures !IsNullish(entries[i].1) ==>
      entries[i].0 in Merge(store, entries) && Merge(store, entries)[entries[i].0] == entries[i].1
    decreases |entries|
  {
    var key := entries[i].0;
    if i < |entries| - 1 {
      var init := entries[..|entries| - 1];
      assert init[i] == entries[i];
      MergeLastEntryWins(store, init, i);
    }
  }

  /** The members `Object.entries(settings)` enumerates: an object's members, an array's indexed items, nothing for a primitive. */
  function SettingsEntries(settings: Json): (r: seq<(string, Json)>)
    ensures settings.Obj? ==> r == settings.members
    ensures settings.Arr? ==> |r| == |settings.items| && forall i :: 0 <= i < |r| ==> r[i].1 == settings.items[i]
    ensures settings.Arr? ==> forall i :: 0 <= i < |r| ==> r[i].0 == Text.IntToString(i)
    ensures !settings.Obj? && !settings.Arr? ==> r == []
  {
    match settings
    case Obj(ms) => ms
    case Arr(items) => seq(|items|, i requires 0 <= i < |items| => (Text.IntToString(i), items[i]))
    case _ => []
  }

  /** The message of the TypeError `Object.entries(null)` raises. */
  const NullSettingsMessage: string := "Cannot convert undefined or null to object"

  // ---------------------------------------------------------------- transcribe-audio

  /** The speech-to-text services of `TRANSCRIPTION_PROVIDERS`. */
  datatype TranscriptionService = GroqWhisper | OpenAIWhisper

  /** One request to the speech-to-text service: service, key, base64 audio, optional language (or undefined). */
  datatype TranscriptionJob = TranscriptionJob(service: TranscriptionService, apiKey: Json, audio: string, language: Json)

  /** What the first, synchronous part of `transcribe-audio` decides. */
  datatype Admission = Rejected(reply: IpcReply<Json>) | Admitted(job: TranscriptionJob)

  const InProgressMessage: string := "Transcription already in progress"
  const GroqKeyMissingMessage: string := "Groq API key not set. Get a free key at console.groq.com"
  const OpenAIKeyMissingMessage: string := "OpenAI API key not set"
  const AnthropicKeyMissingMessage: string := "Anthropic API key not set"

  /** `store.get('transcriptionProvider') || 'groq'`. */
  function TranscriptionProviderSetting(store: Store): Json {
    var v := Get(store, "transcriptionProvider");
    if Truthy(v) then v else Str("groq")
  }

  /** Groq when the setting is "groq"; the OpenAI service for every other value. */
  function ServiceOf(store: Store): TranscriptionService {
    if TranscriptionProviderSetting(store) == Str("groq") then GroqWhisper else OpenAIWhisper
  }

  function TranscriptionKeyName(service: TranscriptionService): string {
    if service == GroqWhisper then "groqApiKey" else "openaiApiKey"
  }

  // ---------------------------------------------------------------- get-ai-answer

  /** The answer services `get-ai-answer` can call. */
  datatype AnswerService = GroqChat | ClaudeChat | OpenAIChat

  /** One request to the answer service: service, key, model name and the two prompt messages. */
  datatype ChatRequest = ChatRequest(service: AnswerService, apiKey: Json, model: Json, messages: Messages)

  /** What the main process sends to the overlay and control panel while answering. */
  datatype Notice = QuestionProcessing | NewAnswer(to: Surface, answer: Parsed)

  /** `store.get('aiProvider') || 'groq'`, then "groq", "claude" or anything else (OpenAI). */
  function AnswerServiceOf(store: Store): AnswerService {
    var v := Get(store, "aiProvider");
    var provider := if Truthy(v) then v else Str("groq");
    if provider == Str("groq") then GroqChat
    else if provider == Str("claude") then ClaudeChat
    else OpenAIChat
  }

  function AnswerKeyName(service: AnswerService): string {
    match service
    case GroqChat => "groqApiKey"
    case ClaudeChat => "anthropicApiKey"
    case OpenAIChat => "openaiApiKey"
  }

  function AnswerKeyMissingMessage(service: AnswerService): string {
    match service
    case GroqChat => GroqKeyMissingMessage
    case ClaudeChat => AnthropicKeyMissingMessage
    case OpenAIChat => OpenAIKeyMissingMessage
  }

  /** The configured model name, or the service's default model. */
  function ModelOf(store: Store, service: AnswerService): Json {
    var (key, default) := match service
      case GroqChat => ("groqModel", "llama-3.1-70b-versatile")
      case ClaudeChat => ("claudeModel", "claude-sonnet-4-20250514")
      case OpenAIChat => ("openaiModel", "gpt-4o");
    var v := Get(store, key);
    if Truthy(v) then v else Str(default)
  }

  /** The `new-answer` messages `broadcastAnswer` sends for one parsed answer. */
  function AnswerNotices(p: Parsed, overlayAlive: bool, panelAlive: bool): (r: seq<Notice>)
    ensures !Truthy(p.hasQuestion) ==> r == []
    ensures |r| == |Broadcast(p, overlayAlive, panelAlive)|
    ensures forall i :: 0 <= i < |r| ==> r[i] == NewAnswer(Broadcast(p, overlayAlive, panelAlive)[i], p)
  {
    var to := Broadcast(p, overlayAlive, panelAlive);
    seq(|to|, i requires 0 <= i < |to| => NewAnswer(to[i], p))
  }

  /** The attempts every remote call of the main process gets. */
  const Attempts: nat := 3

  /** The main process's state: the persisted configuration and the transcription flag. */
  class MainProcess {
    var store: Store
    var transcribeInFlight: bool

    constructor (initial: Store)
      ensures store == initial && !transcribeInFlight
    {
      store := initial;
      transcribeInFlight := false;
    }

    /** `save-settings`: apply the entries of the settings object in order. */
    method SaveSettings(settings: Json) returns (reply: IpcReply<()>)
      modifies this`store
      ensures settings.Null? ==> reply == Failure(NullSettingsMessage) && store == old(store)
      ensures !settings.Null? ==> reply == Success(()) && store == Merge(old(store), SettingsEntries(settings))
    {
      if settings.Null? {
        return Failure(NullSettingsMessage);
      }
      var entries := SettingsEntries(settings);
      var i := 0;
      while i < |entries|
        invariant 0 <= i <= |entries|
        invariant store == Merge(old(store), entries[..i])
      {
        var (k, v) := entries[i];
        if IsNullish(v) {
          store := store - {k};
        } else {
          store := store[k := v];
        }
        assert entries[..i + 1][..i] == entries[..i];
        i := i + 1;
      }
      assert entries[..i] == entries;
      reply := Success(());
    }

    /**
     * The part of `transcribe-audio` that runs before its first `await`: refuse while another
     * transcription is in flight, look up the key, and raise the flag for an admitted request.
     */
    method BeginTranscription(base64Audio: string) returns (a: Admission)
      modifies this`transcribeInFlight
      ensures old(transcribeInFlight) ==> a == Rejected(Failure(InProgressMessage)) && transcribeInFlight
      ensures !old(transcribeInFlight) && !Truthy(Get(store, TranscriptionKeyName(ServiceOf(store)))) ==>
        a == Rejected(Failure(if ServiceOf(store) == GroqWhisper then GroqKeyMissingMessage else OpenAIKeyMissingMessage))
        && !transcribeInFlight
      ensures !old(transcribeInFlight) && Truthy(Get(store, TranscriptionKeyName(ServiceOf(store)))) ==>
        var lang := Get(store, "transcriptionLanguage");
        a == Admitted(TranscriptionJob(ServiceOf(store), Get(store, TranscriptionKeyName(ServiceOf(store))),
                                       base64Audio, if Truthy(lang) then lang else Undefined))
        && transcribeInFlight
    {
      if transcribeInFlight {
        return Rejected(Failure(InProgressMessage));
      }
      transcribeInFlight := true;
      var service := ServiceOf(store);
      var apiKey := Get(store, TranscriptionKeyName(service));
      if !Truthy(apiKey) {
        transcribeInFlight := false;
        var msg := if service == GroqWhisper then GroqKeyMissingMessage else OpenAIKeyMissingMessage;
        return Rejected(Failure(msg));
      }
      var lang := Get(store, "transcriptionLanguage");
      a := Admitted(TranscriptionJob(service, apiKey, base64Audio, if Truthy(lang) then lang else Undefined));
    }

    /**
     * The rest of `transcribe-audio`: call the service through `withRetry` with three attempts and lower
     * the flag whatever the outcome (the `finally` block).
     */
    method FinishTranscription(job: TranscriptionJob, transcribe: (TranscriptionJob, nat) -> Attempt<Json, string>)
      returns (reply: IpcReply<Json>, calls: nat)
      modifies this`transcribeInFlight
      ensures !transcribeInFlight
      ensures 1 <= calls <= Attempts
      ensures forall k :: 1 <= k < calls ==> transcribe(job, k).Fail?
      ensures reply.Success? <==> transcribe(job, calls).Ok?
      ensures reply.Success? ==> reply.data == transcribe(job, calls).value
      ensures reply.Failure? ==> calls == Attempts && reply.error == transcribe(job, Attempts).error
    {
      var attempt := (k: nat) => transcribe(job, k);
      var outcome, n, _ := WithRetry(attempt, Attempts);
      calls := n;
      forall k | 1 <= k < calls ensures transcribe(job, k).Fail? {
        assert attempt(k).Fail?;
      }
      match outcome {
        case Returned(v) => reply := Success(v);
        case Threw(e) => reply := Failure(if e.Some? then e.value else "");
      }
      transcribeInFlight := false;
    }

    /** The whole `transcribe-audio` handler when nothing interleaves with its `await`. */
    method TranscribeAudio(base64Audio: string, transcribe: (TranscriptionJob, nat) -> Attempt<Json, string>)
      returns (reply: IpcReply<Json>)
      modifies this`transcribeInFlight
      ensures transcribeInFlight == old(transcribeInFlight)
      ensures old(transcribeInFlight) ==> reply == Failure(InProgressMessage)
      ensures !old(transcribeInFlight) && !Truthy(Get(store, TranscriptionKeyName(ServiceOf(store)))) ==> reply.Failure?
    {
      var a := BeginTranscription(base64Audio);
      match a {
        case Rejected(r) => reply := r;
        case Admitted(job) =>
          var r, _ := FinishTranscription(job, transcribe);
          reply := r;
      }
    }

    /**
     * `get-ai-answer`: pick the service and key at call time, announce the question to the overlay,
     * ask the service with three attempts, parse the reply and broadcast it. Returns the reply, the
     * messages sent to the windows in order, and the number of calls made.
     */
    method GetAIAnswer(
      utterance: string, fullContext: string, systemPrompt: string,
      complete: (ChatRequest, nat) -> Attempt<string, string>, parse: JsonParser,
      overlayAlive: bool, panelAlive: bool)
      returns (reply: IpcReply<Parsed>, notices: seq<Notice>, calls: nat)
      ensures var service := AnswerServiceOf(store);
        var key := Get(store, AnswerKeyName(service));
        var req := ChatRequest(service, key, ModelOf(store, service), BuildAIMessages(systemPrompt, utterance, fullContext));
        var announced := if overlayAlive then [QuestionProcessing] else [];
        && (!Truthy(key) ==> reply == Failure(AnswerKeyMissingMessage(service)) && notices == [] && calls == 0)
        && (Truthy(key) ==>
             && 1 <= calls <= Attempts
             && (forall k :: 1 <= k < calls ==> complete(req, k).Fail?)
             && (reply.Success? <==> complete(req, calls).Ok?)
             && (reply.Success? ==>
                   var p := ParseAIResponse(complete(req, calls).value, utterance, parse);
                   reply.data == p && notices == announced + AnswerNotices(p, overlayAlive, panelAlive))
             && (reply.Failure? ==>
                   calls == Attempts && reply.error == complete(req, Attempts).error && notices == announced))
    {
      var service := AnswerServiceOf(store);
      var key := Get(store, AnswerKeyName(service));
      if !Truthy(key) {
        return Failure(AnswerKeyMissingMessage(service)), [], 0;
      }
      notices := if overlayAlive then [QuestionProcessing] else [];
      var req := ChatRequest(service, key, ModelOf(store, service), BuildAIMessages(systemPrompt, utterance, fullContext));
      var attempt := (k: nat) => complete(req, k);
      var outcome, n, _ := WithRetry(attempt, Attempts);
      calls := n;
      forall k | 1 <= k < calls ensures complete(req, k).Fail? {
        assert attempt(k).Fail?;
      }
      match outcome {
        case Returned(text) =>
          var p := ParseAIResponse(text, utterance, parse);
          notices := notices + AnswerNotices(p, overlayAlive, panelAlive);
          reply := Success(p);
        case Threw(e) =>
          reply := Failure(if e.Some? then e.value else "");
      }
    }
  }
}
