/**
 * The first-run wizard (src/components/SetupWizard.jsx): four steps (OpenAI key, answer model, audio
 * setup, test) walked with Next and Back, Next enabled only when the current step is complete, a
 * recording test, and the settings saved when Next is pressed on the last step. The settings the
 * wizard saves are returned as the entries of the object handed to `saveSettings`.
 */
module SetupWizard {
  import opened Wrappers
  import opened Text
  import opened Json
  import MainProcess

  const FirstStep: int := 1
  const LastStep: int := 4

  const NoApiMessage: string := "Electron API not available"
  const TranscriptionFailedMessage: string := "Transcription failed"
  const TestFailedMessage: string := "Test failed"
  const NoRecorderMessage: string := "Test recorder not connected. Start the app and try again."

  /** The text a key input shows for a stored value: `value || ''`. */
  function KeyText(v: Json): (r: string)
    ensures !Truthy(v) ==> r == ""
    ensures v.Str? ==> r == v.s
  {
    if Truthy(v) then ToText(v) else ""
  }

  /** A key input as a setting: an empty input is sent as `undefined`. */
  function KeySetting(key: string): (v: Json)
    ensures IsNullish(v) <==> key == ""
  {
    if key != "" then Str(key) else Undefined
  }

  /** The answer provider the checkbox selects. */
  function ProviderName(useOpenAI: bool): string {
    if useOpenAI then "openai" else "claude"
  }

  /** The object the last step saves, as the entries `Object.entries` enumerates. */
  function FinalSettings(openaiKey: string, anthropicKey: string, useOpenAI: bool): (r: seq<(string, Json)>)
    ensures |r| == 3 && r[0].0 == "openaiApiKey" && r[1].0 == "anthropicApiKey" && r[2].0 == "aiProvider"
    ensures IsNullish(r[0].1) <==> openaiKey == ""
    ensures IsNullish(r[1].1) <==> anthropicKey == ""
    ensures !IsNullish(r[2].1)
  {
    [("openaiApiKey", KeySetting(openaiKey)),
     ("anthropicApiKey", KeySetting(anthropicKey)),
     ("aiProvider", Str(ProviderName(useOpenAI)))]
  }

  /**
   * Saving the wizard's settings with the main process's merge: an empty key input deletes the stored
   * key, a filled one replaces it, the provider is always set, and every other setting is kept.
   */
  lemma SavedSettings(store: MainProcess.Store, openaiKey: string, anthropicKey: string, useOpenAI: bool, other: string)
    requires other !in {"openaiApiKey", "anthropicApiKey", "aiProvider"}
    ensures var m := MainProcess.Merge(store, FinalSettings(openaiKey, anthropicKey, useOpenAI));
      && (openaiKey == "" ==> "openaiApiKey" !in m)
      && (openaiKey != "" ==> "openaiApiKey" in m && m["openaiApiKey"] == Str(openaiKey))
      && (anthropicKey == "" ==> "anthropicApiKey" !in m)
      && (anthropicKey != "" ==> "anthropicApiKey" in m && m["anthropicApiKey"] == Str(anthropicKey))
      && "aiProvider" in m && m["aiProvider"] == Str(ProviderName(useOpenAI))
      && (other in m <==> other in store)
      && (other in store ==> m[other] == store[other])
  {
    var entries := FinalSettings(openaiKey, anthropicKey, useOpenAI);
    MainProcess.MergeLastEntryWins(store, entries, 0);
    MainProcess.MergeLastEntryWins(store, entries, 1);
    MainProcess.MergeLastEntryWins(store, entries, 2);
    MainProcess.MergeKeepsUnnamedKeys(store, entries, other);
  }

  /**
   * Opening the wizard on stored string settings and finishing it unchanged writes the same keys and
   * provider back (an `aiProvider` other than "openai" is saved as "claude").
   */
  lemma ReloadedSettingsRoundTrip(store: MainProcess.Store)
    requires "openaiApiKey" in store && store["openaiApiKey"].Str?
    requires "anthropicApiKey" in store && store["anthropicApiKey"].Str?
    ensures var d := Obj([("openaiApiKey", store["openaiApiKey"]), ("anthropicApiKey", store["anthropicApiKey"])]);
      var m := MainProcess.Merge(store, FinalSettings(
        KeyText(Property(d, "openaiApiKey")), KeyText(Property(d, "anthropicApiKey")), false));
      && (store["openaiApiKey"].s != "" ==> "openaiApiKey" in m && m["openaiApiKey"] == store["openaiApiKey"])
      && (store["anthropicApiKey"].s != "" ==> "anthropicApiKey" in m && m["anthropicApiKey"] == store["anthropicApiKey"])
  {
    var d := Obj([("openaiApiKey", store["openaiApiKey"]), ("anthropicApiKey", store["anthropicApiKey"])]);
    var o, a := KeyText(Property(d, "openaiApiKey")), KeyText(Property(d, "anthropicApiKey"));
    assert Property(d, "openaiApiKey") == store["openaiApiKey"];
    assert d.members[0].0 != "anthropicApiKey" by {
      assert d.members[0].0[0] != "anthropicApiKey"[0];
    }
    assert d.members[1..] == [("anthropicApiKey", store["anthropicApiKey"])];
    assert Lookup(d.members[1..], "anthropicApiKey") == store["anthropicApiKey"];
    assert Lookup(d.members, "anthropicApiKey") == Lookup(d.members[1..], "anthropicApiKey");
    assert Property(d, "anthropicApiKey") == store["anthropicApiKey"];
    assert o == store["openaiApiKey"].s;
    assert a == store["anthropicApiKey"].s;
    SavedSettings(store, o, a, false, "hasCompletedSetup");
  }

  datatype TestStatus = TestIdle | TestRunning | TestSucceeded | TestFailed

  datatype TestResult = TestResult(status: TestStatus, text: string, error: string)

  /** The five-second test recording: no recorder registered, the base64 audio, or the recorder's failure message. */
  datatype Recording = NoRecorder | Recorded(base64: string) | RecordFailed(message: string)

  /** `err?.message || fallback`. */
  function MessageOr(message: string, fallback: string): string {
    if message != "" then message else fallback
  }

  /**
   * The result `runTest` ends with. `transcribe` is the `transcribeAudio` call: it resolves with a
   * reply (`None` for a missing one) or rejects with a message.
   */
  function TestOutcome(recording: Recording, apiAvailable: bool,
                       transcribe: string -> Attempt<Option<IpcReply<Json>>, string>): (r: TestResult)
    ensures r.status == TestSucceeded || r.status == TestFailed
    ensures r.status == TestFailed ==> r.error != "" && r.text == ""
    ensures r.status == TestSucceeded ==> r.error == ""
  {
    match recording
    case NoRecorder => TestResult(TestFailed, "", NoRecorderMessage)
    case RecordFailed(m) => TestResult(TestFailed, "", MessageOr(m, TestFailedMessage))
    case Recorded(audio) =>
      if !apiAvailable then TestResult(TestFailed, "", NoApiMessage)
      else
        match transcribe(audio)
        case Fail(m) => TestResult(TestFailed, "", MessageOr(m, TestFailedMessage))
        case Ok(Some(Success(d))) => TestResult(TestSucceeded, KeyText(d), "")
        case Ok(Some(Failure(e))) => TestResult(TestFailed, "", MessageOr(e, TranscriptionFailedMessage))
        case Ok(None) => TestResult(TestFailed, "", TranscriptionFailedMessage)
  }

  /**
   * The test succeeds exactly when a recording was made, the bridge exists and the transcription
   * reports success, and then shows the transcribed text; every other path ends in an error with a
   * non-empty message and no text.
   */
  lemma TestSucceedsOnlyOnTranscription(recording: Recording, apiAvailable: bool,
                                        transcribe: string -> Attempt<Option<IpcReply<Json>>, string>)
    ensures var r := TestOutcome(recording, apiAvailable, transcribe);
      && (r.status == TestSucceeded <==>
            recording.Recorded? && apiAvailable
            && transcribe(recording.base64).Ok? && transcribe(recording.base64).value.Some?
            && transcribe(recording.base64).value.value.Success?)
      && (r.status == TestSucceeded ==> r.text == KeyText(transcribe(recording.base64).value.value.data) && r.error == "")
      && (r.status != TestSucceeded ==> r.status == TestFailed && r.text == "" && r.error != "")
  {
  }

  class Wizard {
    var step: int
    var openaiKey: string
    var anthropicKey: string
    var useOpenAI: bool
    var testResult: TestResult
    var testRecording: bool

    /** The step is always one of the four. */
    predicate Valid()
      reads this
    {
      FirstStep <= step <= LastStep
    }

    constructor ()
      ensures Valid()
      ensures step == FirstStep && openaiKey == "" && anthropicKey == "" && !useOpenAI
      ensures testResult == TestResult(TestIdle, "", "") && !testRecording
    {
      step := FirstStep;
      openaiKey := "";
      anthropicKey := "";
      useOpenAI := false;
      testResult := TestResult(TestIdle, "", "");
      testRecording := false;
    }

    /** The stored settings fill the inputs when the reply succeeds with data. */
    method LoadSettings(reply: Option<IpcReply<Json>>)
      modifies this`openaiKey, this`anthropicKey, this`useOpenAI
      ensures (reply.Some? && reply.value.Success? && Truthy(reply.value.data)) ==>
        var d := reply.value.data;
        && openaiKey == KeyText(Property(d, "openaiApiKey"))
        && anthropicKey == KeyText(Property(d, "anthropicApiKey"))
        && useOpenAI == (Property(d, "aiProvider") == Str("openai"))
      ensures !(reply.Some? && reply.value.Success? && Truthy(reply.value.data)) ==>
        openaiKey == old(openaiKey) && anthropicKey == old(anthropicKey) && useOpenAI == old(useOpenAI)
    {
      if reply.Some? && reply.value.Success? && Truthy(reply.value.data) {
        var d := reply.value.data;
        openaiKey := KeyText(Property(d, "openaiApiKey"));
        anthropicKey := KeyText(Property(d, "anthropicApiKey"));
        useOpenAI := Property(d, "aiProvider") == Str("openai");
      }
    }

    /**
     * `canProceed`: the first step needs an OpenAI key that is not blank, the second an answer model
     * (the OpenAI box, or an Anthropic key that is not blank), the others nothing.
     */
    function CanProceed(): (ok: bool)
      reads this
      ensures step == 1 ==> (ok <==> !AllSpace(openaiKey))
      ensures step == 2 ==> (ok <==> useOpenAI || !AllSpace(anthropicKey))
      ensures step != 1 && step != 2 ==> ok
    {
      if step == 1 then |Trim(openaiKey)| > 0
      else if step == 2 then useOpenAI || |Trim(anthropicKey)| > 0
      else true
    }

    /** `handleNext`: below the last step it advances; on the last step it hands over the settings to save. */
    method HandleNext() returns (saved: Option<seq<(string, Json)>>)
      requires Valid()
      modifies this`step
      ensures Valid()
      ensures old(step) < LastStep ==> step == old(step) + 1 && saved == None
      ensures old(step) == LastStep ==> step == old(step) && saved == Some(FinalSettings(openaiKey, anthropicKey, useOpenAI))
    {
      if step < LastStep {
        step := step + 1;
        return None;
      }
      saved := Some(FinalSettings(openaiKey, anthropicKey, useOpenAI));
    }

    /** The Next button: disabled while the step is incomplete. */
    method PressNext() returns (saved: Option<seq<(string, Json)>>)
      requires Valid()
      modifies this`step
      ensures Valid()
      ensures !old(CanProceed()) ==> step == old(step) && saved == None
      ensures old(CanProceed()) && old(step) < LastStep ==> step == old(step) + 1 && saved == None
      ensures old(CanProceed()) && old(step) == LastStep ==>
        step == LastStep && saved == Some(FinalSettings(openaiKey, anthropicKey, useOpenAI))
    {
      if CanProceed() {
        saved := HandleNext();
      } else {
        saved := None;
      }
    }

    /** `handleBack`: above the first step it goes back one. */
    method HandleBack()
      requires Valid()
      modifies this`step
      ensures Valid()
      ensures old(step) > FirstStep ==> step == old(step) - 1
      ensures old(step) == FirstStep ==> step == FirstStep
    {
      if step > FirstStep {
        step := step - 1;
      }
    }

    /** The start of `runTest`: the result shows the test running and recording starts. */
    method BeginTest()
      modifies this`testResult, this`testRecording
      ensures testResult == TestResult(TestRunning, "", "") && testRecording
    {
      testResult := TestResult(TestRunning, "", "");
      testRecording := true;
    }

    /** The end of `runTest`: recording has stopped and the result is the test's outcome. */
    method FinishTest(recording: Recording, apiAvailable: bool,
                      transcribe: string -> Attempt<Option<IpcReply<Json>>, string>)
      modifies this`testResult, this`testRecording
      ensures !testRecording
      ensures testResult == TestOutcome(recording, apiAvailable, transcribe)
    {
      testRecording := false;
      testResult := TestOutcome(recording, apiAvailable, transcribe);
    }
  }
}
