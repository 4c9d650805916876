/**
 * Device selection of the capture hook (src/hooks/useAudioCapture.js): the virtual-device label tests,
 * `findPhysicalMic`, the choice of the system-audio device from the saved setting, and which streams
 * the capture graph ends up mixing.
 */
module Devices {
  import opened Wrappers
  import opened Text
  import opened Json

  /** A `MediaDeviceInfo` of kind audioinput; `name` is its label. */
  datatype Device = Device(deviceId: string, name: string)

  /** `Array.prototype.find`: the first element satisfying `p`. */
  function Find(xs: seq<Device>, p: Device -> bool): (r: Option<Device>)
    ensures r.None? <==> forall i :: 0 <= i < |xs| ==> !p(xs[i])
    ensures r.Some? ==>
      exists i :: 0 <= i < |xs| && xs[i] == r.value && p(xs[i]) && forall j :: 0 <= j < i ==> !p(xs[j])
  {
    if xs == [] then None
    else if p(xs[0]) then Some(xs[0])
    else
      var r := Find(xs[1..], p);
      assert forall i :: 0 < i < |xs| ==> xs[i] == xs[1..][i - 1];
      r
  }

  /** Case-insensitive substring test, as a regular expression alternative with the `i` flag. */
  predicate Mentions(name: string, word: string) {
    Contains(ToLower(name), word)
  }

  /** "Virtual Cable" mentions "cable", so that alternative of the patterns never decides anything. */
  lemma VirtualCableMentionsCable(name: string)
    ensures Mentions(name, "virtual cable") ==> Mentions(name, "cable")
  {
    if Mentions(name, "virtual cable") {
      assert OccursAt("virtual cable", "cable", 8);
      ContainsTransitive(ToLower(name), "virtual cable", "cable");
    }
  }

  /** `/CABLE|VB-Audio|Virtual Cable/i`: in effect, a label that mentions "cable" or "vb-audio" in any letter case. */
  predicate IsVBCableLabel(name: string)
    ensures IsVBCableLabel(name) <==> Mentions(name, "cable") || Mentions(name, "vb-audio")
  {
    VirtualCableMentionsCable(name);
    Mentions(name, "cable") || Mentions(name, "vb-audio") || Mentions(name, "virtual cable")
  }

  /**
   * `/CABLE|VB-Audio|Virtual Cable|Voicemod|Virtual Audio/i`. Every VB-Cable label is a virtual one, so
   * a VB-Cable device is never picked as the physical microphone.
   */
  predicate IsVirtualDeviceLabel(name: string)
    ensures IsVBCableLabel(name) ==> IsVirtualDeviceLabel(name)
    ensures IsVirtualDeviceLabel(name) <==>
      IsVBCableLabel(name) || Mentions(name, "voicemod") || Mentions(name, "virtual audio")
  {
    Mentions(name, "cable") || Mentions(name, "vb-audio") || Mentions(name, "virtual cable")
    || Mentions(name, "voicemod") || Mentions(name, "virtual audio")
  }

  /** The test `findPhysicalMic` applies to each device. */
  predicate IsPhysicalMic(d: Device, excludeDeviceId: string) {
    d.deviceId != "default" && d.deviceId != "communications" && d.deviceId != excludeDeviceId
    && !IsVirtualDeviceLabel(d.name) && d.name != ""
  }

  /** `findPhysicalMic`: the first real, labelled, non-virtual input other than the excluded one. */
  function FindPhysicalMic(inputs: seq<Device>, excludeDeviceId: string): (r: Option<Device>)
    ensures r.Some? ==>
      && r.value in inputs && r.value.deviceId != excludeDeviceId
      && r.value.deviceId != "default" && r.value.deviceId != "communications"
      && r.value.name != "" && !IsVirtualDeviceLabel(r.value.name)
    ensures r.None? <==> forall d :: d in inputs ==> !IsPhysicalMic(d, excludeDeviceId)
  {
    Find(inputs, (d: Device) => IsPhysicalMic(d, excludeDeviceId))
  }

  /** The device the capture hook opens for system audio, and whether it is a VB-Cable. */
  datatype Target = Target(deviceId: string, isVBCable: bool)

  /** The saved `audioInputDeviceId` with 'default', undefined, null and '' read as "none". */
  function SavedDeviceId(raw: Json): (r: Json)
    ensures raw == Str("default") || raw == Str("") || IsNullish(raw) ==> r == Null
  {
    if raw == Str("default") || raw.Undefined? || raw.Null? || raw == Str("") then Null else raw
  }

  /**
   * The device-selection block of `start`: a saved id is used only when listed; with nothing saved,
   * the first VB-Cable device; a saved id that is not listed gives no target. The id is the value
   * `targetDeviceId` takes, which can be empty for a VB-Cable device; `HasTarget` is the later test.
   */
  function SelectTarget(raw: Json, inputs: seq<Device>): (r: Option<Target>)
    ensures r.Some? && Truthy(SavedDeviceId(raw)) ==> SavedDeviceId(raw) == Str(r.value.deviceId)
    ensures r.Some? && !Truthy(SavedDeviceId(raw)) ==> r.value.isVBCable
  {
    var saved := SavedDeviceId(raw);
    var listed := Find(inputs, (d: Device) => Str(d.deviceId) == saved);
    if Truthy(saved) && listed.Some? then
      Some(Target(listed.value.deviceId, IsVBCableLabel(listed.value.name)))
    else if !Truthy(saved) then
      match Find(inputs, (d: Device) => IsVBCableLabel(d.name))
      case Some(cable) => Some(Target(cable.deviceId, true))
      case None => None
    else None
  }

  /** A target is always one of the listed devices, and its VB-Cable flag agrees with that device's label. */
  lemma {:induction false} TargetIsListed(raw: Json, inputs: seq<Device>)
    ensures var t := SelectTarget(raw, inputs);
      t.Some? ==> exists d :: d in inputs && d.deviceId == t.value.deviceId && IsVBCableLabel(d.name) == t.value.isVBCable
  {
    var saved := SavedDeviceId(raw);
    var listed := Find(inputs, (d: Device) => Str(d.deviceId) == saved);
    if !(Truthy(saved) && listed.Some?) && !Truthy(saved) {
      var cable := Find(inputs, (d: Device) => IsVBCableLabel(d.name));
      if cable.Some? {
        assert cable.value in inputs && IsVBCableLabel(cable.value.name);
      }
    }
  }

  /** A saved device that is listed is the target. */
  lemma SavedListedDeviceWins(inputs: seq<Device>, i: nat)
    requires i < |inputs| && inputs[i].deviceId != "default" && inputs[i].deviceId != ""
    ensures var t := SelectTarget(Str(inputs[i].deviceId), inputs);
      t.Some? && t.value.deviceId == inputs[i].deviceId
  {
    var saved := Str(inputs[i].deviceId);
    assert SavedDeviceId(saved) == saved;
    var p := (d: Device) => Str(d.deviceId) == saved;
    assert p(inputs[i]);
  }

  /** A saved device that has disappeared from the list gives no target: no VB-Cable fallback. */
  lemma SavedAbsentDeviceGivesNoTarget(id: string, inputs: seq<Device>)
    requires id != "default" && id != ""
    requires forall d :: d in inputs ==> d.deviceId != id
    ensures SelectTarget(Str(id), inputs) == None
  {
    var saved := Str(id);
    assert SavedDeviceId(saved) == saved;
    var p := (d: Device) => Str(d.deviceId) == saved;
    assert forall i :: 0 <= i < |inputs| ==> !p(inputs[i]);
  }

  /** With nothing saved, the target is the first VB-Cable device when there is one, and none otherwise. */
  lemma NothingSavedPicksFirstVBCable(raw: Json, inputs: seq<Device>)
    requires raw == Str("default") || raw == Str("") || IsNullish(raw)
    ensures var t := SelectTarget(raw, inputs);
      && (t.None? <==> forall d :: d in inputs ==> !IsVBCableLabel(d.name))
      && (t.Some? ==> t.value.isVBCable)
      && (t.Some? ==>
            exists i :: 0 <= i < |inputs| && inputs[i].deviceId == t.value.deviceId && IsVBCableLabel(inputs[i].name)
              && forall j :: 0 <= j < i ==> !IsVBCableLabel(inputs[j].name))
  {
    var cable := Find(inputs, (d: Device) => IsVBCableLabel(d.name));
    if cable.None? {
      forall d | d in inputs ensures !IsVBCableLabel(d.name) {
        var i :| 0 <= i < |inputs| && inputs[i] == d;
      }
    }
  }

  /**
   * `if (targetDeviceId)`: the stream block opens a system stream only for a selected device whose id
   * is not empty; a VB-Cable device listed with an empty id is treated as no target.
   */
  predicate HasTarget(target: Option<Target>) {
    target.Some? && target.value.deviceId != ""
  }

  /** The streams the capture graph mixes, or why `start` gives up. */
  datatype SourcePlan =
    | Sources(systemDevice: Option<string>, micDevice: Option<Option<string>>)
    | MicrophoneFailed
    | NoAudioSource

  /**
   * What the stream block of `start` leaves behind: the plan, whether `emitSystemAudioWarning` was
   * sent to the overlay, and the value of the system-audio banner afterwards.
   */
  datatype StartResult = StartResult(plan: SourcePlan, noticeEmitted: bool, banner: bool)

  /**
   * The stream block of `start`, with the outcome of each `getUserMedia` call as a parameter and the
   * banner's value before the call. With a target whose id is not empty, the system stream is opened on it (a VB-Cable
   * failure sends the notice and raises the banner) and the physical microphone besides; without one,
   * the default microphone (`Some(None)`), whose failure aborts. Any start that opens a stream clears
   * the banner; an aborted start leaves it as it was, or raised by the VB-Cable failure.
   */
  function PlanSources(target: Option<Target>, inputs: seq<Device>, systemOpens: bool, micOpens: bool,
                       bannerBefore: bool): (r: StartResult)
    ensures r.plan.Sources? ==> r.plan.systemDevice.Some? || r.plan.micDevice.Some?
    ensures r.plan.Sources? && r.plan.systemDevice.Some? ==> HasTarget(target) && r.plan.systemDevice.value == target.value.deviceId
    ensures r.plan.Sources? && HasTarget(target) && r.plan.micDevice.Some? ==>
      r.plan.micDevice.value.Some? && r.plan.micDevice.value.value != target.value.deviceId
    ensures r.plan.Sources? && !HasTarget(target) ==> r.plan == Sources(None, Some(None))
    ensures r.plan.MicrophoneFailed? <==> !HasTarget(target) && !micOpens
    ensures r.plan.NoAudioSource? <==>
      HasTarget(target) && !systemOpens && (!micOpens || FindPhysicalMic(inputs, target.value.deviceId).None?)
    ensures r.noticeEmitted <==> HasTarget(target) && target.value.isVBCable && !systemOpens
    ensures r.plan.Sources? ==> !r.banner
    ensures !r.plan.Sources? ==> (r.banner <==> r.noticeEmitted || bannerBefore)
  {
    if !HasTarget(target) then
      if micOpens then StartResult(Sources(None, Some(None)), false, false)
      else StartResult(MicrophoneFailed, false, bannerBefore)
    else
      var t := target.value;
      var notice := !systemOpens && t.isVBCable;
      var mic := FindPhysicalMic(inputs, t.deviceId);
      var micDevice := if mic.Some? && micOpens then Some(Some(mic.value.deviceId)) else None;
      var system := if systemOpens then Some(t.deviceId) else None;
      if system.None? && micDevice.None? then StartResult(NoAudioSource, notice, notice || bannerBefore)
      else StartResult(Sources(system, micDevice), notice, false)
  }

  /**
   * The banner is up after `start` exactly when no stream opened and either a VB-Cable target failed
   * just now or the banner was already up; a failed VB-Cable target with no fallback microphone
   * always leaves it up.
   */
  lemma BannerAfterStart(target: Option<Target>, inputs: seq<Device>, systemOpens: bool, micOpens: bool,
                         bannerBefore: bool)
    ensures var r := PlanSources(target, inputs, systemOpens, micOpens, bannerBefore);
      r.banner <==> !r.plan.Sources? && (bannerBefore || (HasTarget(target) && target.value.isVBCable && !systemOpens))
    ensures HasTarget(target) && target.value.isVBCable && !systemOpens && !micOpens ==>
      var r := PlanSources(target, inputs, systemOpens, micOpens, bannerBefore);
      r.plan.NoAudioSource? && r.noticeEmitted && r.banner
  {
  }

  /**
   * A VB-Cable device listed with an empty id is selected but never opened: `start` behaves as without
   * a target, opening the default microphone and sending no notice.
   */
  lemma EmptyIdCableOpensDefaultMic(raw: Json, inputs: seq<Device>, systemOpens: bool, micOpens: bool,
                                    bannerBefore: bool)
    requires SelectTarget(raw, inputs).Some? && SelectTarget(raw, inputs).value.deviceId == ""
    ensures var t := SelectTarget(raw, inputs);
      && !Truthy(SavedDeviceId(raw)) && t.value.isVBCable
      && PlanSources(t, inputs, systemOpens, micOpens, bannerBefore) == PlanSources(None, inputs, systemOpens, micOpens, bannerBefore)
      && !PlanSources(t, inputs, systemOpens, micOpens, bannerBefore).noticeEmitted
      && (micOpens ==> PlanSources(t, inputs, systemOpens, micOpens, bannerBefore).plan == Sources(None, Some(None)))
  {
  }
}
