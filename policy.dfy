/** The two cross-signal policies: proximity-sensor gating from the cached
    call and alarm UI states, and camera-focus gating on edges of the
    touch-lock submode bit. */
module Policy {
  import opened SwitchTypes
  import opened Decode
  import opened Callbacks

  // ---------------------------------------------------------------------
  // Proximity gating
  // ---------------------------------------------------------------------

  /** A call is ringing or active, or an alarm is visible or ringing: the
      proximity sensor interrupt is kept on. */
  predicate SensorNeeded(call: CallState, alarm: AlarmUiState) {
    call == CallRinging || call == CallActive || alarm == AlarmUiVisible || alarm == AlarmUiRinging
  }

  /** One run of `update_proximity_sensor_state` when reading the sensor
      file yields `contents`: the read, then the decoded state when the read
      succeeded. What it publishes is exactly what the proximity callback
      publishes for the same text. */
  function SensorStateEffects(contents: Option<string>, cfg: ValidConfig): (effs: seq<Effect>)
    ensures |effs| > 0 && effs[0] == ReadFile(ProximitySensorStatePath)
    ensures contents.None? ==> effs == [ReadFile(ProximitySensorStatePath)]
    ensures contents.Some? ==>
      effs == [ReadFile(ProximitySensorStatePath)] + CallbackEffects(ProximitySensorCb, contents.value, cfg)
  {
    [ReadFile(ProximitySensorStatePath)] +
    match contents
    case None => []
    case Some(text) => [Publish(ProximitySensorPipe, Cover(DecodeCover(text, cfg.proximitySensorOpen)))]
  }

  /** One run of `update_proximity_monitor`. */
  function ProximityMonitorEffects(disableExists: bool, call: CallState, alarm: AlarmUiState,
                                   contents: Option<string>, cfg: ValidConfig): seq<Effect>
  {
    if !disableExists then []
    else if SensorNeeded(call, alarm) then
      [WriteFile(ProximitySensorDisablePath, "0")] + SensorStateEffects(contents, cfg)
    else
      [WriteFile(ProximitySensorDisablePath, "1")]
  }

  /** The proximity gating table: nothing at all unless the disable file is
      writable; otherwise one write of "0" followed by a re-read and a
      republish of the sensor state while a call or an alarm is up, and one
      write of "1" with no re-read when none is. */
  lemma ProximityMonitorTable(disableExists: bool, call: CallState, alarm: AlarmUiState,
                              contents: Option<string>, cfg: ValidConfig)
    ensures var effs := ProximityMonitorEffects(disableExists, call, alarm, contents, cfg);
      && (!disableExists ==> effs == [])
      && (disableExists && !SensorNeeded(call, alarm) ==> effs == [WriteFile(ProximitySensorDisablePath, "1")])
      && (disableExists && SensorNeeded(call, alarm) ==>
            && |effs| >= 2
            && effs[..2] == [WriteFile(ProximitySensorDisablePath, "0"), ReadFile(ProximitySensorStatePath)]
            && (contents.None? ==> |effs| == 2)
            && (contents.Some? ==>
                  effs[2..] == [Publish(ProximitySensorPipe, PrefixState(ProximitySensorCb, contents.value, cfg))]))
  {
  }

  /** Effects that only write or read a file or publish on a datapipe. */
  predicate PolicyKinds(effs: seq<Effect>) {
    forall e :: e in effs ==> e.WriteFile? || e.ReadFile? || e.Publish?
  }

  /** The proximity policy only writes the disable file, reads the sensor
      file and publishes the sensor state. */
  lemma ProximityEffectKinds(disableExists: bool, call: CallState, alarm: AlarmUiState,
                             contents: Option<string>, cfg: ValidConfig)
    ensures PolicyKinds(ProximityMonitorEffects(disableExists, call, alarm, contents, cfg))
  {
  }

  /** The cached pair the proximity policy reads. */
  datatype PolicyCache = PolicyCache(call: CallState, alarm: AlarmUiState)

  /** A datapipe event that reaches one of the two input triggers. */
  datatype PolicyEvent = CallChanged(newCall: CallState) | AlarmChanged(newAlarm: AlarmUiState)

  /** One trigger run: it overwrites its own cached field and nothing else. */
  function Apply(cache: PolicyCache, ev: PolicyEvent): PolicyCache {
    match ev
    case CallChanged(c) => cache.(call := c)
    case AlarmChanged(a) => cache.(alarm := a)
  }

  /** The cache after a run of trigger events, oldest first. */
  function Replay(cache: PolicyCache, evs: seq<PolicyEvent>): PolicyCache
    decreases |evs|
  {
    if evs == [] then cache else Replay(Apply(cache, evs[0]), evs[1..])
  }

  /** The most recent call state among `evs`, or `initial` if there is none. */
  function LatestCall(initial: CallState, evs: seq<PolicyEvent>): CallState
    decreases |evs|
  {
    if evs == [] then initial
    else if evs[|evs| - 1].CallChanged? then evs[|evs| - 1].newCall
    else LatestCall(initial, evs[..|evs| - 1])
  }

  /** The most recent alarm UI state among `evs`, or `initial` if there is none. */
  function LatestAlarm(initial: AlarmUiState, evs: seq<PolicyEvent>): AlarmUiState
    decreases |evs|
  {
    if evs == [] then initial
    else if evs[|evs| - 1].AlarmChanged? then evs[|evs| - 1].newAlarm
    else LatestAlarm(initial, evs[..|evs| - 1])
  }

  lemma {:induction false} ReplaySnoc(cache: PolicyCache, evs: seq<PolicyEvent>, ev: PolicyEvent)
    ensures Replay(cache, evs + [ev]) == Apply(Replay(cache, evs), ev)
    decreases |evs|
  {
    if evs != [] {
      assert (evs + [ev])[1..] == evs[1..] + [ev];
      ReplaySnoc(Apply(cache, evs[0]), evs[1..], ev);
    }
  }

  /** Whatever the interleaving of call and alarm events, the cache holds
      the latest value of each; so the proximity decision taken by the last
      trigger depends on those two values only. */
  lemma {:induction false} ReplayKeepsLatest(cache: PolicyCache, evs: seq<PolicyEvent>)
    ensures Replay(cache, evs) == PolicyCache(LatestCall(cache.call, evs), LatestAlarm(cache.alarm, evs))
    decreases |evs|
  {
    if evs != [] {
      var front, last := evs[..|evs| - 1], evs[|evs| - 1];
      assert evs == front + [last];
      ReplaySnoc(cache, front, last);
      ReplayKeepsLatest(cache, front);
    }
  }

  // ---------------------------------------------------------------------
  // Camera-focus gating
  // ---------------------------------------------------------------------

  /** The touch-lock bit of a submode. */
  predicate Locked(submode: bv32, cfg: ValidConfig) {
    submode & cfg.tklockSubmode != 0
  }

  /** One run of `submode_trigger` with previous submode `before` and new
      submode `after`: a write only on an edge of the touch-lock bit; "1" on
      the rising edge when the disable file is writable and the focus
      monitor is registered, "0" on the falling edge when the disable file
      is writable. */
  function SubmodeEffects(before: bv32, after: bv32, focusDisableExists: bool, focusRegistered: bool,
                          cfg: ValidConfig): (effs: seq<Effect>)
    ensures |effs| <= 1
    ensures effs != [] ==> Locked(before, cfg) != Locked(after, cfg)
    ensures effs != [] ==> effs == [WriteFile(CamFocusDisablePath, if Locked(after, cfg) then "1" else "0")]
    ensures !Locked(before, cfg) && Locked(after, cfg) ==>
      (effs != [] <==> focusDisableExists && focusRegistered)
    ensures Locked(before, cfg) && !Locked(after, cfg) ==> (effs != [] <==> focusDisableExists)
  {
    if Locked(after, cfg) then
      if !Locked(before, cfg) && focusDisableExists && focusRegistered then
        [WriteFile(CamFocusDisablePath, "1")]
      else []
    else
      if Locked(before, cfg) && focusDisableExists then
        [WriteFile(CamFocusDisablePath, "0")]
      else []
  }

  /** The writes of a run of `submode_trigger` calls over `subs`, starting
      from previous submode `prev`; each call remembers its submode for the
      next comparison. */
  function FocusWrites(prev: bv32, subs: seq<bv32>, focusDisableExists: bool, focusRegistered: bool,
                       cfg: ValidConfig): seq<Effect>
    decreases |subs|
  {
    if subs == [] then []
    else SubmodeEffects(prev, subs[0], focusDisableExists, focusRegistered, cfg)
         + FocusWrites(subs[0], subs[1..], focusDisableExists, focusRegistered, cfg)
  }

  /** The submode remembered after a run of calls. */
  function LastSubmode(prev: bv32, subs: seq<bv32>): bv32 {
    if subs == [] then prev else subs[|subs| - 1]
  }

  /** `w` is a run of focus writes that alternate, starting with "0" when
      `startLocked` holds and with "1" otherwise. */
  predicate Alternating(w: seq<Effect>, startLocked: bool) {
    forall i :: 0 <= i < |w| ==>
      w[i] == WriteFile(CamFocusDisablePath, if startLocked == (i % 2 == 0) then "0" else "1")
  }

  /** One write in front of a run starting from the opposite bit keeps the
      alternation. */
  lemma {:induction false} AlternatingCons(startLocked: bool, rest: seq<Effect>)
    requires Alternating(rest, !startLocked)
    ensures Alternating([WriteFile(CamFocusDisablePath, if startLocked then "0" else "1")] + rest, startLocked)
  {
    var w := [WriteFile(CamFocusDisablePath, if startLocked then "0" else "1")] + rest;
    forall i | 0 <= i < |w|
      ensures w[i] == WriteFile(CamFocusDisablePath, if startLocked == (i % 2 == 0) then "0" else "1")
    {
      if i > 0 {
        assert w[i] == rest[i - 1];
      }
    }
  }

  /** With the capability present and the focus monitor registered, the
      writes alternate, starting with "1" from an unlocked submode and with
      "0" from a locked one; a repeated observation of the same bit never
      writes twice, and an even number of writes leaves the bit where it
      started. */
  lemma {:induction false} FocusWritesAlternate(prev: bv32, subs: seq<bv32>, cfg: ValidConfig)
    ensures var w := FocusWrites(prev, subs, true, true, cfg);
      && Alternating(w, Locked(prev, cfg))
      && (|w| % 2 == 0 <==> Locked(prev, cfg) == Locked(LastSubmode(prev, subs), cfg))
    decreases |subs|
  {
    if subs != [] {
      var first := SubmodeEffects(prev, subs[0], true, true, cfg);
      var rest := FocusWrites(subs[0], subs[1..], true, true, cfg);
      var before, after := Locked(prev, cfg), Locked(subs[0], cfg);
      assert FocusWrites(prev, subs, true, true, cfg) == first + rest;
      FocusWritesAlternate(subs[0], subs[1..], cfg);
      assert LastSubmode(subs[0], subs[1..]) == LastSubmode(prev, subs);
      if before == after {
        assert first == [];
      } else {
        assert first == [WriteFile(CamFocusDisablePath, if before then "0" else "1")];
        AlternatingCons(before, rest);
      }
    }
  }

  /** Locking from an unlocked submode writes "1" once; a further change
      of other submode bits while still locked writes nothing more. */
  lemma {:induction false} LockThenOtherBit(prev: bv32, locked: bv32, more: bv32, cfg: ValidConfig)
    requires !Locked(prev, cfg) && Locked(locked, cfg) && Locked(more, cfg)
    ensures FocusWrites(prev, [locked, more], true, true, cfg) == [WriteFile(CamFocusDisablePath, "1")]
  {
    assert [locked, more][1..] == [more];
    assert FocusWrites(locked, [more], true, true, cfg) == [];
  }
}
