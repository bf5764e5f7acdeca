/** The switch event provider as a stateful object: its fields are the
    module's static variables, and every call into a collaborator (datapipe,
    sysfs file, I/O-monitor registry) is appended to `log`. Each method is
    tied to the effect specification of the same operation in `Callbacks`,
    `Policy` or `Lifecycle`. */
module EventSwitches {
  import opened SwitchTypes
  import opened Decode
  import opened Callbacks
  import opened Policy
  import opened Lifecycle

  class Switches {
    /** The header constants: markers, touch-lock bit, normal submode. */
    const cfg: ValidConfig

    /** The eleven `*_iomon_id` statics, one component each. */
    var iomonIds: IomonIds

    /** Whether init found the camera focus disable file writable. */
    var camFocusDisableExists: bool
    /** Whether init found the proximity sensor disable file writable. */
    var proximitySensorDisableExists: bool

    var callState: CallState
    var alarmUiState: AlarmUiState
    var hasFlickerKey: bool
    /** The function-local static of the submode trigger. */
    var oldSubmode: bv32

    /** Every collaborator call made so far, oldest first. */
    var log: seq<Effect>

    /** The state at program start: no monitors, no capabilities, invalid
        call and alarm states, no flicker key, normal submode. */
    constructor(cfg: ValidConfig)
      ensures this.cfg == cfg
      ensures iomonIds == IomonIds(None, None, None, None, None, None, None, None, None, None, None)
      ensures !camFocusDisableExists && !proximitySensorDisableExists
      ensures callState == CallInvalid && alarmUiState == AlarmUiInvalid
      ensures !hasFlickerKey && oldSubmode == cfg.normalSubmode
      ensures log == []
    {
      this.cfg := cfg;
      iomonIds := IomonIds(None, None, None, None, None, None, None, None, None, None, None);
      camFocusDisableExists, proximitySensorDisableExists := false, false;
      callState, alarmUiState := CallInvalid, AlarmUiInvalid;
      hasFlickerKey, oldSubmode := false, cfg.normalSubmode;
      log := [];
    }

    // -------------------------------------------------------------------
    // Collaborator calls
    // -------------------------------------------------------------------

    method ExecuteDatapipe(pipe: Pipe, value: Value)
      modifies this`log
      ensures log == old(log) + [Publish(pipe, value)]
    {
      log := log + [Publish(pipe, value)];
    }

    method WriteStringToFile(path: Path, text: string)
      modifies this`log
      ensures log == old(log) + [WriteFile(path, text)]
    {
      log := log + [WriteFile(path, text)];
    }

    /** Reading yields what the file holds, or `None` when the read fails. */
    method ReadStringFromFile(path: Path, world: World) returns (contents: Option<string>)
      modifies this`log
      ensures contents == world.Read(path)
      ensures log == old(log) + [ReadFile(path)]
    {
      contents := world.Read(path);
      log := log + [ReadFile(path)];
    }

    /** `g_access(path, W_OK) == 0`. */
    method Access(path: Path, world: World) returns (writable: bool)
      modifies this`log
      ensures writable == world.Writable(path)
      ensures log == old(log) + [ProbeWritable(path)]
    {
      writable := world.Writable(path);
      log := log + [ProbeWritable(path)];
    }

    method UnregisterIoMonitor(id: Option<Handle>)
      modifies this`log
      ensures log == old(log) + [UnregisterMonitor(id)]
    {
      log := log + [UnregisterMonitor(id)];
    }

    method AppendTriggerToDatapipe(kind: TriggerKind, pipe: Pipe, trigger: Trigger)
      modifies this`log
      ensures log == old(log) + [AppendTrigger(kind, pipe, trigger)]
    {
      log := log + [AppendTrigger(kind, pipe, trigger)];
    }

    method RemoveTriggerFromDatapipe(kind: TriggerKind, pipe: Pipe, trigger: Trigger)
      modifies this`log
      ensures log == old(log) + [RemoveTrigger(kind, pipe, trigger)]
    {
      log := log + [RemoveTrigger(kind, pipe, trigger)];
    }

    // -------------------------------------------------------------------
    // I/O-monitor callbacks; each returns FALSE
    // -------------------------------------------------------------------

    method GenericActivityIomonCb(data: string) returns (r: bool)
      modifies this`log
      ensures !r
      ensures log == old(log) + CallbackEffects(GenericActivityCb, data, cfg)
    {
      ExecuteDatapipe(DeviceInactivePipe, Flag(false));
      r := false;
    }

    method CameraLaunchButtonIomonCb(data: string) returns (r: bool)
      modifies this`log
      ensures !r
      ensures log == old(log) + CallbackEffects(CameraLaunchButtonCb, data, cfg)
    {
      var state;
      if Matches(data, cfg.camLaunchActive) {
        state := CameraButtonLaunch;
      } else {
        state := CameraButtonUnpressed;
      }
      ExecuteDatapipe(DeviceInactivePipe, Flag(false));
      ExecuteDatapipe(CameraButtonPipe, Button(state));
      r := false;
    }

    method LockkeyIomonCb(data: string) returns (r: bool)
      modifies this`log
      ensures !r
      ensures log == old(log) + CallbackEffects(LockkeyCb, data, cfg)
    {
      var state;
      if Matches(data, cfg.flickerKeyActive) {
        state := 1;
      } else {
        state := 0;
      }
      ExecuteDatapipe(LockkeyPipe, Level(state));
      r := false;
    }

    method KbdSlideIomonCb(data: string) returns (r: bool)
      modifies this`log
      ensures !r
      ensures log == old(log) + CallbackEffects(KbdSlideCb, data, cfg)
    {
      var state;
      if Matches(data, cfg.kbdSlideOpen) {
        state := CoverOpen;
        ExecuteDatapipe(DeviceInactivePipe, Flag(false));
      } else {
        state := CoverClosed;
      }
      ExecuteDatapipe(KeyboardSlidePipe, Cover(state));
      r := false;
    }

    method LidCoverIomonCb(data: string) returns (r: bool)
      modifies this`log
      ensures !r
      ensures log == old(log) + CallbackEffects(LidCoverCb, data, cfg)
    {
      var state;
      if Matches(data, cfg.lidCoverOpen) {
        state := CoverOpen;
        ExecuteDatapipe(DeviceInactivePipe, Flag(false));
      } else {
        state := CoverClosed;
      }
      ExecuteDatapipe(LidCoverPipe, Cover(state));
      r := false;
    }

    method ProximitySensorIomonCb(data: string) returns (r: bool)
      modifies this`log
      ensures !r
      ensures log == old(log) + CallbackEffects(ProximitySensorCb, data, cfg)
    {
      var state;
      if Matches(data, cfg.proximitySensorOpen) {
        state := CoverOpen;
      } else {
        state := CoverClosed;
      }
      ExecuteDatapipe(ProximitySensorPipe, Cover(state));
      r := false;
    }

    method UsbCableIomonCb(data: string) returns (r: bool)
      modifies this`log
      ensures !r
      ensures log == old(log) + CallbackEffects(UsbCableCb, data, cfg)
    {
      var state;
      if Matches(data, cfg.usbCableConnected) {
        state := UsbCableConnected;
      } else {
        state := UsbCableDisconnected;
      }
      ExecuteDatapipe(DeviceInactivePipe, Flag(false));
      ExecuteDatapipe(UsbCablePipe, Cable(state));
      r := false;
    }

    method LensCoverIomonCb(data: string) returns (r: bool)
      modifies this`log
      ensures !r
      ensures log == old(log) + CallbackEffects(LensCoverCb, data, cfg)
    {
      var state;
      if Matches(data, cfg.lensCoverOpen) {
        state := CoverOpen;
        ExecuteDatapipe(DeviceInactivePipe, Flag(false));
      } else {
        state := CoverClosed;
      }
      ExecuteDatapipe(LensCoverPipe, Cover(state));
      r := false;
    }

    // -------------------------------------------------------------------
    // Proximity gating
    // -------------------------------------------------------------------

    /** Re-reads the sensor file and republishes its state when the read
        succeeds. The status it returns is never set to TRUE. */
    method UpdateProximitySensorState(world: World) returns (status: bool)
      modifies this`log
      ensures !status
      ensures log == old(log) + SensorStateEffects(world.Read(ProximitySensorStatePath), cfg)
    {
      status := false;
      var tmp := ReadStringFromFile(ProximitySensorStatePath, world);
      if tmp.None? {
        return;
      }
      var state;
      if Matches(tmp.value, cfg.proximitySensorOpen) {
        state := CoverOpen;
      } else {
        state := CoverClosed;
      }
      ExecuteDatapipe(ProximitySensorPipe, Cover(state));
    }

    method UpdateProximityMonitor(world: World)
      modifies this`log
      ensures log == old(log) + ProximityMonitorEffects(proximitySensorDisableExists, callState, alarmUiState,
                                                         world.Read(ProximitySensorStatePath), cfg)
    {
      if !proximitySensorDisableExists {
        return;
      }
      if callState == CallRinging || callState == CallActive
         || alarmUiState == AlarmUiVisible || alarmUiState == AlarmUiRinging {
        WriteStringToFile(ProximitySensorDisablePath, "0");
        var _ := UpdateProximitySensorState(world);
      } else {
        WriteStringToFile(ProximitySensorDisablePath, "1");
      }
    }

    /** Caches the new call state, then reruns the proximity policy. */
    method CallStateTrigger(call: CallState, world: World)
      modifies this`callState, this`log
      ensures callState == call
      ensures log == old(log) + ProximityMonitorEffects(proximitySensorDisableExists, call, alarmUiState,
                                                         world.Read(ProximitySensorStatePath), cfg)
    {
      callState := call;
      UpdateProximityMonitor(world);
    }

    /** Caches the new alarm UI state, then reruns the proximity policy. */
    method AlarmUiStateTrigger(alarm: AlarmUiState, world: World)
      modifies this`alarmUiState, this`log
      ensures alarmUiState == alarm
      ensures log == old(log) + ProximityMonitorEffects(proximitySensorDisableExists, callState, alarm,
                                                         world.Read(ProximitySensorStatePath), cfg)
    {
      alarmUiState := alarm;
      UpdateProximityMonitor(world);
    }

    // -------------------------------------------------------------------
    // Camera-focus gating
    // -------------------------------------------------------------------

    /** Compares the new submode with the remembered one, writes the focus
        disable file on an edge of the touch-lock bit, and only then
        remembers the new submode. */
    method SubmodeTrigger(submode: bv32)
      modifies this`oldSubmode, this`log
      ensures oldSubmode == submode
      ensures log == old(log) + SubmodeEffects(old(oldSubmode), submode, camFocusDisableExists,
                                               iomonIds.camFocus.Some?, cfg)
    {
      ghost var effs := SubmodeEffects(oldSubmode, submode, camFocusDisableExists, iomonIds.camFocus.Some?, cfg);
      if Locked(submode, cfg) {
        if !Locked(oldSubmode, cfg) {
          if camFocusDisableExists && iomonIds.camFocus.Some? {
            assert effs == [WriteFile(CamFocusDisablePath, "1")];
            WriteStringToFile(CamFocusDisablePath, "1");
          }
        }
      } else {
        if Locked(oldSubmode, cfg) {
          if camFocusDisableExists {
            assert effs == [WriteFile(CamFocusDisablePath, "0")];
            WriteStringToFile(CamFocusDisablePath, "0");
          }
        }
      }
      oldSubmode := submode;
    }

    // -------------------------------------------------------------------
    // Init and exit
    // -------------------------------------------------------------------

    /** The eleven registrations of init, in their fixed order: each
        stores the id the registry returns for its path, and the registry
        calls are recorded in the same order. */
    method RegisterIoMonitors(world: World)
      modifies this`iomonIds, this`log
      ensures iomonIds == RegisteredIds(world)
      ensures log == old(log) + RegisterAll(RegistrationOrder)
    {
      iomonIds := iomonIds.(lockkey := world.Register(FlickerKeyStatePath));
      iomonIds := iomonIds.(kbdSlide := world.Register(KbdSlideStatePath));
      iomonIds := iomonIds.(camFocus := world.Register(CamFocusStatePath));
      iomonIds := iomonIds.(camLaunch := world.Register(CamLaunchStatePath));
      iomonIds := iomonIds.(lidCover := world.Register(LidCoverStatePath));
      iomonIds := iomonIds.(proximitySensor := world.Register(ProximitySensorStatePath));
      iomonIds := iomonIds.(usbCable := world.Register(UsbCableStatePath));
      iomonIds := iomonIds.(lensCover := world.Register(LensCoverStatePath));
      iomonIds := iomonIds.(mmc0Cover := world.Register(Mmc0CoverStatePath));
      iomonIds := iomonIds.(mmcCover := world.Register(MmcCoverStatePath));
      iomonIds := iomonIds.(batCover := world.Register(BatteryCoverStatePath));
      log := log + RegisterAll(RegistrationOrder);
    }

    /** The tail of init: a flicker key exists once its monitor got an id,
        and each disable file counts as present when it is writable. */
    method ProbeCapabilities(world: World)
      modifies this`hasFlickerKey, this`proximitySensorDisableExists, this`camFocusDisableExists, this`log
      ensures hasFlickerKey == (old(hasFlickerKey) || iomonIds.lockkey.Some?)
      ensures proximitySensorDisableExists == world.Writable(ProximitySensorDisablePath)
      ensures camFocusDisableExists == world.Writable(CamFocusDisablePath)
      ensures log == old(log) + [ProbeWritable(ProximitySensorDisablePath)] + [ProbeWritable(CamFocusDisablePath)]
    {
      if iomonIds.lockkey.Some? {
        hasFlickerKey := true;
      }
      proximitySensorDisableExists := Access(ProximitySensorDisablePath, world);
      camFocusDisableExists := Access(CamFocusDisablePath, world);
    }

    /** Installs the triggers, seeds the lid cover as open, registers the
        eleven monitors, runs the proximity policy with the capability flag
        as it stood before this call, records whether a flicker key exists,
        then probes both disable files. Always succeeds. */
    method Init(world: World) returns (status: bool)
      modifies this`iomonIds, this`hasFlickerKey,
               this`proximitySensorDisableExists, this`camFocusDisableExists, this`log
      ensures status
      ensures iomonIds == RegisteredIds(world)
      ensures hasFlickerKey == (old(hasFlickerKey) || world.Register(FlickerKeyStatePath).Some?)
      ensures proximitySensorDisableExists == world.Writable(ProximitySensorDisablePath)
      ensures camFocusDisableExists == world.Writable(CamFocusDisablePath)
      ensures log == old(log) + InitEffects(ProximityMonitorEffects(
                      old(proximitySensorDisableExists), callState, alarmUiState,
                      world.Read(ProximitySensorStatePath), cfg))
    {
      InitLog(log, ProximityMonitorEffects(proximitySensorDisableExists, callState, alarmUiState,
                                           world.Read(ProximitySensorStatePath), cfg));
      AppendTriggerToDatapipe(InputTrigger, CallStatePipe, Trigger.CallStateTrigger);
      AppendTriggerToDatapipe(InputTrigger, AlarmUiStatePipe, Trigger.AlarmUiStateTrigger);
      AppendTriggerToDatapipe(OutputTrigger, SubmodePipe, Trigger.SubmodeTrigger);
      ExecuteDatapipe(LidCoverPipe, Cover(CoverOpen));
      RegisterIoMonitors(world);
      UpdateProximityMonitor(world);
      ProbeCapabilities(world);
      status := true;
    }

    /** Removes the three triggers, then unregisters the eleven monitors in
        the reverse of their registration order. The stored ids are left as
        they are. */
    method Exit()
      modifies this`log
      ensures log == old(log) + ExitEffects(iomonIds)
    {
      ExitLog(log, iomonIds);
      RemoveTriggerFromDatapipe(OutputTrigger, SubmodePipe, Trigger.SubmodeTrigger);
      RemoveTriggerFromDatapipe(InputTrigger, AlarmUiStatePipe, Trigger.AlarmUiStateTrigger);
      RemoveTriggerFromDatapipe(InputTrigger, CallStatePipe, Trigger.CallStateTrigger);

      UnregisterIoMonitor(iomonIds.batCover);
      UnregisterIoMonitor(iomonIds.mmcCover);
      UnregisterIoMonitor(iomonIds.mmc0Cover);
      UnregisterIoMonitor(iomonIds.lensCover);
      UnregisterIoMonitor(iomonIds.usbCable);
      UnregisterIoMonitor(iomonIds.proximitySensor);
      UnregisterIoMonitor(iomonIds.lidCover);
      UnregisterIoMonitor(iomonIds.camLaunch);
      UnregisterIoMonitor(iomonIds.camFocus);
      UnregisterIoMonitor(iomonIds.kbdSlide);
      UnregisterIoMonitor(iomonIds.lockkey);
    }
  }
}
