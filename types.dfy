/** Shared vocabulary of the switch event provider: the typed states it
    publishes, the datapipes and sysfs paths it touches, the collaborators'
    injected outcomes, and the log of observable effects. */
module SwitchTypes {

  datatype Option<+T> = None | Some(value: T)

  /** A C string literal: strlen sees all of it, so it holds no NUL. */
  type CString = s: string | NulFree(s)

  predicate NulFree(s: string) {
    forall i :: 0 <= i < |s| ==> s[i] != '\0'
  }

  /** The header constants this module compares against. The marker texts,
      the touch-lock submode bit and the normal submode are defined outside
      this file, so they stay abstract. */
  datatype Config = Config(
    camLaunchActive: CString,
    flickerKeyActive: CString,
    kbdSlideOpen: CString,
    lidCoverOpen: CString,
    proximitySensorOpen: CString,
    usbCableConnected: CString,
    lensCoverOpen: CString,
    tklockSubmode: bv32,
    normalSubmode: bv32)

  /** The touch-lock bit is a real bit and the normal submode has it clear. */
  type ValidConfig = c: Config | c.tklockSubmode != 0 && c.normalSubmode & c.tklockSubmode == 0
    witness Config("", "", "", "", "", "", "", 1, 0)

  datatype CoverState = CoverOpen | CoverClosed
  datatype CableState = UsbCableConnected | UsbCableDisconnected
  datatype CameraButtonState = CameraButtonLaunch | CameraButtonUnpressed

  /** The call states the proximity policy tells apart; every other value
      of the call-state datapipe is `OtherCall`. */
  datatype CallState = CallInvalid | CallRinging | CallActive | OtherCall(code: int)

  /** The alarm UI states the proximity policy tells apart. */
  datatype AlarmUiState = AlarmUiInvalid | AlarmUiVisible | AlarmUiRinging | OtherAlarmUi(code: int)

  /** A value carried by a datapipe. */
  datatype Value =
    | Flag(flag: bool)
    | Cover(cover: CoverState)
    | Cable(cable: CableState)
    | Button(button: CameraButtonState)
    | Level(level: int)

  datatype Pipe =
    | DeviceInactivePipe
    | CameraButtonPipe
    | LockkeyPipe
    | KeyboardSlidePipe
    | LidCoverPipe
    | ProximitySensorPipe
    | UsbCablePipe
    | LensCoverPipe
    | CallStatePipe
    | AlarmUiStatePipe
    | SubmodePipe

  datatype Path =
    | FlickerKeyStatePath
    | KbdSlideStatePath
    | CamFocusStatePath
    | CamLaunchStatePath
    | LidCoverStatePath
    | ProximitySensorStatePath
    | UsbCableStatePath
    | LensCoverStatePath
    | Mmc0CoverStatePath
    | MmcCoverStatePath
    | BatteryCoverStatePath
    | ProximitySensorDisablePath
    | CamFocusDisablePath

  /** The I/O-monitor callbacks of the module. */
  datatype Callback =
    | GenericActivityCb
    | CameraLaunchButtonCb
    | LockkeyCb
    | KbdSlideCb
    | LidCoverCb
    | ProximitySensorCb
    | UsbCableCb
    | LensCoverCb

  /** The datapipe triggers the module installs. */
  datatype Trigger = CallStateTrigger | AlarmUiStateTrigger | SubmodeTrigger
  datatype TriggerKind = InputTrigger | OutputTrigger

  /** The eleven I/O monitors, one per `*_iomon_id` variable. */
  datatype Monitor =
    | LockkeyMon
    | KbdSlideMon
    | CamFocusMon
    | CamLaunchMon
    | LidCoverMon
    | ProximitySensorMon
    | UsbCableMon
    | LensCoverMon
    | Mmc0CoverMon
    | MmcCoverMon
    | BatCoverMon

  /** Opaque identity of a registered I/O monitor; `None` stands for NULL. */
  type Handle = nat

  /** What the collaborators answer: the id registering a path returns
      (a path with no id stands for NULL), the paths that are writable, and
      what reading a path yields (a path with no contents stands for a
      failed read). */
  datatype World = World(ids: map<Path, Handle>, writablePaths: set<Path>, files: map<Path, string>)
  {
    function Register(path: Path): Option<Handle> {
      if path in ids then Some(ids[path]) else None
    }

    predicate Writable(path: Path) {
      path in writablePaths
    }

    function Read(path: Path): Option<string> {
      if path in files then Some(files[path]) else None
    }
  }

  /** One observable call into a collaborator. */
  datatype Effect =
    | Publish(pipe: Pipe, value: Value)
    | WriteFile(path: Path, text: string)
    | ReadFile(path: Path)
    | ProbeWritable(path: Path)
    | RegisterMonitor(path: Path, callback: Callback)
    | UnregisterMonitor(id: Option<Handle>)
    | AppendTrigger(kind: TriggerKind, tpipe: Pipe, trigger: Trigger)
    | RemoveTrigger(kind: TriggerKind, tpipe: Pipe, trigger: Trigger)

  /** "Generate activity": the device is not inactive. */
  const Activity: Effect := Publish(DeviceInactivePipe, Flag(false))
}
