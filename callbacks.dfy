/** What each I/O-monitor callback publishes for one payload. The callbacks
    are written here the way the C code runs them; the contract of
    `CallbackEffects` restates them through a single table of which switch
    generates activity and which state it publishes. */
module Callbacks {
  import opened SwitchTypes
  import opened Decode

  /** The datapipe on which a typed callback publishes its decoded state. */
  function StatePipe(cb: Callback): (p: Pipe)
    requires cb != GenericActivityCb
    ensures p != DeviceInactivePipe
  {
    match cb
    case CameraLaunchButtonCb => CameraButtonPipe
    case LockkeyCb => LockkeyPipe
    case KbdSlideCb => KeyboardSlidePipe
    case LidCoverCb => LidCoverPipe
    case ProximitySensorCb => ProximitySensorPipe
    case UsbCableCb => UsbCablePipe
    case LensCoverCb => LensCoverPipe
  }

  /** The marker a typed callback looks for at the head of its payload. */
  function MarkerOf(cb: Callback, cfg: ValidConfig): CString
    requires cb != GenericActivityCb
  {
    match cb
    case CameraLaunchButtonCb => cfg.camLaunchActive
    case LockkeyCb => cfg.flickerKeyActive
    case KbdSlideCb => cfg.kbdSlideOpen
    case LidCoverCb => cfg.lidCoverOpen
    case ProximitySensorCb => cfg.proximitySensorOpen
    case UsbCableCb => cfg.usbCableConnected
    case LensCoverCb => cfg.lensCoverOpen
  }

  /** Reference reading of a payload: the active state of the switch when
      the payload starts with its marker, the opposite state otherwise. */
  function PrefixState(cb: Callback, data: string, cfg: ValidConfig): Value
    requires cb != GenericActivityCb
  {
    var hit := MarkerOf(cb, cfg) <= data;
    match cb
    case CameraLaunchButtonCb => Button(if hit then CameraButtonLaunch else CameraButtonUnpressed)
    case LockkeyCb => Level(if hit then 1 else 0)
    case UsbCableCb => Cable(if hit then UsbCableConnected else UsbCableDisconnected)
    case KbdSlideCb | LidCoverCb | ProximitySensorCb | LensCoverCb =>
      Cover(if hit then CoverOpen else CoverClosed)
  }

  /** Which payloads make a callback generate activity: always for the
      generic covers and focus, the camera launch button and the USB cable;
      only on opening for the slide, lid and lens; never for the lock key
      and the proximity sensor. */
  predicate EmitsActivity(cb: Callback, data: string, cfg: ValidConfig) {
    match cb
    case GenericActivityCb | CameraLaunchButtonCb | UsbCableCb => true
    case KbdSlideCb | LidCoverCb | LensCoverCb => MarkerOf(cb, cfg) <= data
    case LockkeyCb | ProximitySensorCb => false
  }

  /** The publishes one run of callback `cb` on payload `data` makes, in
      order. Activity, when generated, comes first; every callback except
      the generic one then publishes exactly its decoded state. */
  function CallbackEffects(cb: Callback, data: string, cfg: ValidConfig): (effs: seq<Effect>)
    ensures Activity in effs <==> EmitsActivity(cb, data, cfg)
    ensures Activity in effs ==> effs[0] == Activity
    ensures cb == GenericActivityCb ==> effs == [Activity]
    ensures cb != GenericActivityCb ==>
      effs == (if EmitsActivity(cb, data, cfg) then [Activity] else [])
              + [Publish(StatePipe(cb), PrefixState(cb, data, cfg))]
  {
    match cb
    case GenericActivityCb =>
      [Activity]
    case CameraLaunchButtonCb =>
      var state := DecodeCameraButton(data, cfg.camLaunchActive);
      [Activity, Publish(CameraButtonPipe, Button(state))]
    case LockkeyCb =>
      var level := DecodeLockkey(data, cfg.flickerKeyActive);
      [Publish(LockkeyPipe, Level(level))]
    case KbdSlideCb =>
      var state := DecodeCover(data, cfg.kbdSlideOpen);
      (if state == CoverOpen then [Activity] else []) + [Publish(KeyboardSlidePipe, Cover(state))]
    case LidCoverCb =>
      var state := DecodeCover(data, cfg.lidCoverOpen);
      (if state == CoverOpen then [Activity] else []) + [Publish(LidCoverPipe, Cover(state))]
    case ProximitySensorCb =>
      var state := DecodeCover(data, cfg.proximitySensorOpen);
      [Publish(ProximitySensorPipe, Cover(state))]
    case UsbCableCb =>
      var state := DecodeCable(data, cfg.usbCableConnected);
      [Activity, Publish(UsbCablePipe, Cable(state))]
    case LensCoverCb =>
      var state := DecodeCover(data, cfg.lensCoverOpen);
      (if state == CoverOpen then [Activity] else []) + [Publish(LensCoverPipe, Cover(state))]
  }
}
