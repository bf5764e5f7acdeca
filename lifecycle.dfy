/** Module init and exit: the order in which `mce_switches_init` installs
    triggers and registers the eleven I/O monitors, and the order in which
    `mce_switches_exit` takes them down again. */
module Lifecycle {
  import opened SwitchTypes
  import opened Policy

  /** The monitors in the order init registers them. */
  const RegistrationOrder: seq<Monitor> :=
    [LockkeyMon, KbdSlideMon, CamFocusMon, CamLaunchMon, LidCoverMon, ProximitySensorMon,
     UsbCableMon, LensCoverMon, Mmc0CoverMon, MmcCoverMon, BatCoverMon]

  /** The monitors in the order exit unregisters them. */
  const UnregistrationOrder: seq<Monitor> :=
    [BatCoverMon, MmcCoverMon, Mmc0CoverMon, LensCoverMon, UsbCableMon, ProximitySensorMon,
     LidCoverMon, CamLaunchMon, CamFocusMon, KbdSlideMon, LockkeyMon]

  /** The attribute file each monitor watches. */
  function PathOf(m: Monitor): Path {
    match m
    case LockkeyMon => FlickerKeyStatePath
    case KbdSlideMon => KbdSlideStatePath
    case CamFocusMon => CamFocusStatePath
    case CamLaunchMon => CamLaunchStatePath
    case LidCoverMon => LidCoverStatePath
    case ProximitySensorMon => ProximitySensorStatePath
    case UsbCableMon => UsbCableStatePath
    case LensCoverMon => LensCoverStatePath
    case Mmc0CoverMon => Mmc0CoverStatePath
    case MmcCoverMon => MmcCoverStatePath
    case BatCoverMon => BatteryCoverStatePath
  }

  /** The callback each monitor is registered with: the camera focus and
      the three cover switches share the activity-only callback. */
  function CallbackOf(m: Monitor): Callback {
    match m
    case LockkeyMon => LockkeyCb
    case KbdSlideMon => KbdSlideCb
    case CamFocusMon => GenericActivityCb
    case CamLaunchMon => CameraLaunchButtonCb
    case LidCoverMon => LidCoverCb
    case ProximitySensorMon => ProximitySensorCb
    case UsbCableMon => UsbCableCb
    case LensCoverMon => LensCoverCb
    case Mmc0CoverMon => GenericActivityCb
    case MmcCoverMon => GenericActivityCb
    case BatCoverMon => GenericActivityCb
  }

  /** The eleven `*_iomon_id` values. */
  datatype IomonIds = IomonIds(
    lockkey: Option<Handle>,
    kbdSlide: Option<Handle>,
    camFocus: Option<Handle>,
    camLaunch: Option<Handle>,
    lidCover: Option<Handle>,
    proximitySensor: Option<Handle>,
    usbCable: Option<Handle>,
    lensCover: Option<Handle>,
    mmc0Cover: Option<Handle>,
    mmcCover: Option<Handle>,
    batCover: Option<Handle>)
  {
    function Get(m: Monitor): Option<Handle> {
      match m
      case LockkeyMon => lockkey
      case KbdSlideMon => kbdSlide
      case CamFocusMon => camFocus
      case CamLaunchMon => camLaunch
      case LidCoverMon => lidCover
      case ProximitySensorMon => proximitySensor
      case UsbCableMon => usbCable
      case LensCoverMon => lensCover
      case Mmc0CoverMon => mmc0Cover
      case MmcCoverMon => mmcCover
      case BatCoverMon => batCover
    }
  }

  /** The ids init stores: whatever registering each monitor's path returned. */
  function RegisteredIds(world: World): IomonIds {
    IomonIds(
      world.Register(FlickerKeyStatePath), world.Register(KbdSlideStatePath),
      world.Register(CamFocusStatePath), world.Register(CamLaunchStatePath),
      world.Register(LidCoverStatePath), world.Register(ProximitySensorStatePath),
      world.Register(UsbCableStatePath), world.Register(LensCoverStatePath),
      world.Register(Mmc0CoverStatePath), world.Register(MmcCoverStatePath),
      world.Register(BatteryCoverStatePath))
  }

  function RegisterAll(ms: seq<Monitor>): (effs: seq<Effect>)
    ensures |effs| == |ms|
    ensures forall i :: 0 <= i < |ms| ==> effs[i] == RegisterMonitor(PathOf(ms[i]), CallbackOf(ms[i]))
  {
    seq(|ms|, i requires 0 <= i < |ms| => RegisterMonitor(PathOf(ms[i]), CallbackOf(ms[i])))
  }

  function UnregisterAll(ms: seq<Monitor>, ids: IomonIds): (effs: seq<Effect>)
    ensures |effs| == |ms|
    ensures forall i :: 0 <= i < |ms| ==> effs[i] == UnregisterMonitor(ids.Get(ms[i]))
  {
    seq(|ms|, i requires 0 <= i < |ms| => UnregisterMonitor(ids.Get(ms[i])))
  }

  /** The eleven unregistrations of exit, written out in their order. */
  lemma UnregistrationsSpelledOut(ids: IomonIds)
    ensures UnregisterAll(UnregistrationOrder, ids) ==
      [UnregisterMonitor(ids.batCover), UnregisterMonitor(ids.mmcCover), UnregisterMonitor(ids.mmc0Cover),
       UnregisterMonitor(ids.lensCover), UnregisterMonitor(ids.usbCable), UnregisterMonitor(ids.proximitySensor),
       UnregisterMonitor(ids.lidCover), UnregisterMonitor(ids.camLaunch), UnregisterMonitor(ids.camFocus),
       UnregisterMonitor(ids.kbdSlide), UnregisterMonitor(ids.lockkey)]
  {
  }

  /** The eleven registrations of init, written out in their order. */
  lemma RegistrationsSpelledOut()
    ensures RegisterAll(RegistrationOrder) ==
      [RegisterMonitor(FlickerKeyStatePath, LockkeyCb), RegisterMonitor(KbdSlideStatePath, KbdSlideCb),
       RegisterMonitor(CamFocusStatePath, GenericActivityCb), RegisterMonitor(CamLaunchStatePath, CameraLaunchButtonCb),
       RegisterMonitor(LidCoverStatePath, LidCoverCb), RegisterMonitor(ProximitySensorStatePath, ProximitySensorCb),
       RegisterMonitor(UsbCableStatePath, UsbCableCb), RegisterMonitor(LensCoverStatePath, LensCoverCb),
       RegisterMonitor(Mmc0CoverStatePath, GenericActivityCb), RegisterMonitor(MmcCoverStatePath, GenericActivityCb),
       RegisterMonitor(BatteryCoverStatePath, GenericActivityCb)]
  {
  }

  const SetupTriggers: seq<Effect> :=
    [AppendTrigger(InputTrigger, CallStatePipe, CallStateTrigger),
     AppendTrigger(InputTrigger, AlarmUiStatePipe, AlarmUiStateTrigger),
     AppendTrigger(OutputTrigger, SubmodePipe, SubmodeTrigger)]

  const TeardownTriggers: seq<Effect> :=
    [RemoveTrigger(OutputTrigger, SubmodePipe, SubmodeTrigger),
     RemoveTrigger(InputTrigger, AlarmUiStatePipe, AlarmUiStateTrigger),
     RemoveTrigger(InputTrigger, CallStatePipe, CallStateTrigger)]

  /** Everything one run of `mce_switches_init` does, where `prox` is what
      its call of the proximity policy does: triggers, the lid-cover seed,
      the eleven registrations, the policy run, then the two capability
      probes. */
  function InitEffects(prox: seq<Effect>): seq<Effect> {
    SetupTriggers + [Publish(LidCoverPipe, Cover(CoverOpen))] + RegisterAll(RegistrationOrder)
    + prox + [ProbeWritable(ProximitySensorDisablePath), ProbeWritable(CamFocusDisablePath)]
  }

  /** The effects of init as the one-call-at-a-time appends that produce
      them, starting from any earlier log. */
  lemma {:induction false} InitLog(start: seq<Effect>, prox: seq<Effect>)
    ensures start + InitEffects(prox) ==
      start + [AppendTrigger(InputTrigger, CallStatePipe, CallStateTrigger)]
      + [AppendTrigger(InputTrigger, AlarmUiStatePipe, AlarmUiStateTrigger)]
      + [AppendTrigger(OutputTrigger, SubmodePipe, SubmodeTrigger)]
      + [Publish(LidCoverPipe, Cover(CoverOpen))]
      + RegisterAll(RegistrationOrder) + prox
      + [ProbeWritable(ProximitySensorDisablePath)] + [ProbeWritable(CamFocusDisablePath)]
  {
  }

  /** Init installs its triggers, then publishes the lid-cover default
      before registering any monitor, registers the eleven monitors in
      their fixed order, runs the proximity policy, and only then probes
      the two control files. */
  lemma {:induction false} InitOrdering(prox: seq<Effect>)
    requires PolicyKinds(prox)
    ensures var effs := InitEffects(prox);
      && |effs| == 17 + |prox|
      && effs[..3] == SetupTriggers
      && effs[3] == Publish(LidCoverPipe, Cover(CoverOpen))
      && (forall i :: 0 <= i < |effs| && effs[i].RegisterMonitor? ==> 4 <= i < 15)
      && effs[4..15] == RegisterAll(RegistrationOrder)
      && effs[15..|effs| - 2] == prox
      && effs[|effs| - 2..] == [ProbeWritable(ProximitySensorDisablePath), ProbeWritable(CamFocusDisablePath)]
      && (forall i :: 0 <= i < |effs| - 2 ==> !effs[i].ProbeWritable?)
  {
    var regs := RegisterAll(RegistrationOrder);
    RegistrationsOnly(RegistrationOrder);
    var effs := InitEffects(prox);
    forall i | 0 <= i < |effs|
      ensures effs[i].RegisterMonitor? ==> 4 <= i < 15
      ensures i < |effs| - 2 ==> !effs[i].ProbeWritable?
    {
      if 4 <= i < 15 {
        assert effs[i] == regs[i - 4];
        assert regs[i - 4] in regs;
      } else if 15 <= i < |effs| - 2 {
        assert effs[i] == prox[i - 15];
        assert prox[i - 15] in prox;
      }
    }
  }

  lemma {:induction false} RegistrationsOnly(ms: seq<Monitor>)
    ensures |RegisterAll(ms)| == |ms|
    ensures forall e :: e in RegisterAll(ms) ==> e.RegisterMonitor?
  {
  }

  /** On a first init the proximity capability flag is still false, so the
      proximity policy run inside init writes, reads and republishes
      nothing: the only publish of init is the lid-cover seed. */
  lemma FirstInitLeavesProximityAlone(call: CallState, alarm: AlarmUiState, contents: Option<string>,
                                      cfg: ValidConfig)
    ensures forall e :: e in InitEffects(ProximityMonitorEffects(false, call, alarm, contents, cfg)) ==>
      !e.WriteFile? && !e.ReadFile? && (e.Publish? ==> e == Publish(LidCoverPipe, Cover(CoverOpen)))
  {
  }

  /** Everything one run of `mce_switches_exit` does with the ids it finds. */
  function ExitEffects(ids: IomonIds): (effs: seq<Effect>)
    ensures |effs| == 14
    ensures effs[..3] == TeardownTriggers
    ensures forall i :: 3 <= i < 14 ==> effs[i] == UnregisterMonitor(ids.Get(UnregistrationOrder[i - 3]))
  {
    TeardownTriggers + UnregisterAll(UnregistrationOrder, ids)
  }

  /** The effects of exit as the one-call-at-a-time appends that produce
      them, starting from any earlier log. */
  lemma {:induction false} ExitLog(start: seq<Effect>, ids: IomonIds)
    ensures start + ExitEffects(ids) ==
      start + [RemoveTrigger(OutputTrigger, SubmodePipe, SubmodeTrigger)]
      + [RemoveTrigger(InputTrigger, AlarmUiStatePipe, AlarmUiStateTrigger)]
      + [RemoveTrigger(InputTrigger, CallStatePipe, CallStateTrigger)]
      + [UnregisterMonitor(ids.batCover)] + [UnregisterMonitor(ids.mmcCover)] + [UnregisterMonitor(ids.mmc0Cover)]
      + [UnregisterMonitor(ids.lensCover)] + [UnregisterMonitor(ids.usbCable)] + [UnregisterMonitor(ids.proximitySensor)]
      + [UnregisterMonitor(ids.lidCover)] + [UnregisterMonitor(ids.camLaunch)] + [UnregisterMonitor(ids.camFocus)]
      + [UnregisterMonitor(ids.kbdSlide)] + [UnregisterMonitor(ids.lockkey)]
  {
    UnregistrationsSpelledOut(ids);
  }

  /** What taking down one init step looks like: a trigger is removed from
      the pipe it was added to, a registered monitor is unregistered by the
      id its registration returned; publishes, file accesses and probes
      leave nothing to undo. */
  function Inverse(e: Effect, world: World): seq<Effect> {
    match e
    case AppendTrigger(kind, pipe, trigger) => [RemoveTrigger(kind, pipe, trigger)]
    case RegisterMonitor(path, _) => [UnregisterMonitor(world.Register(path))]
    case _ => []
  }

  /** The undo of a sequence of steps: each step's inverse, last step first. */
  function Undo(effs: seq<Effect>, world: World): seq<Effect>
    decreases |effs|
  {
    if effs == [] then [] else Undo(effs[1..], world) + Inverse(effs[0], world)
  }

  lemma {:induction false} UndoAppend(a: seq<Effect>, b: seq<Effect>, world: World)
    ensures Undo(a + b, world) == Undo(b, world) + Undo(a, world)
    decreases |a|
  {
    if a == [] {
      assert a + b == b;
    } else {
      assert (a + b)[1..] == a[1..] + b;
      UndoAppend(a[1..], b, world);
    }
  }

  /** Steps with nothing to undo. */
  lemma {:induction false} UndoInert(effs: seq<Effect>, world: World)
    requires forall e :: e in effs ==> !e.AppendTrigger? && !e.RegisterMonitor?
    ensures Undo(effs, world) == []
    decreases |effs|
  {
    if effs != [] {
      assert effs[0] in effs;
      assert forall e :: e in effs[1..] ==> e in effs;
      UndoInert(effs[1..], world);
    }
  }

  /** `s` back to front. */
  function Reverse<T>(s: seq<T>): (r: seq<T>)
    ensures |r| == |s|
    ensures forall i :: 0 <= i < |s| ==> r[i] == s[|s| - 1 - i]
  {
    seq(|s|, i requires 0 <= i < |s| => s[|s| - 1 - i])
  }

  /** Reversing a non-empty sequence puts its head last. */
  lemma ReverseCons<T>(s: seq<T>)
    requires s != []
    ensures Reverse(s) == Reverse(s[1..]) + [s[0]]
  {
    var r := Reverse(s[1..]) + [s[0]];
    assert forall i :: 0 <= i < |s| - 1 ==> r[i] == s[1..][|s| - 2 - i];
  }

  lemma {:induction false} UndoRegisterAll(ms: seq<Monitor>, world: World)
    ensures Undo(RegisterAll(ms), world) == UnregisterAll(Reverse(ms), RegisteredIds(world))
    decreases |ms|
  {
    if ms != [] {
      var ids := RegisteredIds(world);
      var head := RegisterMonitor(PathOf(ms[0]), CallbackOf(ms[0]));
      assert RegisterAll(ms) == [head] + RegisterAll(ms[1..]);
      UndoAppend([head], RegisterAll(ms[1..]), world);
      UndoRegisterAll(ms[1..], world);
      assert Undo([head], world) == [UnregisterMonitor(ids.Get(ms[0]))];
      UnregisterAllAppend(Reverse(ms[1..]), [ms[0]], ids);
      ReverseCons(ms);
    }
  }

  lemma {:induction false} UnregisterAllAppend(a: seq<Monitor>, b: seq<Monitor>, ids: IomonIds)
    ensures UnregisterAll(a + b, ids) == UnregisterAll(a, ids) + UnregisterAll(b, ids)
  {
  }

  lemma UnregistrationReversesRegistration()
    ensures UnregistrationOrder == Reverse(RegistrationOrder)
  {
  }

  /** The three triggers come off last-added first. */
  lemma UndoSetupTriggers(world: World)
    ensures Undo(SetupTriggers, world) == TeardownTriggers
  {
  }

  /** The monitors come off last-registered first, each by the id its
      registration returned. */
  lemma UndoRegistrations(world: World)
    ensures Undo(RegisterAll(RegistrationOrder), world)
         == UnregisterAll(UnregistrationOrder, RegisteredIds(world))
  {
    UndoRegisterAll(RegistrationOrder, world);
    UnregistrationReversesRegistration();
  }

  /** The policy run and the probes at the end of init leave nothing to
      undo. */
  lemma {:induction false} UndoInitTail(world: World, prox: seq<Effect>)
    requires PolicyKinds(prox)
    ensures Undo(InitEffects(prox), world)
         == Undo(SetupTriggers + [Publish(LidCoverPipe, Cover(CoverOpen))] + RegisterAll(RegistrationOrder), world)
  {
    var front := SetupTriggers + [Publish(LidCoverPipe, Cover(CoverOpen))] + RegisterAll(RegistrationOrder);
    var probes := [ProbeWritable(ProximitySensorDisablePath), ProbeWritable(CamFocusDisablePath)];
    UndoAppend(front + prox, probes, world);
    UndoInert(probes, world);
    UndoAppend(front, prox, world);
    UndoInert(prox, world);
  }

  /** A step with nothing to undo between two runs of steps drops out of
      their undo. */
  lemma {:induction false} UndoAround(front: seq<Effect>, e: Effect, back: seq<Effect>, world: World)
    requires !e.AppendTrigger? && !e.RegisterMonitor?
    ensures Undo(front + [e] + back, world) == Undo(back, world) + Undo(front, world)
  {
    UndoAppend(front + [e], back, world);
    UndoAppend(front, [e], world);
    UndoInert([e], world);
  }

  /** Of all init steps only the triggers and the registrations need
      undoing; the undo of init is theirs, registrations first. */
  lemma {:induction false} UndoInitGroups(world: World, prox: seq<Effect>)
    requires PolicyKinds(prox)
    ensures Undo(InitEffects(prox), world)
         == Undo(RegisterAll(RegistrationOrder), world) + Undo(SetupTriggers, world)
  {
    UndoInitTail(world, prox);
    UndoAround(SetupTriggers, Publish(LidCoverPipe, Cover(CoverOpen)), RegisterAll(RegistrationOrder), world);
  }

  /** Exit takes down what init set up, each kind in the reverse of the
      order init used: the three triggers last-added first, then each
      monitor by the id its registration returned, last-registered first.
      Exit removes the triggers before the monitors although init added
      them first, so the complete undo of init is exit with its two groups
      swapped. */
  lemma {:induction false} ExitUndoesInit(world: World, prox: seq<Effect>)
    requires PolicyKinds(prox)
    ensures var init := InitEffects(prox);
            var exit := ExitEffects(RegisteredIds(world));
      && |init| >= 15
      && exit[..3] == Undo(init[..3], world)
      && exit[3..] == Undo(init[4..15], world)
      && Undo(init, world) == exit[3..] + exit[..3]
  {
    var init := InitEffects(prox);
    var exit := ExitEffects(RegisteredIds(world));
    assert init[..3] == SetupTriggers;
    assert init[4..15] == RegisterAll(RegistrationOrder);
    UndoSetupTriggers(world);
    UndoRegistrations(world);
    UndoInitGroups(world, prox);
    assert exit[3..] == UnregisterAll(UnregistrationOrder, RegisteredIds(world));
  }

  /** The same for the init `Switches.Init` actually performs, whatever
      its proximity policy run does: exit's first three steps undo init's
      triggers and its last eleven undo init's registrations. */
  lemma {:induction false} ExitUndoesEveryInit(disableExists: bool, call: CallState, alarm: AlarmUiState,
                                               contents: Option<string>, cfg: ValidConfig, world: World)
    ensures var init := InitEffects(ProximityMonitorEffects(disableExists, call, alarm, contents, cfg));
            var exit := ExitEffects(RegisteredIds(world));
      && |init| >= 15
      && exit[..3] == Undo(init[..3], world)
      && exit[3..] == Undo(init[4..15], world)
      && Undo(init, world) == exit[3..] + exit[..3]
  {
    ProximityEffectKinds(disableExists, call, alarm, contents, cfg);
    ExitUndoesInit(world, ProximityMonitorEffects(disableExists, call, alarm, contents, cfg));
  }
}
