# Switch event provider — a Dafny model

This project models the switch event provider of the mode control entity
(`event-switches.c`). The provider watches sysfs attribute files through
I/O monitors and decodes each payload by a fixed-prefix match:
`!strncmp(data, MARKER, strlen(MARKER))`. It then publishes the decoded
state, and in some cases "device active", on datapipes. It also does two
more things:

- It gates two hardware interrupts from cached datapipe state:
  - the proximity sensor, from the call state and the alarm UI state:
    during a ringing or active call, or a visible or ringing alarm, it
    writes "0" (interrupt enabled) and re-reads the sensor; otherwise it
    writes "1";
  - the camera focus, on edges of the touch-lock submode bit.
- At module init it installs its triggers and registers eleven monitors.
  At exit it takes them down again.

The project has these parts:

- `types.dfy` (`SwitchTypes`): the shared vocabulary.
  - The typed states, datapipes, paths, callbacks and triggers.
  - The abstract header constants (`Config`): NUL-free markers, a non-zero
    touch-lock bit, and a normal submode with that bit clear.
  - The answers of the collaborators (`World`): the id a registration
    returns, whether a path is writable, and what a read yields.
  - One `Effect` per observable collaborator call.
- `decode.dfy` (`Decode`): C's `strncmp` over NUL-terminated text, the
  proof that the marker test means "starts with the marker", and the four
  decoders.
- `callbacks.dfy` (`Callbacks`): what each of the eight I/O-monitor
  callbacks publishes, and in which order.
- `policy.dfy` (`Policy`): the proximity gating table, the
  latest-value-wins behaviour of the two input triggers, and the edge
  detection of the submode trigger.
- `lifecycle.dfy` (`Lifecycle`): the effects of init and exit, their order,
  and how exit undoes init.
- `switches.dfy` (`EventSwitches`): the module as a class.
  - Its fields are the C statics. The eleven `*_iomon_id` statics are the
    eleven components of one `IomonIds` field.
  - `log` records every collaborator call, oldest first.
  - Each method mirrors its C function branch for branch. It is proved to
    append exactly the effects that the matching function in `Callbacks`,
    `Policy` or `Lifecycle` specifies, and to set the fields the C sets.

## Model

| member | source | states |
|---|---|---|
| `EventSwitches.Switches.constructor` | event-switches.c:42-87 | the statics start as the source initialises them: all eleven monitor ids NULL, both disable capabilities FALSE, call state and alarm UI state INVALID, `has_flicker_key` FALSE, and the submode trigger's remembered submode the normal submode (its initialiser at line 405); the log is empty |
| `Decode.StrNCmpZeroIffPrefix` | event-switches.c:121-126 | `strncmp(data, marker, strlen(marker)) == 0` holds exactly when `data` starts with `marker`, for every payload including the empty one (proved by induction over the marker) |
| `Decode.Matches` | event-switches.c:153-158 | the prefix test every callback applies is true exactly when the payload starts with the marker |
| `Decode.DecodeCover` | event-switches.c:180-189 | a cover decodes to open exactly when the payload starts with the open marker, and to closed otherwise (slide, lid, lens, proximity) |
| `Decode.DecodeCable` | event-switches.c:269-274 | the USB cable decodes to connected exactly when the payload starts with the connected marker, and to disconnected otherwise |
| `Decode.DecodeCameraButton` | event-switches.c:121-126 | the camera button decodes to launch exactly when the payload starts with the active marker, and to unpressed otherwise |
| `Decode.DecodeLockkey` | event-switches.c:153-158 | the flicker key decodes to 1 exactly when the payload starts with the active marker, and to 0 otherwise |
| `Callbacks.CallbackEffects` | event-switches.c:96-316 | activity is published exactly when the switch table says so: always for generic, camera launch and USB cable; on opening for slide, lid and lens; never for lock key and proximity. Activity, when published, comes first. The generic callback publishes activity only; every other callback then publishes exactly its prefix-decoded state on its own pipe |
| `EventSwitches.Switches.GenericActivityIomonCb` | event-switches.c:96-106 | publishes activity only and returns FALSE |
| `EventSwitches.Switches.CameraLaunchButtonIomonCb` | event-switches.c:115-138 | publishes activity, then the decoded button state; returns FALSE |
| `EventSwitches.Switches.LockkeyIomonCb` | event-switches.c:147-165 | publishes the decoded key level and no activity; returns FALSE |
| `EventSwitches.Switches.KbdSlideIomonCb` | event-switches.c:174-196 | publishes activity only when the slide opens, then the decoded slide state; returns FALSE |
| `EventSwitches.Switches.LidCoverIomonCb` | event-switches.c:205-227 | publishes activity only when the lid opens, then the decoded lid state; returns FALSE |
| `EventSwitches.Switches.ProximitySensorIomonCb` | event-switches.c:236-254 | publishes the decoded sensor state and no activity; returns FALSE |
| `EventSwitches.Switches.UsbCableIomonCb` | event-switches.c:263-285 | publishes activity, then the decoded cable state; returns FALSE |
| `EventSwitches.Switches.LensCoverIomonCb` | event-switches.c:294-316 | publishes activity only when the lens cover opens, then the decoded lens state; returns FALSE |
| `Policy.SensorStateEffects` | event-switches.c:324-350 | re-reading the sensor always reads the sensor file first. A failed read publishes nothing; a successful read publishes exactly what the proximity callback publishes for the same text |
| `EventSwitches.Switches.UpdateProximitySensorState` | event-switches.c:324-350 | returns FALSE on every path and appends exactly the read and, on success, the republish |
| `Policy.ProximityMonitorTable` | event-switches.c:355-372 | the gating table. With the capability absent there is no effect at all. During a ringing or active call, or a visible or ringing alarm, it writes "0", re-reads the sensor and republishes it when the read succeeds. Otherwise it writes "1" once and does not re-read |
| `Policy.ProximityEffectKinds` | event-switches.c:355-372 | the proximity policy only writes the disable file, reads the sensor file and publishes; it never registers, probes or touches a trigger |
| `EventSwitches.Switches.UpdateProximityMonitor` | event-switches.c:355-372 | appends exactly the effects of the gating table for the current capability flag and cached call and alarm states |
| `EventSwitches.Switches.CallStateTrigger` | event-switches.c:379-384 | changes only the cached call state (to the new value), then appends the gating effects for the new call state and the unchanged alarm state |
| `EventSwitches.Switches.AlarmUiStateTrigger` | event-switches.c:391-396 | changes only the cached alarm UI state (to the new value), then appends the gating effects for the unchanged call state and the new alarm state |
| `Policy.ReplayKeepsLatest` | event-switches.c:379-396 | after any interleaving of call and alarm events, the cache holds the latest call value and the latest alarm value, so the proximity decision depends on those two only |
| `Policy.SubmodeEffects` | event-switches.c:403-425 | at most one write, and only on an edge of the touch-lock bit. The rising edge writes "1" exactly when the capability exists and the focus monitor id is non-NULL; the falling edge writes "0" exactly when the capability exists. An unchanged bit writes nothing |
| `EventSwitches.Switches.SubmodeTrigger` | event-switches.c:403-425 | appends the edge effects computed against the remembered submode, then remembers the new submode |
| `Policy.FocusWritesAlternate` | event-switches.c:403-425 | over any run of submodes (capability present, focus monitor registered) the writes alternate: starting with "1" from an unlocked submode and with "0" from a locked one. The number of writes is even exactly when the final bit equals the initial one, so no write is ever repeated |
| `Policy.LockThenOtherBit` | event-switches.c:408-413 | locking from an unlocked submode writes "1" once; a further change of other bits while still locked writes nothing more |
| `Lifecycle.RegistrationsSpelledOut` | event-switches.c:451-516 | init registers the eleven monitors in the source's order, each with its path and its callback |
| `Lifecycle.UnregistrationsSpelledOut` | event-switches.c:549-559 | exit unregisters the eleven ids in the source's order |
| `Lifecycle.InitOrdering` | event-switches.c:432-534 | init first installs the three triggers, then publishes lid-cover open before any registration. It registers the eleven monitors, runs the proximity policy, and only then probes the two disable files; no registration or probe happens anywhere else |
| `Lifecycle.FirstInitLeavesProximityAlone` | event-switches.c:518 | with the initial FALSE capability flag, the policy run inside init writes, reads and republishes nothing; the only publish of init is the lid-cover seed |
| `EventSwitches.Switches.RegisterIoMonitors` | event-switches.c:451-516 | each id becomes what registering its path returned, and the eleven registrations are logged in order |
| `EventSwitches.Switches.ProbeCapabilities` | event-switches.c:520-527 | `has_flicker_key` becomes TRUE when the lock-key id is non-NULL and is otherwise left as it was; each disable flag becomes whether its file is writable; the two probes are logged in order |
| `EventSwitches.Switches.Init` | event-switches.c:432-534 | always returns TRUE. The ids are the registration results and `has_flicker_key` is set from the lock-key id; the two capability flags come from the probes. The log gains exactly the init effects, with the policy run evaluated under the capability flag as it stood before the probes |
| `Lifecycle.ExitEffects` | event-switches.c:539-563 | exit is fourteen steps: the three trigger removals in reverse order of installation, then one unregistration per monitor in reverse order of registration |
| `EventSwitches.Switches.Exit` | event-switches.c:539-563 | appends exactly the exit effects for the stored ids and changes no field |
| `Lifecycle.UndoRegisterAll` | event-switches.c:451-516 | undoing any run of registrations unregisters each monitor by the id its registration returned, in the reverse order |
| `Lifecycle.UndoAppend` | event-switches.c:539-563 | the undo of two runs of steps is the undo of the second followed by the undo of the first |
| `Lifecycle.UndoInert` | event-switches.c:445-447 | publishes, file accesses and probes leave nothing to undo |
| `Lifecycle.UndoInitGroups` | event-switches.c:432-534 | the undo of all of init is the undo of its registrations followed by the undo of its triggers |
| `Lifecycle.ExitUndoesInit` | event-switches.c:539-563 | exit's first three steps are exactly the undo of init's triggers, and its last eleven are exactly the undo of init's registrations with the ids they returned. The complete undo of init is exit with these two groups swapped |
| `Lifecycle.ExitUndoesEveryInit` | event-switches.c:432-563 | for every proximity policy run init can perform (any capability flag, call and alarm state and sensor read), exit's first three steps undo init's triggers, its last eleven undo init's registrations, and the complete undo of init is exit with these two groups swapped |

## Left out

- The I/O-monitor registry, the file read and write helpers and
  `g_access` are foreign code. They are parameters: a `World` value says
  what each registration returns, which paths are writable and what a read
  yields. Each call is recorded in the log; nothing about their internals
  is modelled.
- The datapipe bus (`execute_datapipe`, trigger append and remove) is
  modelled as effects in the log. Caching, filtering and the synchronous
  running of other modules' triggers are not modelled.
- Marker strings, sysfs paths, pipe objects and the numeric values of the
  enums and submode bits are defined in headers that are not part of this
  model. They are abstract constants, with only the facts the code relies
  on: markers have no NUL, the touch-lock bit is non-zero, and the normal
  submode has it clear.
- `GINT_TO_POINTER` and `GPOINTER_TO_INT` are not modelled. The triggers
  receive the decoded call state, alarm state or submode. Call and alarm
  values the policy does not test are `OtherCall` and `OtherAlarmUi`.
- The `bytes_read` arguments, the error policy and event flags passed at
  registration, `errno = 0` and `g_free` have no observable effect here
  and are not modelled.
- The outcome of the two disable-file writes is ignored by the source, so
  it is not modelled.
- EventSwitches.Switches.RegisterIoMonitors: the eleven registrations are
  appended to the log together after the ids are stored. No collaborator
  reads the ids in between, so the logged order and the final state match
  the source's one-at-a-time sequence.
- The eleven `*_iomon_id` statics are kept as the components of one field
  rather than as eleven separate fields.
- Concurrency and re-entrancy are not modelled: the module runs on one
  main loop, and each method runs to completion.
- Exit is not the exact reverse of init as a whole. It removes the three
  triggers before unregistering the monitors, although init installed the
  triggers first. Each group is taken down in reverse order.
  `Lifecycle.ExitUndoesInit` states the code's actual order.
