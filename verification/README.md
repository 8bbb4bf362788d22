# A verified model of the xBloom integration

The xBloom integration drives a coffee machine over Bluetooth from Home Assistant. This project
models the parts of it whose correctness depends on more than one function and proves, in Dafny
4.11, what they promise over every input, every interleaving or every history.
`dafny verify dfyconfig.toml` checks the whole project.

| file | what it models |
|---|---|
| `Crc.dfy`, `Frames.dfy` | the CRC-16, the packet builder and parsers, the resynchronising frame scanner |
| `Payload.dfy`, `Tea.dfy`, `Rescale.dfy` | the recipe compiler: coffee and tea encodings, the ratio footer, rescaling of pours |
| `UnitSync.dfy` | the settings-sync protocol between user, machine and push |
| `ArmConfirm.dfy` | the arm / confirm / cancel state machine behind the buttons |
| `BrewChain.dfy` | the ACK-gated brew chains under the sleep retry, waking the machine included |
| `CancelExecute.dfy` | a cancel, and what else happens, during a one-shot execute: the two before it interleaved |
| `Names.dfy`, `RecipeStore.dfy`, `RecipeTable.dfy` | the layered recipe store (YAML, overlay, tombstones, stable uids) and the flat table it refines |
| `EasySlots.dfy` | Easy Mode slot writes and their records |
| `Heartbeat.dfy`, `GlitchFilter.dfy` | the status-code latches and the scale filter |
| `Backoff.dfy` | the reconnect supervisor |
| `Basics.dfy`, `Numbers.dfy` | shared types, Python's rounding functions |

Code that changes fields step by step is a class whose methods are proved to do exactly one step
of a specification on values (`View() == Step(old(View()), …)`), and the theorems are about runs of
those steps. In the asynchronous parts a step is a stretch of code between two awaits, so a run is
any interleaving; what the outside world does (echoes, timeouts, write errors, sleep readings,
screen polls, the times of events) is unconstrained input. Theorems about the past are stated over
the log of a run, which nothing in the program reads. Floating-point quantities are reals.

## What turned out not to hold

Each of these has a lemma with a failing input or run, and one that says exactly when the property
does hold.

- The frame scanner loops forever at a candidate of length zero (`Frames.ZeroLengthHangs`); it
  returns exactly if it does not stop at one (`Frames.ScanExactly`).
- The coffee encoding is not uniquely decodable for temperature 0, which construction allows
  (`Payload.UnheatedPoursAreAmbiguous`); it decodes exactly if every temperature is set
  (`Payload.DecodesIffHeated`).
- Rescaling to a target smaller than the pours can share out overshoots it
  (`Rescale.TooSmallATargetOvershoots`, `Rescale.RescaledTotal`).
- The arm is checked at the press, not when a start is sent. A start can go out after its arm has
  ended, and a tea recipe then goes out as the coffee start, in two ways. A press that has to wait,
  for the link or for the machine to wake, is overtaken by a cancel
  (`ArmConfirm.CancelAfterThePressIsTooLate`), a start signal (`ArmConfirm.StartSignalWhileWaiting`)
  or a second press (`ArmConfirm.SecondPressGoesOutAsCoffee`). And any press, ready or not, can be
  cancelled during the delay before a retry (`ArmConfirm.LateRetry`). The k-th start of a press is
  certain to go out under its own arm exactly if it is the first, the link is up and the machine
  awake (`ArmConfirm.StartIsSafeIff`, `ArmConfirm.TeaStartIsSafeIff`), so no press is safe for its
  retries.
- A cancel does not stop a one-shot execute. It changes the run exactly if the machine sleeps when
  the service is called, the handshake does not wake it, something is armed, and the cancel comes
  before the wait is over (`CancelExecute.CancelChangesExecuteIff`); from the first attempt on it
  changes nothing. What it changes is that the link is made anew, which is kept from happening only
  while something is armed (`BrewChain.ReconnectsIff`), so it can be the cancel that lets the brew
  go out (`CancelExecute.CancelCausesTheBrew`, `CancelExecute.ArmedGrinderThenExecute`).
- Tea bytes can outlive their arm (`ArmConfirm.StaleBytes`, `ArmConfirm.HeldBytesBelongIff`).
- Bundled defaults seeded into an empty store hide YAML recipes of the same name
  (`RecipeStore.BundledDefaultHidesYaml`, `RecipeStore.LostExactlyWhen`).
- A slot write succeeds although the machine slept through all of it
  (`EasySlots.AsleepWriteDisagrees`); what it takes for agreement is in `EasySlots.WriteAgreesIff`.
- An edit is not on the machine until the next slot write (`EasySlots.EditedRecipeDisagrees`,
  `EasySlots.EditKeepsAgreementIff`), and a slot other than the one asked for can be written with
  a tea recipe compiled as coffee (`EasySlots.TeaReachesASlot`, `EasySlots.TeaSlipsThroughIff`).
- Slot writes are not kept apart, from each other or from edits: see
  `EasySlots.OverlappingWritesDisagree`, `EasySlots.StaleTargetDisagrees` and
  `EasySlots.UndisturbedWriteAgreesIff`.
- A status frame need not give a label or a page, against the comment in
  `custom_components/xbloom/ble/client.py:771-773` (`Heartbeat.UnmappedCodeGivesNeither`,
  `Heartbeat.AtMostOneLabel`).
- From the 1025th consecutive failure on the delay overflows a float, the gate is not armed and the
  supervisor no longer backs off (`Backoff.BackoffEndsPast1024`, `Backoff.SupervisorWaits`).

## Model

| member | source | states |
|---|---|---|
| `Crc.Crc16` | custom_components/xbloom/ble/framing.py:49-59 | the byte loop computes the register specification `Checksum` on every input |
| `Crc.ShiftEight` | custom_components/xbloom/ble/framing.py:54-58 | the inner loop of eight conditional shifts is the byte step |
| `Crc.ChecksumLinear` | custom_components/xbloom/ble/framing.py:49-59 | the CRC of the XOR of two equally long inputs is the XOR of their CRCs |
| `Crc.BurstDetected` | custom_components/xbloom/ble/framing.py:49-59 | equally long inputs that differ only within two adjacent bytes never share a CRC |
| `Crc.ResidueZero` | custom_components/xbloom/ble/framing.py:49-59 | any message followed by its own CRC has CRC zero |
| `Crc.ChecksumIsTheRemainder` | custom_components/xbloom/ble/framing.py:49-59 | which code it is: with the bits in wire order as a polynomial, message x x^16 plus the checksum is a multiple of x^16 + x^12 + x^5 + 1, and no other 16 bits make it one |
| `Frames.BuildPacketRaw` | custom_components/xbloom/ble/framing.py:78-95 | builds header, kind, device, command, length, marker, data and seal for every 16-bit command, and fails exactly when a field does not pack |
| `Frames.PacketRoundTrip` | custom_components/xbloom/ble/framing.py:78-139 | `frame_command` and `frame_payload` invert the builder, the declared length is the real one, and the sealed packet has residue zero |
| `Frames.PacketLayout` | custom_components/xbloom/ble/framing.py:78-95 | field by field in literal bytes and positions: 0x58, device, kind, command, total length, 0x01, data, checksum, all numbers lowest byte first |
| `Frames.DamagedPacketDetected` | custom_components/xbloom/ble/framing.py:49-95 | damage to a sealed packet within two adjacent bytes always leaves a non-zero residue |
| `Frames.IterFrames` | custom_components/xbloom/ble/framing.py:98-129 | the offset loop yields what the recursive specification yields, and says whether it would loop forever |
| `Frames.ScanExactly` | custom_components/xbloom/ble/framing.py:98-129 | on any buffer: the yields are in-order, disjoint, in-bounds slices that pass the header, length and marker checks; up to where the scanner stops, every position is inside a yielded slice or starts no frame; and it never returns exactly if it stops at a candidate of length zero |
| `Frames.ScannerRecoversFrames` | custom_components/xbloom/ble/framing.py:98-129 | noise, frames with noise between them, and a frame cut short: exactly the whole frames come out, in order |
| `Frames.ZeroLengthHangs` | custom_components/xbloom/ble/framing.py:129 | after a zero-length candidate it makes no progress, having yielded the frames before it |
| `Frames.CandidateBytes` | custom_components/xbloom/ble/framing.py:98-129 | what the scanner takes for a frame, in literal bytes: header 0x58 or 0x02, at most 256 declared bytes, marker 0xC1 or 0xC2 |
| `Payload.BuildRecipePayload` | custom_components/xbloom/ble/models.py:176-224 | the loop over pours produces the block encoding, or fails exactly when a field or the length byte does not pack |
| `Payload.BuildSubSteps` | custom_components/xbloom/ble/models.py:195-215 | the chunking of one pour |
| `Payload.CoffeeBodyDecodes` | custom_components/xbloom/ble/models.py:193-220 | for every pour list with temperatures set, a decoder of the blocks recovers volume, temperature, pattern, vibration, pause mod 256 and flow tenths of every pour |
| `Payload.DecodesIffHeated` | custom_components/xbloom/ble/models.py:136-220 | for every pour list that packs, the decoder gives the list back exactly when every pour has a temperature |
| `Payload.CoffeePayloadDecodes` | custom_components/xbloom/ble/models.py:176-224 | the same from the bytes of a whole coffee payload, footer included |
| `Payload.ChunksCarryTheVolume` | custom_components/xbloom/ble/models.py:195-215 | sub-steps are at most 127 ml and sum to the pour's volume |
| `Payload.LengthByteNeverOverflows` | custom_components/xbloom/ble/models.py:162-224 | up to 20 valid pours of up to 254 ml always fit the length byte |
| `Payload.UnheatedPoursAreAmbiguous` | custom_components/xbloom/ble/models.py:136-148 | with temperature 0 two different valid pour lists have the same encoding |
| `Payload.BuildCoffeeRecipePayload` | custom_components/xbloom/brewing.py:206-252 | strips and rebuilds the base payload with the ratio footer |
| `Payload.RatioNeverUndershoots` | custom_components/xbloom/brewing.py:228-252 | while 10 x pours is at most 255 x dose, dose x byte covers ten times the pours and overshoots by less than one dose; beyond that the byte is 255 |
| `Payload.OnlyTheFooterDiffers` | custom_components/xbloom/brewing.py:228-252 | every byte but the last is `build_recipe_payload`'s |
| `Payload.Footers` | custom_components/xbloom/brewing.py:206-252 | the last two bytes of either payload: grind size, then water in tenths or the ratio, zero without a dose |
| `Payload.PacksIff` | custom_components/xbloom/ble/models.py:176-224 | a payload exists exactly if no volume is negative, every field fits a byte and so does the body length, counted pour by pour |
| `Tea.BuildTeaPayload` | custom_components/xbloom/brewing.py:142-203 | the loop over steeps produces the tea encoding |
| `Tea.SplitSteps` | custom_components/xbloom/brewing.py:173-184 | the 127 ml splitting loop, for any volume |
| `Tea.CapNeverSplits` | custom_components/xbloom/brewing.py:173-184 | a steep with water is exactly one block of 1 to 90 ml; the splitting loop never runs |
| `Tea.TeaBodyDecodes` | custom_components/xbloom/brewing.py:169-203 | a decoder recovers the number of steeps and each one's volume up to 90 ml, temperature, circular pattern, vibration, soak byte, speed and flow |
| `Tea.TeaPayloadDecodes` | custom_components/xbloom/brewing.py:169-203 | every valid recipe has a payload, with a body of at most 160 bytes that decodes to its steeps |
| `Tea.SoakFollowsThePause` | custom_components/xbloom/brewing.py:193 | the soak byte is 0.6 times the pause to within half a unit, from 1 to 255 |
| `Tea.TeaFooter` | custom_components/xbloom/brewing.py:198-203 | the last two bytes: grind size, and ten times the water per gram of the whole-gram dose without its fraction, zero below one gram |
| `Rescale.ScalePoursToTotal` | custom_components/xbloom/schema.py:209-232 | the empty and degenerate cases, the factor, and new volumes in otherwise unchanged pours: the whole computes `Scaled` |
| `Rescale.RoundEarlier` | custom_components/xbloom/schema.py:226-229 | the loop over all pours but the last: whole millilitres, at least one each, with their running sum |
| `Rescale.ShareOut` | custom_components/xbloom/schema.py:226-231 | the last pour takes what is left of the rounded target, at least one millilitre |
| `Rescale.RescaledTotal` | custom_components/xbloom/schema.py:209-232 | every pour is at least 1 ml, the sum never falls below the rounded target and equals it exactly when the earlier pours leave 1 ml |
| `Rescale.RescaledExactly` | custom_components/xbloom/schema.py:209-232 | it is exact whenever the last pour's scaled share is at least half a millilitre more than the pour count |
| `Rescale.RescaledShares` | custom_components/xbloom/schema.py:209-232 | pour by pour: the whole millilitres nearest to its exact share, at least one; the last pour what is left |
| `Rescale.NothingToRescale` | custom_components/xbloom/coordinator/recipes.py:247-260 | without pours, water, target, dose or ratio nothing changes |
| `Rescale.OverrideMeetsTheRatio` | custom_components/xbloom/coordinator/recipes.py:247-260 | after a dose or ratio override pours plus bypass are within half a millilitre of dose x ratio |
| `Rescale.TooSmallATargetOvershoots` | custom_components/xbloom/schema.py:209-232 | two equal pours scaled to 1 ml come out as 2 ml |
| `UnitSync.Reachable` | custom_components/xbloom/coordinator/connection.py:651-742 | the invariant of the protocol holds after every interleaving |
| `UnitSync.SettingsAgreement` | custom_components/xbloom/coordinator/connection.py:704-742 | each key is pending, or untouched since start, or equals what the last finished SET carried or adopted report gave; the key in flight is pending |
| `UnitSync.NoReportWhilePending` | custom_components/xbloom/coordinator/connection.py:843-881 | between a user change and the clearing of its key no report alters the key |
| `UnitSync.ClearedByLatestValue` | custom_components/xbloom/coordinator/connection.py:707-740 | the SET whose completion clears a key carried the user's latest value, change-and-change-back included |
| `UnitSync.EverySetWasAskedFor` | custom_components/xbloom/coordinator/connection.py:704-742 | every SET carries a value a user asked for and that was not cleared since |
| `UnitSync.PlainReconnectSendsNothing` | custom_components/xbloom/coordinator/connection.py:370-371 | with no user change no SET is ever sent |
| `UnitSync.EchoedOptionsChangeNothing` | custom_components/xbloom/coordinator/connection.py:883-925 | an options write that repeats the current values changes nothing |
| `UnitSync.PushDeliversEverything` | custom_components/xbloom/coordinator/connection.py:704-742 | an undisturbed push cannot release the lock with anything pending |
| `UnitSync.ReportIsAdopted` | custom_components/xbloom/coordinator/connection.py:851-881 | after a report every key that is not pending and that the report speaks of holds the setting with the reported number, by a table written out; all others are as before, and `Adopted` is logged exactly where a value moved |
| `UnitSync.CodesAreTheReportedNumbers` | custom_components/xbloom/coordinator/connection.py:769-777 | a SET carries the very number a report gives for the setting |
| `UnitSync.ChangeIsQueued` | custom_components/xbloom/coordinator/connection.py:883-925 | after an options change every option given is held, and exactly the keys that moved are queued on top |
| `UnitSync.PushBegins` | custom_components/xbloom/coordinator/connection.py:704-718 | a push with the lock sends the first pending key in the order weight, temperature, water |
| `UnitSync.EchoEndsTheSend` | custom_components/xbloom/coordinator/connection.py:723-742 | an echo clears the key if its value is still the one sent, and sends the next pending key or the machine home |
| `UnitSync.SilenceResends` | custom_components/xbloom/coordinator/connection.py:779-807 | in every run: two sends to an awake machine, three with rests between to a sleeping one, then the send is given up on |
| `UnitSync.LockIsFreed` | custom_components/xbloom/coordinator/connection.py:718-720 | a hard failure and the way home free the lock and touch nothing else |
| `UnitSync.Coordinator.constructor` | custom_components/xbloom/coordinator/connection.py:651-742 | starts with nothing pending and nothing in flight |
| `UnitSync.Coordinator.HandleUnitOptionsChange` | custom_components/xbloom/coordinator/connection.py:883-925 | one user-change step of the protocol |
| `UnitSync.Coordinator.SyncUnitsFromMachine` | custom_components/xbloom/coordinator/connection.py:828-881 | one report step: pending keys are left alone |
| `UnitSync.Coordinator.UnitPushCommand` | custom_components/xbloom/coordinator/connection.py:769-777 | command and code of the SET for a key |
| `UnitSync.Coordinator.AdvancePush` | custom_components/xbloom/coordinator/connection.py:707-742 | goes on to the next pending key in order, or home, or lets go of the lock |
| `UnitSync.Coordinator.BeginPush` | custom_components/xbloom/coordinator/connection.py:651-706 | takes the lock and starts the first SET |
| `UnitSync.Coordinator.FinishSend` | custom_components/xbloom/coordinator/connection.py:723-740 | clears the key only if the value did not change during the send |
| `UnitSync.Coordinator.SendAcknowledged` | custom_components/xbloom/coordinator/connection.py:779-807 | the echo step |
| `UnitSync.Coordinator.SendTimedOut` | custom_components/xbloom/coordinator/connection.py:779-807 | the timeout step: resend at once to an awake machine, rest first for a sleeping one, or finish unacknowledged |
| `UnitSync.Coordinator.RestOver` | custom_components/xbloom/coordinator/connection.py:805-807 | the rest is over: the same payload again |
| `UnitSync.Coordinator.SendFailed` | custom_components/xbloom/coordinator/connection.py:718-720 | a hard failure leaves everything pending and frees the lock |
| `UnitSync.Coordinator.HomeFinished` | custom_components/xbloom/coordinator/connection.py:744-767 | the closing back-to-home ends the push |
| `ArmConfirm.Reachable` | custom_components/xbloom/coordinator/operations.py:112-387 | the invariant of the state machine holds after every interleaving |
| `ArmConfirm.ArmSafety` | custom_components/xbloom/coordinator/operations.py:142-233 | every start a press sends goes back to a confirming press and to a completed arm of the same operation with no cancel, completed confirm, other arm, clearing signal or page-to-home exit between arm and press |
| `ArmConfirm.AtMostThreeStarts` | custom_components/xbloom/coordinator/connection.py:1089-1115 | with the attempts of the sleep retry as steps: one press sends its start at most three times |
| `ArmConfirm.PressConfirmsIffArmStands` | custom_components/xbloom/button.py:69-108 | a press confirms exactly when an arm of its own operation stands, so the press after any cancel arms |
| `ArmConfirm.RunsTellTheLog` | custom_components/xbloom/coordinator/state.py:181-227 | in every reachable state what runs, the pod prompt, and whether a manual run was seen at work, is paused or was shown paused, are what the log says, by readings of the log of their own |
| `ArmConfirm.EveryEventIsNoted` | custom_components/xbloom/coordinator/operations.py:112-387 | in every reachable state every event leaves exactly its entries in the log, starts and adopted manual runs included |
| `ArmConfirm.TasksFollow` | custom_components/xbloom/coordinator/connection.py:1089-1115 | every event of a task moves that task as written out, and no other |
| `ArmConfirm.PressOpensATask` | custom_components/xbloom/button.py:69-108 | a press opens the one task that its arm, the link and the sleep flag call for |
| `ArmConfirm.CancelEndsWhatGoesOn` | custom_components/xbloom/coordinator/operations.py:333-387 | with a table of what each command ends at the machine: a connected cancel ends exactly what was armed or asked for or, with nothing waiting, running; motors before their page, nothing twice but the stop of a motor that runs on; afterwards nothing is armed, running or asked for |
| `ArmConfirm.PauseGoesToWhatRuns` | custom_components/xbloom/coordinator/operations.py:235-296 | nothing over an arm, otherwise the pause or restart of what the log says runs |
| `ArmConfirm.TeaBytesHeld` | custom_components/xbloom/coordinator/recipes.py:393-402 | the flag set from the job and the bytes returned by the arm chain always agree, so the confirm never lacks its payload |
| `ArmConfirm.BytesHeldIff` | custom_components/xbloom/coordinator/recipes.py:393-443 | bytes are held exactly when a tea recipe was armed and nothing since dropped it: no recipe arm, cancel, recipe confirm end, Easy slot start, or start signal under an armed recipe |
| `ArmConfirm.ArmedRecipeHoldsItsOwn` | custom_components/xbloom/coordinator/recipes.py:393-402 | while a recipe is armed, flag and bytes are those of its own job: the tea payload, or nothing for coffee |
| `ArmConfirm.HeldBytesBelongIff` | custom_components/xbloom/coordinator/operations.py:142-233 | held bytes belong to an armed recipe exactly if no other operation was armed and no other confirm ended since |
| `ArmConfirm.StaleBytes` | custom_components/xbloom/coordinator/operations.py:206-209 | a run in which the grinder is armed and tea bytes are still held |
| `ArmConfirm.TeaStartCarriesArmedBytes` | custom_components/xbloom/coordinator/recipes.py:412-443 | a 4512 carries the bytes of the last completed recipe arm |
| `ArmConfirm.TeaStartIff` | custom_components/xbloom/coordinator/recipes.py:412-443 | a recipe start after a tea arm is 4512 with its bytes exactly if nothing dropped them since, and 8002 otherwise |
| `ArmConfirm.ReadyPressStarts` | custom_components/xbloom/coordinator/__init__.py:347-348 | with the link up and the machine awake a confirming press sends the start of its own arm at once |
| `ArmConfirm.StartIsSafeIff` | custom_components/xbloom/coordinator/connection.py:1089-1115 | in every reachable state and for k from 1 to 3: the k-th start of a confirming press is certain to be its own arm's start, sent while that arm stands, exactly if k is 1 and the press is made with the link up and the machine awake |
| `ArmConfirm.TeaStartIsSafeIff` | custom_components/xbloom/coordinator/recipes.py:412-443 | and the k-th start of a tea arm is certain to be 4512 with its own bytes under exactly the same condition |
| `ArmConfirm.LateRetry` | custom_components/xbloom/coordinator/connection.py:1093-1115 | in every reachable state, after every confirming press, ready or not, and whether the attempts succeeded or, for tea, lost their echo: a run in which the second or third start follows a cancel, with or without the link, with nothing armed, for a recipe as 8002 |
| `ArmConfirm.CancelBeforeTheRetryIsTooLate` | custom_components/xbloom/coordinator/connection.py:1095-1114 | from any state with an attempt that is repeated: cancelled before the repetition, the next start still goes out |
| `ArmConfirm.CancelAfterThePressIsTooLate` | custom_components/xbloom/coordinator/recipes.py:424-435 | for every other confirming press, of any operation in any reachable state: a cancel while it waits, connected or not, does not stop the start, which for a recipe is 8002 |
| `ArmConfirm.StartSignalWhileWaiting` | custom_components/xbloom/coordinator/state.py:589-612 | a start signal while a recipe press waits also turns it into 8002 |
| `ArmConfirm.TwoPressesWait` | custom_components/xbloom/button.py:104-108 | two presses of one arm that wait for the link both confirm |
| `ArmConfirm.SecondPressGoesOutAsCoffee` | custom_components/xbloom/coordinator/recipes.py:437-443 | and the second goes out as 8002 once the first is over |
| `ArmConfirm.Coordinator.constructor` | custom_components/xbloom/coordinator/operations.py:112-387 | starts with nothing armed and nothing running |
| `ArmConfirm.Coordinator.PressButton` | custom_components/xbloom/button.py:69-108 | opens an arm or a confirm according to what is armed, and runs to its first wait |
| `ArmConfirm.Coordinator.PrepareArm` | custom_components/xbloom/coordinator/recipes.py:385-391 | fixes the job a recipe arm is prepared with |
| `ArmConfirm.Coordinator.CompleteArm` | custom_components/xbloom/coordinator/recipes.py:400-402 | the arm step: the tea flag from the job, the bytes from what the arm chain returned |
| `ArmConfirm.Coordinator.LinkUp` | custom_components/xbloom/coordinator/operations.py:160-163 | a confirm that waited goes on when the link is up |
| `ArmConfirm.Coordinator.BeginConfirm` | custom_components/xbloom/coordinator/connection.py:1089-1091 | a confirm with the link marks the run, then wakes a sleeping machine or sends |
| `ArmConfirm.Coordinator.SendStartCommand` | custom_components/xbloom/coordinator/recipes.py:427-433 | one attempt: sends the start of the operation, for a recipe by what is held at that moment |
| `ArmConfirm.Coordinator.WakingOver` | custom_components/xbloom/coordinator/connection.py:1089-1095 | after waking, the first attempt |
| `ArmConfirm.Coordinator.BreakOff` | custom_components/xbloom/coordinator/recipes.py:435-443 | a wake or wait that raises ends the confirm: disarmed, and no start |
| `ArmConfirm.Coordinator.EndAttempt` | custom_components/xbloom/coordinator/connection.py:1095-1115 | another attempt or the end of the confirm, by outcome, sleep readings and attempt |
| `ArmConfirm.Coordinator.NextAttempt` | custom_components/xbloom/coordinator/connection.py:1106-1114 | the next attempt after the delay |
| `ArmConfirm.Coordinator.EndConfirm` | custom_components/xbloom/coordinator/operations.py:165-178 | the end of a confirm disarms; a failed recipe confirm also takes the run back |
| `ArmConfirm.Coordinator.CancelAll` | custom_components/xbloom/coordinator/operations.py:298-387 | clears what is armed or running, connected or not; with the link sends its quit commands, the stop of a manual run twice if the motor runs on |
| `ArmConfirm.Coordinator.PauseResumeRun` | custom_components/xbloom/coordinator/operations.py:235-296 | one pause step: the command, then the flags |
| `ArmConfirm.Coordinator.DispatchEvent` | custom_components/xbloom/coordinator/state.py:479-612 | what each machine signal does to arm and run |
| `ArmConfirm.Coordinator.ReconcileArmedWithScreen` | custom_components/xbloom/coordinator/state.py:142-179 | leaving the armed page for home disarms |
| `ArmConfirm.Coordinator.ReconcileManualOperation` | custom_components/xbloom/coordinator/state.py:181-227 | adopts and ends manual runs from telemetry |
| `ArmConfirm.Coordinator.PollStatus` | custom_components/xbloom/coordinator/state.py:301-448 | both reconcilers, in order |
| `BrewChain.BrewingIsAckGated` | custom_components/xbloom/coordinator/connection.py:1037-1115 | under any echo loss and sleep readings: one to three attempts, a retry only after an asleep reading, at most one start per attempt, and every start right behind the four echoed steps of its own attempt |
| `BrewChain.GateIds` | custom_components/xbloom/brewing.py:411-620 | those steps are 8022, 8102, 8104 and then 8001 or 8004 with the coffee payload, or 4513 with exactly the bytes that 4512 carries |
| `BrewChain.SettingsBeforeEveryStart` | custom_components/xbloom/brewing.py:405-525 | in every run, before every start: for coffee 8102 with the bypass, its temperature in tenths and the whole-gram dose whether or not it grinds, 8104 with the bounds of the cup, and 8001 exactly if it grinds; for tea everything off and 4512 with the bytes of 4513 |
| `BrewChain.RunsToTheEnd` | custom_components/xbloom/coordinator/connection.py:1093-1115 | in every run: an exception ends it; with fewer than three attempts it ended on one or on a reading that said awake; it succeeds exactly behind the sign of a coffee start or the echo of 4512 |
| `BrewChain.BrokenLinkEndsTheRun` | custom_components/xbloom/ble/client.py:523-577 | no link, or a failing write: one attempt, no start |
| `BrewChain.ArmingStartsNothing` | custom_components/xbloom/brewing.py:623-646 | the arm alone under the sleep retry never sends a start, and takes an awake, answering machine one attempt |
| `BrewChain.SuccessMeansStarted` | custom_components/xbloom/brewing.py:494-620 | success implies that a start was sent |
| `BrewChain.HealthyMachineBrewsOnce` | custom_components/xbloom/brewing.py:373-620 | an awake machine that answers everything gets exactly one attempt, one start and this log |
| `BrewChain.ReconnectsIff` | custom_components/xbloom/coordinator/connection.py:1117-1162 | for every machine and every history of the arm: an execute makes the link anew, once and before its first attempt, exactly if the machine sleeps, all 31 readings after the handshake say asleep, and nothing is armed at the last of them |
| `BrewChain.ArmIsReadOnce` | custom_components/xbloom/coordinator/connection.py:1089-1153 | two executes that differ only in what is armed, and when, are the same run exactly unless the machine does not wake and they differ at that one reading |
| `BrewChain.BrewsOverANewLink` | custom_components/xbloom/coordinator/connection.py:1117-1153 | a machine that hears nothing over the held link and answers over a new one gets exactly this log if nothing is armed |
| `BrewChain.NoBrewWhileArmed` | custom_components/xbloom/coordinator/connection.py:1139-1144 | and no start at all if something is |
| `CancelExecute.RunsDifferIff` | custom_components/xbloom/coordinator/recipes.py:341-358 | for any two histories of presses, arms, cancels, signals and polls during an execute: the runs differ exactly if the machine does not wake and something is armed at the end of the wait in one of them alone |
| `CancelExecute.CancelChangesExecuteIff` | custom_components/xbloom/coordinator/operations.py:333-346 | in every state, with a cancel at any moment among events that neither arm nor disarm: it changes the execute exactly if the machine sleeps and does not wake, something is armed at the call, and the cancel comes before the wait is over |
| `CancelExecute.CancelCausesTheBrew` | custom_components/xbloom/coordinator/connection.py:1139-1153 | such a cancel lets 8002 or 4512 go out to a machine that would have got no start without it |
| `CancelExecute.ArmedGrinderThenExecute` | custom_components/xbloom/coordinator/connection.py:1139-1153 | a run of this from a fresh start, for every job that packs and every moment of the wait |
| `BrewChain.Coordinator.constructor` | custom_components/xbloom/coordinator/connection.py:1037-1115 | starts with an empty log on the held link |
| `BrewChain.Coordinator.SendAndWait` | custom_components/xbloom/ble/client.py:523-577 | sends and waits for the echo of the same id |
| `BrewChain.Coordinator.SendPrelude` | custom_components/xbloom/brewing.py:349-470 | 8022, 8102 and 8104, each only after the echo of the one before |
| `BrewChain.Coordinator.ArmCoffee` | custom_components/xbloom/brewing.py:373-491 | the coffee arm chain |
| `BrewChain.Coordinator.ArmTea` | custom_components/xbloom/brewing.py:527-594 | the tea arm chain; on success returns the acknowledged bytes |
| `BrewChain.Coordinator.ArmRecipe` | custom_components/xbloom/brewing.py:623-646 | on success hands back nothing for coffee and the acknowledged bytes for tea |
| `BrewChain.Coordinator.ArmWhileSleeping` | custom_components/xbloom/coordinator/recipes.py:393-399 | the same under the sleep retry: its log is a trace of the retry loop, and the last result comes back |
| `BrewChain.Coordinator.ArmFrom` | custom_components/xbloom/coordinator/connection.py:1093-1115 | the attempt loop around the arm |
| `BrewChain.Coordinator.BrewCoffee` | custom_components/xbloom/brewing.py:494-524 | arm, 8002, and the machine's own start sign |
| `BrewChain.Coordinator.StartCoffee` | custom_components/xbloom/brewing.py:517-524 | 8002, and the reading of the start sign |
| `BrewChain.Coordinator.BrewTea` | custom_components/xbloom/brewing.py:597-620 | arm, then 4512 gated on its echo |
| `BrewChain.Coordinator.BrewRecipe` | custom_components/xbloom/brewing.py:273-296 | routes by cup type; its trace is `Brew` for every world |
| `BrewChain.Coordinator.Judge` | custom_components/xbloom/coordinator/connection.py:1095-1114 | when the loop goes on: after a timeout while asleep, or after a success that still reads asleep |
| `BrewChain.Coordinator.TryOnce` | custom_components/xbloom/coordinator/connection.py:1094-1114 | one round: the brew, then the verdict |
| `BrewChain.Coordinator.RetryFrom` | custom_components/xbloom/coordinator/connection.py:1093-1115 | the attempt loop around the brew |
| `BrewChain.Coordinator.WaitAwake` | custom_components/xbloom/coordinator/connection.py:1155-1162 | the wait ends at the first reading that is awake, or at the 31st |
| `BrewChain.Coordinator.WakeMachine` | custom_components/xbloom/coordinator/connection.py:1117-1153 | the handshake, the wait, and a new link if the machine still sleeps and nothing is armed then |
| `BrewChain.Coordinator.WakeIfAsleep` | custom_components/xbloom/coordinator/connection.py:1089-1091 | the sleep reading, and the wake of a sleeping machine |
| `BrewChain.Coordinator.ExecuteRecipe` | custom_components/xbloom/coordinator/recipes.py:352-358 | the one-shot execute: its log is the trace the theorems are about |
| `Names.DedupeName` | custom_components/xbloom/schema.py:199-206 | ends on every finite set of taken names and returns a free one |
| `Names.SmallestFreeSuffix` | custom_components/xbloom/schema.py:199-206 | a taken name gets the smallest free suffix, at most the number of taken names plus one |
| `Names.SuffixIsTheNumber` | custom_components/xbloom/schema.py:199-206 | the suffix is a space and the number in ordinary decimal digits in parentheses |
| `RecipeStore.FindRecipe` | custom_components/xbloom/schema.py:158-196 | uid before cloud table id before share id before name, and nothing only if nothing matches |
| `RecipeStore.LookupPriority` | custom_components/xbloom/schema.py:158-196 | the same in the fields of the recipes: nothing exactly if nothing matches, and the priority of uid, table id, share id and name |
| `RecipeStore.UidLookup` | custom_components/xbloom/schema.py:171-173 | a lookup by uid returns the one recipe with it, whatever its name |
| `RecipeStore.RunKeeps` | custom_components/xbloom/coordinator/recipes.py:748-767 | after any history the view is YAML overlaid by the store minus tombstones, keys are names, visible uids are distinct |
| `RecipeStore.StepKeeps` | custom_components/xbloom/coordinator/recipes.py:681-1330 | every operation keeps that, leaves all recipes it is not addressed to where and as they are, and brings no gone uid back |
| `RecipeStore.StableIdentity` | custom_components/xbloom/coordinator/recipes.py:972-1031 | through any history a recipe that is not lost is what exactly the edits and exports addressed to its uid made of it; whatever protected fields the edits carry, its uid and source stay, and its cloud identity unless it is exported |
| `RecipeStore.EditChangesWhatItGives` | custom_components/xbloom/coordinator/recipes.py:972-1031 | an edit that goes through changes exactly the fields it gives of the recipe it finds; every field it leaves out, and every other recipe, is as before |
| `RecipeStore.FieldsAreTheLastGiven` | custom_components/xbloom/coordinator/recipes.py:972-1031 | after any history a recipe has the name and content last given to its uid by an edit that went through, its own where none gave any, and the cloud identity of its last export |
| `RecipeStore.ExportAddsTheCloudIdentity` | custom_components/xbloom/coordinator/recipes.py:1310-1320 | an export adds table id and share id to the recipe it finds, and changes nothing else |
| `RecipeStore.NewRecipeIsTheDraft` | custom_components/xbloom/coordinator/recipes.py:942-970 | a created or imported recipe is the draft under the first free form of its name, with the cloud identity an import brings and a create does not |
| `RecipeTable.StoreRefinesTable` | custom_components/xbloom/coordinator/recipes.py:681-1330 | every operation of the layered store, seeds and pod saves included, is one step of a flat table keyed by uid with its own names |
| `RecipeTable.RunRefinesTable` | custom_components/xbloom/coordinator/recipes.py:681-1330 | and so is every history |
| `RecipeStore.DeletedForGood` | custom_components/xbloom/coordinator/recipes.py:1033-1051 | the uid of a deleted recipe, YAML included, is never visible again |
| `RecipeStore.TombstoneHolds` | custom_components/xbloom/coordinator/recipes.py:1033-1173 | a tombstone survives an event exactly if the event does not take the name |
| `RecipeStore.HiddenUntilReused` | custom_components/xbloom/coordinator/recipes.py:1033-1051 | a deleted YAML name stays hidden across rebuilds and seeds until reused |
| `RecipeStore.LostExactlyWhen` | custom_components/xbloom/coordinator/recipes.py:1053-1080 | a visible recipe leaves the view exactly on deletion or when bundled defaults shadow its YAML name |
| `RecipeStore.BundledDefaultHidesYaml` | custom_components/xbloom/coordinator/recipes.py:1067-1079 | a fresh install on which a bundled default hides a YAML recipe |
| `RecipeStore.SelectionFollows` | custom_components/xbloom/coordinator/recipes.py:1021-1048 | the selected recipe keeps its uid through renames of it and operations on others |
| `RecipeStore.SelectionMoves` | custom_components/xbloom/coordinator/recipes.py:1021-1048 | the selection moves with a rename, goes with a deletion and stays otherwise |
| `RecipeStore.Coordinator.constructor` | custom_components/xbloom/coordinator/recipes.py:748-767 | starts with the overlay of YAML and the persisted store, and the persisted seeding flags |
| `RecipeStore.Coordinator.RebuildRecipes` | custom_components/xbloom/coordinator/recipes.py:748-767 | the merge loop computes the overlay, in whatever order the store is walked |
| `RecipeStore.Coordinator.CreateLocalRecipe` | custom_components/xbloom/coordinator/recipes.py:942-970 | one create step, identity fields of the input dropped |
| `RecipeStore.Coordinator.ImportCloudRecipe` | custom_components/xbloom/coordinator/recipes.py:681-746 | one import step |
| `RecipeStore.Coordinator.EditLocalRecipe` | custom_components/xbloom/coordinator/recipes.py:972-1031 | one edit step; which of the four results it returns is decided by whether it is found, valid and its new name free |
| `RecipeStore.Coordinator.DeleteLocalRecipe` | custom_components/xbloom/coordinator/recipes.py:1033-1051 | one delete step, with a tombstone for a YAML name |
| `RecipeStore.Coordinator.ExportRecipe` | custom_components/xbloom/coordinator/recipes.py:1310-1320 | one export step: cloud identity stored on the local copy |
| `RecipeStore.Coordinator.SavePodRecipes` | custom_components/xbloom/coordinator/recipes.py:890-928 | the loop over scanned recipes, each saved once under a free name |
| `RecipeStore.Coordinator.SeedBundledRecipes` | custom_components/xbloom/coordinator/recipes.py:1053-1080 | one bundled-seed step |
| `RecipeStore.Coordinator.SeedRecipes` | custom_components/xbloom/coordinator/recipes.py:1082-1176 | the cloud-seed loop: store names, tombstones and YAML names win |
| `EasySlots.WriteAgreesIff` | custom_components/xbloom/coordinator/recipes.py:564-644 | after a write the machine agrees with all records, the new one included, exactly if every recorded letter whose uid is visible was received awake or held the right bytes before |
| `EasySlots.AwakeWriteAgrees` | custom_components/xbloom/coordinator/recipes.py:564-644 | so a write the machine was awake for agrees |
| `EasySlots.SlotBytes` | custom_components/xbloom/brewing.py:106-122 | in literal bytes: 0x12 for a recipe that grinds and 0x14 for one that does not, then the coffee payload |
| `EasySlots.UndisturbedWriteAgreesIff` | custom_components/xbloom/coordinator/recipes.py:482-644 | the same with writes interleaved send by send, for a write that is undisturbed from the lookup of its recipe to its record; only its own letter's record changes |
| `EasySlots.AsleepWriteDisagrees` | custom_components/xbloom/coordinator/connection.py:1089-1115 | three attempts the machine sleeps through: the record is written and the machine has nothing |
| `EasySlots.OverlappingWritesDisagree` | custom_components/xbloom/coordinator/recipes.py:564-644 | two writes begun together leave a letter recorded with one recipe and holding another |
| `EasySlots.StaleTargetDisagrees` | custom_components/xbloom/coordinator/recipes.py:482-541 | a recipe edited while its write waits for the link is written as it was |
| `EasySlots.EditKeepsAgreementIff` | custom_components/xbloom/coordinator/recipes.py:972-1031 | an edit keeps the agreement exactly if no letter is recorded for the recipe or its encoding stays the same |
| `EasySlots.EditedRecipeDisagrees` | custom_components/xbloom/coordinator/recipes.py:972-1031 | a run in which an edit leaves a slot stale |
| `EasySlots.TeaSlipsThroughIff` | custom_components/xbloom/coordinator/recipes.py:520-581 | a write can fill a slot with a tea recipe exactly if another letter's record resolves to one |
| `EasySlots.TeaSlipsThroughSurely` | custom_components/xbloom/coordinator/recipes.py:570-581 | and is certain to if that record names a visible tea recipe |
| `EasySlots.TeaReachesASlot` | custom_components/xbloom/coordinator/recipes.py:520-581 | a run that ends with a tea recipe in a slot |
| `EasySlots.Coordinator.constructor` | custom_components/xbloom/coordinator/recipes.py:646-652 | starts without records |
| `EasySlots.Coordinator.WriteEasySlots` | custom_components/xbloom/brewing.py:736-776 | each letter the machine is awake for holds flags and coffee payload of its recipe; the others are unchanged |
| `EasySlots.Coordinator.WriteWhileSleeping` | custom_components/xbloom/coordinator/connection.py:1093-1115 | one to three batches: each but the last was followed by a reading that said asleep, and the last by one that did not unless it was the third |
| `EasySlots.Coordinator.FillSlots` | custom_components/xbloom/coordinator/recipes.py:568-581 | the other letters are filled from their records, or mirror the target |
| `EasySlots.Coordinator.WriteEasySlot` | custom_components/xbloom/coordinator/recipes.py:446-644 | on success only the asked letter's record changes, to the requested recipe; the machine agrees with all records exactly under the condition of `WriteAgreesIff`, so if it was awake for the last attempt; on failure no record changes, and which failure it is follows the refusals in their order |
| `Heartbeat.LatchesTellTheHistory` | custom_components/xbloom/ble/client.py:749-803 | for every history: calibrating iff an arming code has no ending code after it, brewing iff a brew code has no ending or arming code after it, never both |
| `Heartbeat.AmbiguousCodeReads` | custom_components/xbloom/ble/client.py:805-825 | with run flags clear 0x3B reads calibrating, brewing or nothing exactly by these |
| `Heartbeat.PageMeansNothingRuns` | custom_components/xbloom/ble/client.py:776-793 | a page code leaves no activity label, run flag, running or paused state, or latch |
| `Heartbeat.AtMostOneLabel` | custom_components/xbloom/ble/client.py:770-776 | never both a label and a page; neither exactly for codes in no table and an unexplained 0x3B |
| `Heartbeat.FrameShowsItsCode` | custom_components/xbloom/ble/client.py:749-825 | code by code from tables of all labels and pages: what a status frame shows, latches and 0x3B included, and that a code without a page leaves run flags and state alone |
| `Heartbeat.CodesThatBeginAndEnd` | custom_components/xbloom/ble/client.py:149-185 | the codes that begin and end a calibration run and a brew, written out |
| `Heartbeat.UnmappedCodeGivesNeither` | custom_components/xbloom/ble/client.py:771-773 | a frame that gives neither label nor page |
| `Heartbeat.Client.constructor` | custom_components/xbloom/ble/client.py:324-354 | a fresh connection has no latch set |
| `Heartbeat.Client.ScanForStatusFrame` | custom_components/xbloom/ble/client.py:749-793 | one status-frame step; other frames change nothing |
| `Heartbeat.Client.UpdateBrewContext` | custom_components/xbloom/ble/client.py:795-803 | a calibration run is never a brew |
| `Heartbeat.Client.StateLabelFor` | custom_components/xbloom/ble/client.py:805-825 | the label of a code under the current latches and flags |
| `GlitchFilter.CounterCountsRejections` | custom_components/xbloom/ble/client.py:703-727 | the counter is the length of the trailing run of rejections, 0 to 4, and the weight is the reading accepted before it |
| `GlitchFilter.WeightIsARecentReading` | custom_components/xbloom/ble/client.py:703-727 | the weight is an actual accepted reading at most four frames old |
| `GlitchFilter.NoFiveRejections` | custom_components/xbloom/ble/client.py:703-727 | any five readings in a row include an accepted one |
| `GlitchFilter.JumpsOnlyAfterFourRejections` | custom_components/xbloom/ble/client.py:703-727 | the weight jumps past the limit exactly when a reading that far off follows four rejections |
| `GlitchFilter.AcceptedIff` | custom_components/xbloom/ble/client.py:703-727 | a reading is accepted exactly if it is the first, within 300 of the last accepted one, or comes after four rejections |
| `GlitchFilter.Client.constructor` | custom_components/xbloom/ble/client.py:324-354 | starts without an accepted reading |
| `GlitchFilter.Client.FilterWeight` | custom_components/xbloom/ble/client.py:703-727 | one step; returns the last accepted reading |
| `GlitchFilter.Client.FilterAll` | custom_components/xbloom/ble/client.py:703-727 | a whole stream through a fresh filter |
| `Backoff.SupervisorWaits` | custom_components/xbloom/coordinator/connection.py:114-135 | in every run a supervisor attempt after the n-th failure in a row comes at least min(5 x 2^(n-1), 300) s after it, for n up to 1024 |
| `Backoff.PollTriesIff` | custom_components/xbloom/coordinator/connection.py:88-121 | and not longer: a poll tries exactly if there is no link, no attempt, nothing that holds it, and that time is over |
| `Backoff.NobodyTriesOverALink` | custom_components/xbloom/coordinator/connection.py:88-121 | nobody tries over a link or an attempt, and an attempt that is over is over |
| `Backoff.DelayMonotone` | custom_components/xbloom/coordinator/connection.py:130-133 | waits never shrink |
| `Backoff.AttemptsAreBounded` | custom_components/xbloom/coordinator/connection.py:114-135 | within T seconds of a streak's first failure there are at most 6 + T/300 retries, so 7 + T/300 attempts |
| `Backoff.SuccessResets` | custom_components/xbloom/coordinator/connection.py:137-139 | after a success the next poll may try at once and the next failure waits 5 s |
| `Backoff.BackoffEndsPast1024` | custom_components/xbloom/coordinator/connection.py:129-135 | for every n past 1024 a run in which the supervisor tries 200 s after the n-th failure |
| `Backoff.Coordinator.constructor` | custom_components/xbloom/coordinator/connection.py:123-139 | starts without failures and with an open gate |
| `Backoff.Coordinator.MaybeScheduleReconnect` | custom_components/xbloom/coordinator/connection.py:88-121 | tries unless held, already connecting, or before the gate opens |
| `Backoff.Coordinator.EnsureConnected` | custom_components/xbloom/coordinator/connection.py:114-117 | an on-demand connect does not ask the gate |
| `Backoff.Coordinator.NoteConnectFailure` | custom_components/xbloom/coordinator/connection.py:123-135 | one failure step |
| `Backoff.Coordinator.DelayAfter` | custom_components/xbloom/coordinator/connection.py:130-133 | the capped power of two |
| `Backoff.Coordinator.NoteConnectSuccess` | custom_components/xbloom/coordinator/connection.py:137-139 | one success step |

## Left out

- Bluetooth transport, GATT reads, MachineInfo recovery, chunked writes and logging: sends and echoes are events here.
- Settle delays and the silence watchdog: only the order of commands is modelled.
- The cloud client, collective search, photos and the cloud/local field translation; a fetched recipe is an input.
- `config_flow.py`: its recipe steps save the store without tombstones and do not keep the identity law.
- A change of the YAML file between restarts: the YAML layer is fixed for a history.
- Entities, services, LLM tools and the panel; the derived state string; live mirroring of the machine's knobs.
- Single-precision packing, hashing, uuid4, URL parsing and the schema's verdicts: inputs, with minted uids fresh and YAML uids distinct.
- UnitSync: an options write and its update listener are one step, and agreement is about the numbers on the wire.
- ArmConfirm: an arm on its way is one wait and so is waking the machine, whose steps are in `BrewChain` (its own retry is in `BrewChain.Coordinator.ArmWhileSleeping`); that Home Assistant's arm mirrors the machine's own is not claimed; neither is that armed and active exclude each other, which the code does not enforce.
- BrewChain.Coordinator.WakeMachine: what connecting itself sends, and a reconnect that raises; one that fails leaves a link without a connection.
- BrewChain.Coordinator.BrewCoffee: the poll for the start sign is one reading.
- CancelExecute: two runs are compared with the same answers of the machine over either link; what the quit commands of a cancel do to the machine is not claimed.
- RecipeStore.Coordinator.ExportRecipe: lookup and write-back are one step, although the source awaits the network in between; an edit of an unknown share link is an import followed by the edit.
- EasySlots.Coordinator.WriteEasySlot: the method is a write without interruption (`UndisturbedWriteAgreesIff` is about interleaved ones); the bytes of the slot order (11512) are a constant; that the machine ignores what it is sent asleep is taken from the source's own notes, and the switch to Pro Mode and back is left out.
- Backoff.Coordinator.NoteConnectFailure: past the 1024th failure the source may step its counter twice for one failure; here it steps once, which does not matter to the gate.
