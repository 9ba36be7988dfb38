# Battle partner controller, achievement atlas and save-block relocation

A Dafny model of three self-contained pieces of a Pokémon Emerald-based game.

- **The battle partner controller** (`partner_controller.dfy`, `partner_mon.dfy`,
  `partner_exp.dfy`, `partner_anim.dfy`). This is the per-battler command
  dispatcher of the AI partner in multi battles.
  - `PlayerPartnerBufferRunCommand` reads the opcode in byte 0 of the battler's
    `bufferA` and runs one handler of a 58-entry table. Opcodes 0 to 57 are in
    the table; 57 is `CmdEnd`, the terminator.
  - A handler either completes at once through `PlayerPartnerBufferExecCompleted`,
    or it installs a polling controller function that runs every tick until its
    guard holds.
  - The engine globals the controller updates are fields of the class
    `Controller`. Everything the controller only asks of the engine (sprite
    callbacks, animation and text-printer flags, AI answers) arrives as an
    `Inputs` value per tick.
  - A Pokémon is a map from field to integer. The request serialiser
    `CopyPlayerPartnerMonData` writes fixed little-endian widths per request id.
  - The experience task carries a gain in two `s16` task slots, then levels the
    Pokémon up at the next level's threshold. The controller reads the gain
    back as `Task_GetExpFromTask` is written, with the sign extension listed
    under Findings.
- **The achievement atlas** (`atlas.dfy`). This covers:
  - the achievement bitset (`GiveAchievement`, `CheckAchievement`,
    `TakeAchievement`);
  - the cursor-and-scroll state of the atlas screen, with held-direction repeat;
  - the background window refreshed from the 64×64 atlas tilemap;
  - the cursor sprite callback;
  - the lookup of the achievement point under the cursor.
- **Save-block relocation and re-keying** (`load_save.dfy`).
  - The three save blocks live in byte regions, each with a 128-byte slack
    area. `MoveSaveBlocks_ResetHeap` copies them through the heap to a fresh
    4-aligned offset, then re-encrypts money and coins under a new key.
  - Also modelled:
    - clearing the blocks, including the new-game-plus clear that keeps the
      Pokédex flags and the PC items;
    - the continue-game warp bit;
    - the party, object-event and bag copies between SaveBlock1 and RAM.
  - The structure sizes and field offsets come from headers that are not part
    of this model. They are parameters, given as a `Layout`.

`common.dfy` holds C's integer conversions (`u8`, `s16`, `u32` and so on) and
`CopyInto`, a byte write into a sequence.

Where the code and the documented design disagree, the model follows the code:

- An opcode past the table completes the command (line 194 of
  `src/battle_controller_player_partner.c`). It is not silently treated as a
  terminator.
- `sub_81BB688` waits on the special-animation flag of the task's own battler,
  even when the level-up animation runs on its flank. It is modelled as written.

## Model

| member | source | states |
|---|---|---|
| PartnerController.HandlerOpcodes | src/battle_controller_player_partner.c:107-167 | every opcode below 58 selects the handler whose table entry it is, and the terminator opcode 57 selects CmdEnd |
| PartnerController.OpcodeHandlers | src/battle_controller_player_partner.c:107-167 | every handler sits at an in-range opcode that selects it, so the table is one-to-one |
| PartnerController.ClearBit | src/battle_controller_player_partner.c:591-605 | clearing the battler's exec bit clears that bit and keeps every other bit |
| PartnerController.ClearBitKeepsOthers | src/battle_controller_player_partner.c:591-605 | the flag word after `&= ~gBitTable[b]` has exactly the old bits other than b |
| PartnerController.CompletedResetsBattler | src/battle_controller_player_partner.c:591-605 | completing returns the battler to RunCommand and changes no other battler, the party, the tasks or the shared globals |
| PartnerController.CompletedClearsOwnBit | src/battle_controller_player_partner.c:591-605 | outside link battles exactly the battler's exec bit is cleared, and the buffers and the emitted log are unchanged |
| PartnerController.CompletedWritesTerminator | src/battle_controller_player_partner.c:591-605 | in link battles the flags are kept, the completion is sent, and only byte 0 of the battler's buffer becomes CONTROLLER_TERMINATOR_NOP |
| PartnerController.FallbackSwitchTarget | src/battle_controller_player_partner.c:1554-1562 | the result is the first of slots 3 to 5 that has HP and is on neither player position, or 6 when there is none |
| PartnerController.Flank | src/battle_controller_player_partner.c:236 | `battlerId ^ BIT_FLANK` is another battler on the same side |
| PartnerController.SetSlot | src/battle_controller_player_partner.c:959-972 | exactly slot i of the party is replaced, and a slot past the party leaves it unchanged |
| PartnerController.NextLevelExp | src/battle_controller_player_partner.c:335 | the next level's threshold, read from the experience table at level + 1, is a `u32` |
| PartnerController.RawCopy | src/battle_controller_player_partner.c:1194-1203 | byte k of the party bytes is the source byte when k lies in the copied span, and is unchanged otherwise |
| PartnerController.ExpGivenValid | src/battle_controller_player_partner.c:329-361 | giving experience touches only the battlers, the party, the task itself and the emitted log |
| PartnerController.ExpGivenSpec | src/battle_controller_player_partner.c:317-361 | with the gain as the task reads it back, sign extension included, and no `u32` wrap: the task survives exactly when experience plus gain reaches the threshold; then the Pokémon's EXP is the threshold and its stats are recalculated; otherwise EXP is the sum |
| PartnerController.ExpGivenStoredGain | src/battle_controller_player_partner.c:317-361 | for a gain stored with bit 15 clear, the Pokémon levels up exactly when experience plus that gain reaches the threshold, and otherwise gains exactly it |
| PartnerController.ExpGivenSignExtended | src/battle_controller_player_partner.c:317-361 | for a 16-bit gain stored with bit 15 set, as written: from 0x10000 experience plus gain on, EXP drops to experience plus gain minus 0x10000 and the task ends; below that the Pokémon levels up at any threshold up to 0xFFFF0000 |
| PartnerController.Controller.ExecCompleted | src/battle_controller_player_partner.c:591-605 | the new state is the completed state: RunCommand plus the exec-bit clear, or the link terminator |
| PartnerController.Controller.HandleGetMonData | src/battle_controller_player_partner.c:619-642 | the reply is the concatenated answers for the addressed slots, or an overrun event when they exceed the local buffer; then the command completes |
| PartnerController.Controller.HandleSetMonData | src/battle_controller_player_partner.c:954-974 | every addressed slot is set from the payload at byte 3, every other slot is unchanged, and the command completes |
| PartnerController.Controller.HandleSetRawMonData | src/battle_controller_player_partner.c:1194-1203 | `bufferA[2]` bytes from byte 3 land at the slot offset plus `bufferA[1]`, other party bytes are kept, and the command completes |
| PartnerController.Controller.HandleSwitchInAnim | src/battle_controller_player_partner.c:1224-1231 | the battler keeps its substitute bit exactly when `bufferA[2]` is nonzero, takes the party slot in `bufferA[1]` and waits for the ball animation |
| PartnerController.Controller.HandleReturnMonToBall | src/battle_controller_player_partner.c:1264-1278 | `bufferA[1] == 0` starts the switch-out from state 0; otherwise the command completes |
| PartnerController.Controller.HandleFaintAnimation | src/battle_controller_player_partner.c:1374-1395 | state 0 moves to 1 and stays dispatched; later, once no special animation runs, the faint slide is awaited |
| PartnerController.Controller.HandleMoveAnimation | src/battle_controller_player_partner.c:1417-1440 | the move parameters are decoded little-endian from the buffer, then the move animation starts at state 0, or completes for a move without animation, or waits while music is being set up |
| PartnerController.Controller.HandleChooseMove | src/battle_controller_player_partner.c:1519-1538 | the AI's move goes back with its target in the high byte: the user, the present opponent for spread moves, or the current target |
| PartnerController.Controller.HandleChoosePokemon | src/battle_controller_player_partner.c:1545-1568 | the AI's choice, or the first eligible of slots 3 to 5 when it answers 6, is recorded as the switch target and emitted, and the command completes |
| PartnerController.Controller.StartTask | src/battle_controller_player_partner.c:1615-1619 | a created task takes a free task id with its data set, the other tasks and the rest of the controller stay as they were, and every task stays well formed |
| PartnerController.Controller.HandleExpUpdate | src/battle_controller_player_partner.c:1599-1622 | at or above MAX_LEVEL the command completes with no task; otherwise a task holds the two-byte gain split over its slots, and the battler waits |
| PartnerController.Controller.HandleHitAnimation | src/battle_controller_player_partner.c:1722-1735 | a hidden sprite completes at once; otherwise the battle-animation flag is set and the blink starts at counter 0 |
| PartnerController.Controller.HandleIntroTrainerBallThrow | src/battle_controller_player_partner.c:1785-1829 | an intro task starts at counter 0 and the battler waits for it |
| PartnerController.Controller.HandleDrawPartyStatusSummary | src/battle_controller_player_partner.c:1863-1880 | a player-side request with `bufferA[1] != 0` completes; otherwise the summary shows and its countdown starts at 0, or at 0x5D when skipped |
| PartnerController.Controller.HandleSpriteInvisibility | src/battle_controller_player_partner.c:1903-1911 | a present sprite takes bit 0 of `bufferA[1]` as its invisible bit, and the command completes |
| PartnerController.Controller.HandleBattleAnimation | src/battle_controller_player_partner.c:1913-1925 | waits while music is set up, completes when the animation cannot start, and waits for it otherwise |
| PartnerController.Controller.HandleStatusUpdate | src/battle_controller_player_partner.c:1630-1651 | unless music is being set up, the battler waits for the status animation |
| PartnerController.Controller.HandleSharedFlag | src/battle_controller_player_partner.c:1698-1720 | Cmd37 to Cmd40 and IntroSlide each change exactly their one shared global, and the command completes |
| PartnerController.Controller.HandleCmd55 | src/battle_controller_player_partner.c:1937-1944 | the battle outcome takes `bufferA[1]`, the command completes, and the battler goes to the battle's closing routine |
| PartnerController.Controller.CompleteWhen | src/battle_controller_player_partner.c:198-202 | a waiting controller function completes the command exactly when its guard holds, and otherwise changes nothing |
| PartnerController.Controller.InstallWhen | src/battle_controller_player_partner.c:554-589 | a switch-in stage hands over to the next stage exactly when its guard holds |
| PartnerController.Controller.PollHealthboxCountdown | src/battle_controller_player_partner.c:215-222 | one health-box countdown tick per HealthboxStep, completing when the counter wraps |
| PartnerController.Controller.PollHealthboxes | src/battle_controller_player_partner.c:224-250 | once the health boxes (and the flank's in a non-multi double battle) are idle and no cry plays, the countdown starts from 3 |
| PartnerController.Controller.PollSendOut | src/battle_controller_player_partner.c:252-279 | once ball and sprites are settled, `field_9` counts one tick, then resets and hands over to the health-box wait |
| PartnerController.Controller.PollBlink | src/battle_controller_player_partner.c:514-531 | one blink tick per BlinkStep; on completion the battle-animation flag is cleared |
| PartnerController.Controller.PollSwitchOut | src/battle_controller_player_partner.c:1280-1299 | one switch-out tick per SwitchOutStep; on hand-over the battler waits for the switch-out animation |
| PartnerController.Controller.PollMoveAnim | src/battle_controller_player_partner.c:1442-1489 | one move-animation tick per MoveAnimStep with the hit count from `bufferA[11]`, completing from state 3 |
| PartnerController.Controller.PollSummary | src/battle_controller_player_partner.c:1882-1889 | one party-summary tick per SummaryStep, completing when the counter passes 0x5C |
| PartnerController.Controller.GiveExpNow | src/battle_controller_player_partner.c:317-361 | the state becomes the experience-given state, with the gain read back from the task slots as written, and other tasks are kept |
| PartnerController.Controller.ExpGiveToMon | src/battle_controller_player_partner.c:323-367 | the Pokémon on the field of a single battle goes through the bar; any other is given the experience at once, continuing to the level-up animation for a Pokémon on the field of a double battle; the gain is read back as written; no other task and no exec flag changes |
| PartnerController.Controller.ExpPrepare | src/battle_controller_player_partner.c:369-386 | the task moves on to fill the bar |
| PartnerController.Controller.ExpFillBar | src/battle_controller_player_partner.c:388-438 | the task counts 13 frames, then waits for the bar, then gives the experience read back as written, with the remainder narrowed to `u16`; no other task and no exec flag changes |
| PartnerController.Controller.ExpLaunchLevelUp | src/battle_controller_player_partner.c:440-450 | the task moves on to wait for the level-up animation |
| PartnerController.Controller.ExpWaitLevelUp | src/battle_controller_player_partner.c:452-469 | once the task's battler runs no special animation, the task moves on to end |
| PartnerController.Controller.ExpDestroy | src/battle_controller_player_partner.c:471-481 | the task is removed and its battler waits for the text printer |
| PartnerController.Controller.IntroTick | src/battle_controller_player_partner.c:1831-1861 | the intro task counts 24 ticks, then sends out the battler (and its flank in a non-multi double battle) and ends |
| PartnerController.Controller.IntroSendAll | src/battle_controller_player_partner.c:1839-1860 | the send-outs, the wait for them and the removal of the task |
| PartnerController.Controller.SendOut | src/battle_controller_player_partner.c:1839-1860 | one send-out: the buffer's byte 1 takes the party index, the substitute bit is cleared (`dontClearSubstituteBit` is FALSE), and the battler gets that slot and a new hidden sprite |
| PartnerController.Controller.RunTask | src/battle_controller_player_partner.c:323-481 | a task tick changes no other task and never the exec flags |
| PartnerController.Controller.RunExpTask | src/battle_controller_player_partner.c:323-481 | an experience-task tick changes no other task and never the exec flags |
| PartnerController.Controller.Dispatch | src/battle_controller_player_partner.c:107-167 | the handler is recorded; CmdEnd does nothing; handlers whose work is presentation, sound or AI complete; sprite, text and health-bar handlers install their wait |
| PartnerController.Controller.RunHandler | src/battle_controller_player_partner.c:107-167 | the handlers with a method of their own keep the engine's shape |
| PartnerController.Controller.RunDataHandler | src/battle_controller_player_partner.c:619-1203 | the data and choice handlers keep the engine's shape |
| PartnerController.Controller.RunFlagHandler | src/battle_controller_player_partner.c:1630-1720 | the flag, status, visibility and summary handlers keep the engine's shape |
| PartnerController.Controller.RunAnimationHandler | src/battle_controller_player_partner.c:1224-1489 | the animation and task-starting handlers keep the engine's shape |
| PartnerController.Controller.BufferRunCommand | src/battle_controller_player_partner.c:187-196 | with the exec bit clear nothing happens; an opcode past the table completes; an in-range opcode runs exactly its one handler; the terminator changes nothing |
| PartnerController.Controller.Step | src/battle_controller_player_partner.c:198-617 | a waiting controller function completes exactly when its guard holds; the waits for a task or for the battle's end change nothing |
| PartnerMon.PiecesBytes | src/battle_controller_player_partner.c:644-947 | the bytes of an answer are as many as the widths of its fields add up to |
| PartnerMon.LeValueOfLeBytes | src/battle_controller_player_partner.c:692-697 | decoding the n little-endian bytes of a value gives the value modulo 256^n |
| PartnerMon.LeBytesOfLeValue | src/battle_controller_player_partner.c:692-697 | encoding a decoded byte string gives back the bytes |
| PartnerMon.LeBytesAre | src/battle_controller_player_partner.c:692-697 | byte k of an encoding is byte k of the value, least significant first |
| PartnerMon.PieceWidths | src/battle_controller_player_partner.c:692-899 | a one-field answer takes 2 bytes exactly for the 16-bit fields |
| PartnerMon.PieceWidthRange | src/battle_controller_player_partner.c:692-943 | every one-field answer takes 1 to 4 bytes |
| PartnerMon.WidePieceWidths | src/battle_controller_player_partner.c:737-853 | 3 bytes exactly for OT id and EXP, 4 exactly for personality and status |
| PartnerMon.PieceCount | src/battle_controller_player_partner.c:656-831 | the requests that are not one field are exactly the two struct requests, PP data, all IVs and the unlisted ids |
| PartnerMon.OneBytePieces | src/battle_controller_player_partner.c:751-798 | for one-byte fields, byte k of the answer is the low byte of field k |
| PartnerMon.ByteListEncoding | src/battle_controller_player_partner.c:724-807 | PP data is the four PP values then the PP bonuses, and all IVs is the six IVs, one byte each, in order |
| PartnerMon.SingleFieldEncoding | src/battle_controller_player_partner.c:692-943 | a one-field answer is the field's value little-endian at its width, and decodes to the value modulo 256^width |
| PartnerMon.WriteLe | src/battle_controller_player_partner.c:692-697 | the byte stores write the low n bytes of the value at the offset, least significant first, and nothing else |
| PartnerMon.CopyBytesTo | src/battle_controller_player_partner.c:656-691 | the structure copy loop writes the source bytes at the offset and nothing else |
| PartnerMon.WritePieces | src/battle_controller_player_partner.c:644-947 | the fields are written one after the other, and the size returned is the number of bytes written |
| PartnerMon.WritePiece | src/battle_controller_player_partner.c:644-947 | one more field extends the written bytes and the size by that field's bytes |
| PartnerMon.CopyMonData | src/battle_controller_player_partner.c:644-947 | the answer to the request is written at the offset, and the size returned is its length |
| PartnerMon.MaskSlotsBelowSpec | src/battle_controller_player_partner.c:633-638 | the mask loop visits exactly the slots whose bit is set, each once, in increasing order |
| PartnerMon.SelectedSlotsSpec | src/battle_controller_player_partner.c:626-639 | a zero mask addresses only the battler's own slot; otherwise the slots 0 to 5 whose bit is set, in increasing order |
| PartnerMon.GatheredSize | src/battle_controller_player_partner.c:626-639 | the gathered size is the sum of the single answers' sizes |
| PartnerMon.GatheredGrows | src/battle_controller_player_partner.c:633-638 | the answers for the lower slots are a prefix of the answers for more slots |
| PartnerMon.AppendAnswer | src/battle_controller_player_partner.c:636 | one answer is appended after the first `size` bytes, and its length is returned |
| PartnerMon.GatheredStep | src/battle_controller_player_partner.c:633-638 | one more mask bit grows the gathered answers by that slot's answer exactly when the bit is set |
| PartnerMon.AppendIfFits | src/battle_controller_player_partner.c:635-636 | an answer is appended when it fits, and an overrun is reported exactly when it does not |
| PartnerMon.AppendSlot | src/battle_controller_player_partner.c:633-638 | after slot i the buffer holds the answers for the slots up to i, or an overrun is reported exactly when they exceed the buffer |
| PartnerMon.GatherMasked | src/battle_controller_player_partner.c:632-638 | the loop leaves the answers for every set bit in the buffer, or reports an overrun exactly when they exceed it |
| PartnerMon.GatherMonData | src/battle_controller_player_partner.c:619-642 | the data is the answers for the addressed slots, with the total size, or an overrun exactly when they exceed the capacity |
| PartnerMon.StoreFields | src/battle_controller_player_partner.c:984-1021 | the fields of the set come from the decoded struct and every other field is kept |
| PartnerMon.PiecesDistinct | src/battle_controller_player_partner.c:976-1192 | no request names a field twice |
| PartnerMon.StorePiecesSpec | src/battle_controller_player_partner.c:976-1192 | setting writes each named field from its offset in the payload and keeps every other field |
| PartnerMon.StorePiecesKeeps | src/battle_controller_player_partner.c:976-1192 | fields no piece names are kept |
| PartnerMon.StorePiecesWrites | src/battle_controller_player_partner.c:976-1192 | each named field is decoded from the payload at its offset |
| PartnerMon.StoreRequestSpec | src/battle_controller_player_partner.c:976-1192 | a set request writes exactly its fields: struct requests from the decoded struct, the others from their payload offsets |
| PartnerMon.PiecesBytesSlice | src/battle_controller_player_partner.c:644-947 | field k's bytes sit at the sum of the earlier widths in the answer |
| PartnerMon.SetAfterGet | src/battle_controller_player_partner.c:644-1192 | when `SetMonData` reads each field little-endian at the width the get wrote it, setting a Pokémon from the bytes a get produced restores each field, truncated to that width |
| PartnerMon.WidenedSetAfterGet | src/battle_controller_player_partner.c:1055-1060 | for OT id and EXP, sent as 3 bytes but set from a whole `u32`, the field set back is the low 3 bytes of the original under the byte that follows them, and equals the original exactly when that byte is its high byte |
| PartnerMon.PieceReadBack | src/battle_controller_player_partner.c:644-1192 | a field read back from its offset is its value truncated to its width |
| PartnerMon.UpdateSlots | src/battle_controller_player_partner.c:959-972 | every addressed slot is updated, the others are kept, and an own slot past the party changes nothing |
| PartnerMon.SetPartyData | src/battle_controller_player_partner.c:954-974 | every addressed slot is set from the payload and the others are kept |
| PartnerExp.SplitExp | src/battle_controller_player_partner.c:1614-1618 | the slots are signed 16-bit values holding the low and high halves of the gain, modulo 2^16 |
| PartnerExp.ExpFromTaskAsWritten | src/battle_controller_player_partner.c:317-321 | the rejoined gain is a `u32` |
| PartnerExp.ExpFromTask | src/battle_controller_player_partner.c:317-321 | the rejoined gain, reading each slot as `u16`, is a `u32` |
| PartnerExp.ExpSlotsRoundTrip | src/battle_controller_player_partner.c:317-321 | reading the slots as `u16` returns every stored `u32` gain |
| PartnerExp.ExpSlotsAsWritten | src/battle_controller_player_partner.c:317-321 | as written, the gain survives exactly when its low half is below 0x8000; otherwise 0xFFFF0000 is added |
| PartnerExp.GiveExpSignExtended | src/battle_controller_player_partner.c:317-361 | as written, a 16-bit gain with bit 15 set gives the gain minus 0x10000 modulo 2^32: EXP drops when experience plus gain is at least 0x10000, and otherwise any threshold up to about 2^32 is reached with nearly 2^32 carried |
| PartnerExp.UpperSlotWidened | src/battle_controller_player_partner.c:319-320 | the shifted upper slot loses its sign extension |
| PartnerExp.GiveExpRule | src/battle_controller_player_partner.c:337-361 | level-up happens exactly when experience plus gain reaches the threshold; EXP becomes the threshold and the remainder is carried, or EXP is the sum |
| PartnerExp.AsWrittenGainLowersExp | src/battle_controller_player_partner.c:317-361 | as written, a gain from 0x8000 to 0xFFFF lowers a Pokémon's EXP by 0x10000 minus the gain |
| PartnerExp.AsWrittenExample | src/battle_controller_player_partner.c:317-361 | 40000 EXP given at 100000, with the next level at 200000, leaves 74464 as written and 140000 as intended |
| PartnerAnim.MoveAnimStep | src/battle_controller_player_partner.c:1442-1489 | a move-animation tick leaves the state as it was or in 0 to 3 |
| PartnerAnim.MoveAnimOrder | src/battle_controller_player_partner.c:1447-1488 | the state stays or advances 0 to 1 to 2 to 3 to 0; it completes exactly from 3; `flag_x8` is raised only in state 0 behind a substitute and lowered only in state 2 |
| PartnerAnim.MoveAnimRunsFourTicks | src/battle_controller_player_partner.c:1442-1489 | with nothing else animating, the move animation completes on its fourth tick and not before |
| PartnerAnim.SwitchOutOrder | src/battle_controller_player_partner.c:1280-1299 | the switch-out hands over exactly from state 1 with no special animation, and leaves state 0 when it does |
| PartnerAnim.BlinkRun | src/battle_controller_player_partner.c:514-531 | k ticks into the blink the counter is k and the sprite is hidden on ticks 1 to 4 of every 8 |
| PartnerAnim.BlinkStepBelow32 | src/battle_controller_player_partner.c:525-529 | a tick below 32 increments the counter and keeps the hiding pattern |
| PartnerAnim.BlinkEnds | src/battle_controller_player_partner.c:514-531 | the blink completes on tick 33 with the sprite showing, and not in its first 32 ticks |
| PartnerAnim.SummaryStep | src/battle_controller_player_partner.c:1882-1889 | a summary tick that does not complete increments the counter |
| PartnerAnim.SummaryTicksSpec | src/battle_controller_player_partner.c:1882-1889 | the summary completes 0x5E - n ticks after starting at n, that is 94 ticks from 0 and 1 from 0x5D |
| PartnerAnim.HealthboxTicksSpec | src/battle_controller_player_partner.c:215-222 | the health-box countdown completes n + 1 ticks after starting at n, that is 4 from 3 |
| Atlas.WithFlag | src/atlas_test.c:771-777 | giving keeps the length and every other flag byte, and ignores an id the bytes cannot hold |
| Atlas.WithoutFlag | src/atlas_test.c:787-792 | taking keeps the length and every other flag byte, and ignores an id the bytes cannot hold |
| Atlas.GiveThenCheck | src/atlas_test.c:771-785 | after giving id, exactly id is added to the achieved set |
| Atlas.TakeThenCheck | src/atlas_test.c:779-792 | after taking id, exactly id is removed from the achieved set |
| Atlas.OutOfRangeIgnored | src/atlas_test.c:771-792 | an id outside the flag bytes is a no-op for Give and Take and reads as not achieved |
| Atlas.GiveTakeIdempotent | src/atlas_test.c:771-792 | giving twice is giving once; taking twice is taking once |
| Atlas.GuardAsWrittenAdmitsOnePastEnd | src/atlas_test.c:771-777 | the guard `id > ACH_FLAGS_COUNT` lets id == ACH_FLAGS_COUNT through, whose byte is one past the flags |
| Atlas.GiveAchievement | src/atlas_test.c:771-777 | the flag bytes become WithFlag of the old ones |
| Atlas.TakeAchievement | src/atlas_test.c:787-792 | the flag bytes become WithoutFlag of the old ones |
| Atlas.CheatFlags | src/atlas_test.c:635-642 | the debug combination keeps the length of the flag bytes |
| Atlas.CheatAchievesFirstFive | src/atlas_test.c:635-642 | the debug combination achieves ids 0 to 4 and touches no other id |
| Atlas.HeldRepeat | src/atlas_test.c:643-657 | past 60 the action fires and the counter becomes 59; otherwise the counter increments and the action fires exactly on multiples of 15 |
| Atlas.Released | src/atlas_test.c:703-707 | with no direction held the counter drops by 5, and is set to 1 when it falls below 10 |
| Atlas.DecideAction | src/atlas_test.c:633-713 | A gives 5, else B gives 6; no direction means the released counter; the counter stays in 0 to 61; a new left press fires at once |
| Atlas.FastRepeatCycle | src/atlas_test.c:643-657 | holding a direction fires on two frames of every three, with the counter cycling back to 59 |
| Atlas.MoveLeft | src/atlas_test.c:467-482 | one tile left within bounds, scrolling exactly when the origin moves, the sprite moving otherwise |
| Atlas.MoveRight | src/atlas_test.c:483-498 | one tile right within bounds, scrolling exactly when the origin moves, the sprite moving otherwise |
| Atlas.MoveUp | src/atlas_test.c:499-514 | one tile up within bounds, scrolling exactly when the origin moves, the sprite moving otherwise |
| Atlas.MoveDown | src/atlas_test.c:515-530 | one tile down within bounds, scrolling exactly when the origin moves, the sprite moving otherwise |
| Atlas.Move | src/atlas_test.c:465-531 | the cursor stays in 1 to 62 and the origin in 0 to 34 by 0 to 44; each direction moves only its axis the right way; other actions change nothing |
| Atlas.CursorMotion | src/atlas_test.c:459-532 | nothing moves while the description is open; `shouldUpdateTilemap` holds exactly when the origin moved |
| Atlas.ScrollAsWrittenReadsPastAtlas | src/atlas_test.c:724-731 | at the origin clamps the refresh reads row 65, column 65: an index past the 4096-entry table |
| Atlas.ScrollTile | src/atlas_test.c:730 | the tile read is the atlas entry inside the atlas, and 0 beyond its edge |
| Atlas.VisibleWindowInsideAtlas | src/atlas_test.c:724-731 | the visible 30×20 window never leaves the atlas, so there the corrected read is the written one |
| Atlas.SpriteStep | src/atlas_test.c:738-769 | left and up never go below 8, right and down never past the screen edge minus 12, and only the action's axis moves |
| Atlas.LookupAchTile | src/atlas_test.c:592-628 | an achievement point is found exactly when one lies at the cursor, and it is the first such point |
| Atlas.AchPointsReachable | src/atlas_test.c:93-107 | every achievement point is a tile the cursor can reach |
| Atlas.StatusAfter | src/atlas_test.c:541-631 | B closes and A opens the description on an achievement tile; otherwise the tile under the cursor is tracked |
| Atlas.AtlasScreen.constructor | src/atlas_test.c:342-369 | on every opening the cursor starts at (15, 10), the origin at (0, 0), the sprite at the screen centre, and a new task (`CB2_OpenAtlas` resets the tasks) with its description closed and no pending action; the held counter and the tile flag carry over from the last visit, and the scroll flag starts cleared |
| Atlas.AtlasScreen.FillWindow | src/atlas_test.c:724-731 | the nested loop fills 22 rows of 32 entries from the atlas at the origin, and no other entry |
| Atlas.AtlasScreen.UpdateAtlasScroll | src/atlas_test.c:715-735 | the window is refreshed when the origin moved, and left alone otherwise |
| Atlas.AtlasScreen.HeldTick | src/atlas_test.c:643-657 | the action and counter of a held-direction frame follow HeldRepeat |
| Atlas.AtlasScreen.DecideActionFromInput | src/atlas_test.c:633-713 | the action and counter follow DecideAction, and the flags change only for the debug combination |
| Atlas.AtlasScreen.MoveCursor | src/atlas_test.c:460-531 | the position, scroll flag and sprite fields follow CursorMotion |
| Atlas.AtlasScreen.HandleInput | src/atlas_test.c:450-539 | decide, move, refresh; a non-empty action hands over to the status task; the sprite position is untouched |
| Atlas.AtlasScreen.UpdateStatus | src/atlas_test.c:541-631 | the tile and description flags follow StatusAfter, and the input task is reinstalled |
| Atlas.AtlasScreen.CursorSpriteCallback | src/atlas_test.c:738-769 | the sprite moves per SpriteStep and its action is cleared to 0 |
| SaveBlocks.ReKeyField | src/load_save.c:354-364 | re-keying a field keeps its length |
| SaveBlocks.ReKeyFieldKeepsPlaintext | src/load_save.c:354-364 | the re-keyed field decrypts under the new key to its old plaintext, and re-keying back restores it |
| SaveBlocks.ReKeyFieldIsWordXor | src/load_save.c:360-364 | on a u32 field re-keying is `word ^ currentKey ^ newKey` |
| SaveBlocks.ReKeyFieldIsHwordXor | src/load_save.c:354-358 | on a u16 field it uses only the low 16 bits of both keys |
| SaveBlocks.ReKeyWordStored | src/load_save.c:360-364 | the bytes the word re-keying stores are the re-keyed field |
| SaveBlocks.ReKeyHwordStored | src/load_save.c:354-358 | the bytes the halfword re-keying stores are the re-keyed field |
| SaveBlocks.ApplyNewEncryptionKeyToWord | src/load_save.c:360-364 | the u32 at the offset is re-keyed in place and no other byte changes |
| SaveBlocks.ApplyNewEncryptionKeyToHword | src/load_save.c:354-358 | the u16 at the offset is re-keyed in place and no other byte changes |
| SaveBlocks.ReKeyPurse | src/load_save.c:366-372 | money then coins of the block at the pointer are re-keyed |
| SaveBlocks.ReKeyedSb1 | src/load_save.c:366-372 | a re-keyed SaveBlock1 keeps its length |
| SaveBlocks.ReKeyedSb1Fields | src/load_save.c:366-372 | re-keying changes the money and the coins and no other byte |
| SaveBlocks.MoveKeepsPurse | src/load_save.c:193-195 | after the heap reset, money and coins decrypt under the stored new key to what they were under the old key |
| SaveBlocks.BlockOffset | src/load_save.c:124 | the offset is a multiple of 4 in 0 to 124, the sum modulo 128 rounded down to 4 |
| SaveBlocks.TrainerIdSum | src/load_save.c:171-175 | the sum of the four trainer-id bytes is at most 4 × 255 |
| SaveBlocks.NewKey | src/load_save.c:193 | the new key has one random value as its high half and the other as its low half (C leaves unspecified which `Random()` call runs first) |
| SaveBlocks.Words | src/load_save.c:165-183 | CpuCopy32 moves whole words only: a multiple of 4 no larger than the size |
| SaveBlocks.WordsOfAligned | src/load_save.c:165-167 | for a multiple of 4, `size` and `size + 1` both copy exactly `size` bytes |
| SaveBlocks.Halfwords | src/load_save.c:102 | CpuFill16 fills whole halfwords only |
| SaveBlocks.HalfwordsOfEven | src/load_save.c:102 | an even size is filled entirely |
| SaveBlocks.CopyBytes | src/load_save.c:224-258 | a structure copy writes the source span at the offset and nothing else |
| SaveBlocks.CpuCopy32 | src/load_save.c:165-183 | the whole words of the size are copied to the offset, nothing else |
| SaveBlocks.CpuFill16Zero | src/load_save.c:102 | the whole halfwords of the size become zero, nothing else |
| SaveBlocks.WriteU32 | src/load_save.c:360-364 | a u32 is stored little-endian at the offset, nothing else |
| SaveBlocks.WriteU16 | src/load_save.c:354-358 | a u16 is stored little-endian at the offset, nothing else |
| SaveBlocks.NewGamePlusRegion | src/load_save.c:81-118 | the cleared region keeps its length |
| SaveBlocks.NewGamePlusKeepsDexAndPcItems | src/load_save.c:81-118 | after the clear the seen and caught flags and the PC items are as before, and every other byte, slack included, is zero |
| SaveBlocks.BackupDex | src/load_save.c:84-93 | the buffer holds the seen flags, then the caught flags |
| SaveBlocks.BackupPcItems | src/load_save.c:86-99 | the 400-byte buffer starts with the PC items |
| SaveBlocks.RestoreKept | src/load_save.c:104-116 | the flags and items are written back at their offsets, nothing else |
| SaveBlocks.ClearRegionNewGamePlus | src/load_save.c:81-118 | the region becomes NewGamePlusRegion of the old region |
| SaveBlocks.WarpSet | src/load_save.c:208-211 | the warp bit is set and every other bit kept |
| SaveBlocks.WarpCleared | src/load_save.c:203-206 | the warp bit is cleared and every other bit kept |
| SaveBlocks.SavedParty | src/load_save.c:224-232 | the count byte and the party bytes hold what was saved and every other byte is kept, so loading reads them back |
| SaveBlocks.SavedObjects | src/load_save.c:244-250 | the object-event bytes hold what was saved and every other byte is kept |
| SaveBlocks.SaveAfterLoadKeepsParty | src/load_save.c:224-242 | saving the party just loaded leaves the block unchanged |
| SaveBlocks.SaveAfterLoadKeepsObjects | src/load_save.c:244-258 | saving the object events just loaded leaves the block unchanged |
| SaveBlocks.StoreParty | src/load_save.c:224-232 | the count and the party are written into the block at the pointer |
| SaveBlocks.StoreObjects | src/load_save.c:244-250 | the object events are written into the block at the pointer |
| SaveBlocks.LoadedFrom | src/load_save.c:272-309 | loading pockets keeps the loaded data's length |
| SaveBlocks.LoadedFromHolds | src/load_save.c:277-308 | every loaded pocket sits at its own offset of the loaded data |
| SaveBlocks.LoadedFromBelow | src/load_save.c:277-308 | loading later pockets leaves the earlier part of the loaded data alone |
| SaveBlocks.SavedPockets | src/load_save.c:311-352 | writing pockets back keeps the block's length |
| SaveBlocks.SaveKeepsHeldPockets | src/load_save.c:311-352 | writing back pockets that the loaded data holds unchanged leaves the block unchanged |
| SaveBlocks.SaveAfterLoadKeepsPockets | src/load_save.c:272-352 | saving the bag straight after loading it writes every pocket back unchanged |
| SaveBlocks.LoadedPocketsAsWritten | src/load_save.c:272-309 | the as-written load keeps the loaded data's length |
| SaveBlocks.LoadedAsWrittenFirstSlot | src/load_save.c:281-286 | as written, the first loaded item slot is the first collectible slot |
| SaveBlocks.LoadAsWrittenLosesFirstItem | src/load_save.c:272-352 | as written, load then save replaces the first item slot by the first collectible slot, so the block changes |
| SaveBlocks.LoadPockets | src/load_save.c:277-308 | the pocket loops copy each pocket to its own offset |
| SaveBlocks.LoadPocket | src/load_save.c:277-278 | one pocket loop extends the loaded data by one pocket |
| SaveBlocks.SavePockets | src/load_save.c:311-352 | the pocket loops write every pocket back into the block at the pointer |
| SaveBlocks.SavePocket | src/load_save.c:311-352 | one pocket loop writes back one more pocket |
| SaveBlocks.LoadPocketToItems | src/load_save.c:281-286 | a medicine or collectible loop as written stores at the start of the items |
| SaveBlocks.LoadBagAsWritten | src/load_save.c:272-309 | the as-written loops produce LoadedPocketsAsWritten |
| SaveBlocks.SwapKeyAround | src/load_save.c:311-352 | the key is backed up, the remembered key is in place during the re-keying, and the backup is restored |
| SaveBlocks.SaveBag | src/load_save.c:311-352 | the pockets are written back and the key ends as it started |
| SaveBlocks.CopyBlocksToHeap | src/load_save.c:165-167 | the three blocks are copied one after another from the heap's start, each exactly its size |
| SaveBlocks.BackupToHeap | src/load_save.c:165-175 | the heap holds the three blocks, and the sum read from its SaveBlock2 copy is the trainer-id sum |
| SaveBlocks.CopyBlocksFromHeap | src/load_save.c:181-183 | each heap copy is written to its region at the new offset |
| SaveBlocks.MoveRegions | src/load_save.c:165-183 | each block's bytes reappear at the new offset derived from the trainer-id sum and the random value |
| SaveBlocks.SaveMemory.ClearSav2 | src/load_save.c:66-69 | the whole SaveBlock2 region, slack included, becomes zero |
| SaveBlocks.SaveMemory.ClearSav1 | src/load_save.c:74-79 | the Pokédex is reset and the whole SaveBlock1 region becomes zero |
| SaveBlocks.SaveMemory.ClearSav1NewGamePlus | src/load_save.c:81-118 | the region becomes the new-game-plus clear of the old one |
| SaveBlocks.SaveMemory.SetSaveBlocksPointers | src/load_save.c:120-132 | all three pointers move to the same derived offset, and the bag and decoration pointers are refreshed |
| SaveBlocks.SaveMemory.ApplyNewEncryptionKeyToAllEncryptedData | src/load_save.c:366-372 | game stats and bag items are re-keyed, then money and coins, all from the key SaveBlock2 still holds |
| SaveBlocks.SaveMemory.Relocate | src/load_save.c:153-183 | backup, new pointers and copies back: each block is at its new pointer with its old bytes |
| SaveBlocks.SaveMemory.MoveBlocks | src/load_save.c:146-191 | the blocks move with their content; the callbacks are restored to their entry values; the Trainer Hill counter is NULL |
| SaveBlocks.SaveMemory.ReKeyAndStore | src/load_save.c:193-195 | money and coins are re-keyed from the old stored key, and only then is the new key stored |
| SaveBlocks.SaveMemory.KeyAfterStore | src/load_save.c:195 | after the store SaveBlock2 holds the new key |
| SaveBlocks.SaveMemory.MoveSaveBlocksResetHeap | src/load_save.c:136-196 | the blocks move with their content, money and coins are re-keyed to the new key, and SaveBlock2 then holds that key |
| SaveBlocks.SaveMemory.UseContinueGameWarp | src/load_save.c:198-201 | the result is the warp bit of the flags, nonzero exactly when it is set |
| SaveBlocks.SaveMemory.SetContinueGameWarpStatus | src/load_save.c:208-211 | the warp bit is set, no other bit or byte changes, and UseContinueGameWarp becomes nonzero |
| SaveBlocks.SaveMemory.ClearContinueGameWarpStatus | src/load_save.c:203-206 | the warp bit is cleared, no other bit or byte changes, and UseContinueGameWarp becomes zero |
| SaveBlocks.SaveMemory.ClearContinueGameWarpStatus2 | src/load_save.c:219-222 | the same as ClearContinueGameWarpStatus |
| SaveBlocks.SaveMemory.SetContinueGameWarpStatusToDynamicWarp | src/load_save.c:213-217 | the dynamic warp is recorded, then the warp bit is set |
| SaveBlocks.SaveMemory.SavePlayerParty | src/load_save.c:224-232 | the count and the six party slots are written into SaveBlock1 |
| SaveBlocks.SaveMemory.LoadPlayerParty | src/load_save.c:234-242 | the count and the six party slots are read from SaveBlock1 |
| SaveBlocks.SaveMemory.SaveObjectEvents | src/load_save.c:244-250 | the object events are written into SaveBlock1 |
| SaveBlocks.SaveMemory.LoadObjectEvents | src/load_save.c:252-258 | the object events are read from SaveBlock1 |
| SaveBlocks.SaveMemory.SaveSerializedGame | src/load_save.c:260-264 | the party, then the object events, are written |
| SaveBlocks.SaveMemory.LoadSerializedGame | src/load_save.c:266-270 | the party and the object events are read |
| SaveBlocks.SaveMemory.LoadPlayerBag | src/load_save.c:272-309 | as intended, every pocket is loaded to its own place, and the current key is remembered |
| SaveBlocks.SaveMemory.LoadPlayerBagAsWritten | src/load_save.c:272-309 | as written, the medicine and collectible pockets land over the start of the items, and the key is remembered |
| SaveBlocks.SaveMemory.SavePlayerBag | src/load_save.c:311-352 | every pocket is written back; the bag items are re-keyed from the remembered key to the current one, which SaveBlock2 holds again at the end |

## Left out

- Graphics, sprites, palettes, windows, text printing, BG and VRAM copies, and sound are not modelled. Their outcomes (a sprite's callback is idle, an animation runs, the text printer is busy) are per-tick boolean inputs.
- The AI (`GetMostSuitableMonToSwitchInto`, `BattleAI_ChooseMoveOrAction`, move targets) is not modelled. Its answers are inputs.
- The experience tables, `CalculateMonStats` and the storage behind `GetMonData`/`SetMonData` are parameters of `Config`. The raw `struct Pokemon` layout is not modelled. `SetRawMonData` works on a separate byte sequence of the party, and that sequence is not linked to the field map. The field map treats the checksum as a field of its own, so a set keeps it, whereas the engine's `SetMonData` recomputes it after a write and a later checksum request would see the new value.
- Link transfer and the `BtlController_Emit*` calls become events appended to a log.
- The request ids, the layouts of the battle structs, ACH_FLAGS_COUNT, CONTINUE_GAME_WARP and the save-block structures come from headers that are not part of this model. They are parameters. ACH_FLAGS_COUNT is taken as eight times the number of flag bytes.
- `Random()` is a parameter: the offset's random value and the two halves of the new key.
- The interrupt machinery, `InitHeap`, `malloc`/`free` and `CheckForFlashMemory` are not modelled. The callbacks are plain fields, and the heap reset is a logged call.
- The re-keying of game stats and bag items, the Pokédex reset, and the bag and decoration pointer setters are logged calls. Their code is not part of this model.
- `ClearTemporarySpeciesSpriteData` is not part of this model. Its clearing of the substitute bit, skipped when `dontClearSubstituteBit` is set, is modelled in HandleSwitchInAnim and SendOut; its resets of the transform species and the form are graphics data and are left out.
- The shiny-animation and battle-bar details are not modelled. Inside the switch-in and exp-bar waits they are booleans.
- The handlers whose only work is presentation, sound or AI (for example DrawTrainerPic's sprite set-up, PlaySE, ChooseAction) complete or install their wait without further effect.
- PartnerMon.GatherMonData: a gathered answer longer than the 2 × sizeof(struct Pokemon) + 56 byte local buffer overwrites the stack in the source. The model reports it as an overrun event instead.
- PartnerMon.UpdateSlots: a party index past the party is ignored, where the source would write outside `gPlayerParty`.
- PartnerExp.GiveExpRule: the level-up outcome is stated only when the sum does not wrap `u32` and the current experience is at most the threshold, as the experience tables guarantee. The function itself keeps the `u32` arithmetic.
- PartnerController.ExpGivenSpec: stated under the same two conditions as GiveExpRule, for the gain as read back. The outcome for a gain with bit 15 set, where the read-back sum wraps, is stated by ExpGivenSignExtended.
- PartnerController.RawCopy: bytes the `dst[i] = src[i]` loop would write past the end of `gPlayerParty` are dropped, since memory beyond the party is not modelled. With the party index, `bufferA[1]` and `bufferA[2]` as large as a `u8` allows, such bytes are reachable.
- PartnerController.Controller.HandleSetRawMonData: drops the same out-of-party bytes as RawCopy.
- PartnerMon.SetAfterGet: proved only when `SetMonData` reads each field at the width the get wrote it. That does not hold for OT id and EXP, which go out as 3 bytes and are set from a whole `u32`. What happens to those two is stated by WidenedSetAfterGet.
- PartnerController.Controller.RunHandler: ensures only the engine's shape. What each handler does is stated on its own Handle method.
- PartnerController.Controller.RunDataHandler: ensures only the engine's shape, for the same reason.
- PartnerController.Controller.RunFlagHandler: ensures only the engine's shape, for the same reason.
- PartnerController.Controller.RunAnimationHandler: ensures only the engine's shape, for the same reason.
- PartnerController.Controller.BufferRunCommand: for an in-range opcode it states which handler ran. What that handler does is stated by Dispatch and the Handle methods.
- PartnerController.Controller.Step: states the plain waits and the idle waits. The counting and stepping controller functions are stated by their Poll methods.
- PartnerController.Controller.RunTask: states that only the task itself changes among the tasks. Each phase is stated by its Exp or Intro method.
- PartnerController.Controller.RunExpTask: the same as RunTask.

## Findings

| source | as written | input that shows it | evidently intended | confidence | as-written member | corrected member |
|---|---|---|---|---|---|---|
| src/atlas_test.c:773 | `if (id > ACH_FLAGS_COUNT) return;` guards Give, Check and Take | id == ACH_FLAGS_COUNT passes the guard and indexes the byte one past `achFlags` | `id >= ACH_FLAGS_COUNT` rejected | high; not executed | Atlas.GuardAsWrittenAdmitsOnePastEnd | Atlas.WithFlag, with Atlas.GiveThenCheck and Atlas.OutOfRangeIgnored |
| src/atlas_test.c:724-731 | 22 rows of 32 tiles read from origins up to (34, 44) of a 64×64 tilemap | origin (34, 44): row 65, column 65, index 4225 ≥ 4096 | reads past the atlas edge avoided; only the 30×20 visible part matters | high; not executed | Atlas.ScrollAsWrittenReadsPastAtlas | Atlas.ScrollTile, with Atlas.VisibleWindowInsideAtlas |
| src/load_save.c:281-286 | the medicine and collectible loops store into `gLoadedSaveData.items` | an items pocket and a collectibles pocket whose first slots differ: load then save changes the first item slot | each pocket loaded to its own array | high; not executed | SaveBlocks.LoadAsWrittenLosesFirstItem | SaveBlocks.SaveAfterLoadKeepsPockets |
| src/battle_controller_player_partner.c:318-320 | the `s16` slots are cast to `u32`, which sign-extends the lower half | a gain of 40000 given at 100000 EXP, next level 200000: EXP becomes 74464 | each slot read back as `u16` | high; not executed | PartnerExp.AsWrittenGainLowersExp, with PartnerExp.GiveExpSignExtended; the controller runs this reading (PartnerController.ExpGivenSignExtended) | PartnerExp.ExpSlotsRoundTrip, for PartnerExp.ExpFromTask |
