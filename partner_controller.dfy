/**
 * The battle partner controller: the per-battler command dispatcher that
 * reads an opcode from the battler's command buffer, runs its handler, and
 * either completes the command at once or installs a polling controller
 * function that is re-run every tick until its guard holds. The battle
 * engine's globals the controller updates (`gBattlerControllerFuncs`,
 * `gBattleControllerExecFlags`, `bufferA`, the health-box and sprite fields
 * of each battler, the player's party, the task list) are fields of one
 * `Controller` object; everything the controller only asks of the engine
 * (sprite callbacks, animation and text-printer flags, AI answers) arrives
 * as an `Inputs` value for the tick.
 */
module PartnerController {
  import opened Common
  import opened PartnerMon
  import opened PartnerExp
  import opened PartnerAnim

  const MAX_BATTLERS := 4
  const BUFFER_SIZE := 0x200
  /** The number of entries of the command table. */
  const CONTROLLER_CMDS_COUNT := 58
  /** The opcode of the last table entry, the no-op terminator written back in link battles. */
  const CONTROLLER_TERMINATOR_NOP: bv8 := 57

  // ---------------------------------------------------------------------
  // The command table.
  // ---------------------------------------------------------------------

  /** The entries of `sPlayerPartnerBufferCommands`, one per opcode. */
  datatype Handler =
    | GetMonData | GetRawMonData | SetMonData | SetRawMonData | LoadMonSprite | SwitchInAnim
    | ReturnMonToBall | DrawTrainerPic | TrainerSlide | TrainerSlideBack | FaintAnimation
    | PaletteFade | SuccessBallThrowAnim | BallThrowAnim | Pause | MoveAnimation | PrintString
    | PrintSelectionString | ChooseAction | UnknownYesNoBox | ChooseMove | ChooseItem
    | ChoosePokemon | Cmd23 | HealthBarUpdate | ExpUpdate | StatusIconUpdate | StatusAnimation
    | StatusXor | DataTransfer | DMA3Transfer | PlayBGM | Cmd32 | TwoReturnValues
    | ChosenMonReturnValue | OneReturnValue | OneReturnValueDuplicate | Cmd37 | Cmd38 | Cmd39
    | Cmd40 | HitAnimation | Cmd42 | PlaySE | PlayFanfareOrBGM | FaintingCry | IntroSlide
    | IntroTrainerBallThrow | DrawPartyStatusSummary | HidePartyStatusSummary | EndBounceEffect
    | SpriteInvisibility | BattleAnimation | LinkStandbyMsg | ResetActionMoveSelection | Cmd55
    | BattleDebug | CmdEnd

  /** The table, in opcode order: the handler opcode `op` runs. */
  function HandlerOf(op: nat): Handler
    requires op < CONTROLLER_CMDS_COUNT
  {
    match op
    case 0 => GetMonData case 1 => GetRawMonData case 2 => SetMonData case 3 => SetRawMonData
    case 4 => LoadMonSprite case 5 => SwitchInAnim case 6 => ReturnMonToBall case 7 => DrawTrainerPic
    case 8 => TrainerSlide case 9 => TrainerSlideBack case 10 => FaintAnimation case 11 => PaletteFade
    case 12 => SuccessBallThrowAnim case 13 => BallThrowAnim case 14 => Pause case 15 => MoveAnimation
    case 16 => PrintString case 17 => PrintSelectionString case 18 => ChooseAction case 19 => UnknownYesNoBox
    case 20 => ChooseMove case 21 => ChooseItem case 22 => ChoosePokemon case 23 => Cmd23
    case 24 => HealthBarUpdate case 25 => ExpUpdate case 26 => StatusIconUpdate case 27 => StatusAnimation
    case 28 => StatusXor case 29 => DataTransfer case 30 => DMA3Transfer case 31 => PlayBGM case 32 => Cmd32
    case 33 => TwoReturnValues case 34 => ChosenMonReturnValue case 35 => OneReturnValue
    case 36 => OneReturnValueDuplicate case 37 => Cmd37 case 38 => Cmd38 case 39 => Cmd39 case 40 => Cmd40
    case 41 => HitAnimation case 42 => Cmd42 case 43 => PlaySE case 44 => PlayFanfareOrBGM
    case 45 => FaintingCry case 46 => IntroSlide case 47 => IntroTrainerBallThrow
    case 48 => DrawPartyStatusSummary case 49 => HidePartyStatusSummary case 50 => EndBounceEffect
    case 51 => SpriteInvisibility case 52 => BattleAnimation case 53 => LinkStandbyMsg
    case 54 => ResetActionMoveSelection case 55 => Cmd55 case 56 => BattleDebug
    case _ => CmdEnd   // opcode 57
  }

  /** The opcode whose table entry is `h`. */
  function OpcodeOf(h: Handler): nat
  {
    match h
    case GetMonData => 0 case GetRawMonData => 1 case SetMonData => 2 case SetRawMonData => 3
    case LoadMonSprite => 4 case SwitchInAnim => 5 case ReturnMonToBall => 6 case DrawTrainerPic => 7
    case TrainerSlide => 8 case TrainerSlideBack => 9 case FaintAnimation => 10 case PaletteFade => 11
    case SuccessBallThrowAnim => 12 case BallThrowAnim => 13 case Pause => 14 case MoveAnimation => 15
    case PrintString => 16 case PrintSelectionString => 17 case ChooseAction => 18
    case UnknownYesNoBox => 19 case ChooseMove => 20 case ChooseItem => 21 case ChoosePokemon => 22
    case Cmd23 => 23 case HealthBarUpdate => 24 case ExpUpdate => 25 case StatusIconUpdate => 26
    case StatusAnimation => 27 case StatusXor => 28 case DataTransfer => 29 case DMA3Transfer => 30
    case PlayBGM => 31 case Cmd32 => 32 case TwoReturnValues => 33 case ChosenMonReturnValue => 34
    case OneReturnValue => 35 case OneReturnValueDuplicate => 36 case Cmd37 => 37 case Cmd38 => 38
    case Cmd39 => 39 case Cmd40 => 40 case HitAnimation => 41 case Cmd42 => 42 case PlaySE => 43
    case PlayFanfareOrBGM => 44 case FaintingCry => 45 case IntroSlide => 46
    case IntroTrainerBallThrow => 47 case DrawPartyStatusSummary => 48
    case HidePartyStatusSummary => 49 case EndBounceEffect => 50 case SpriteInvisibility => 51
    case BattleAnimation => 52 case LinkStandbyMsg => 53 case ResetActionMoveSelection => 54
    case Cmd55 => 55 case BattleDebug => 56 case CmdEnd => 57
  }

  /**
   * Each in-range opcode runs the handler whose opcode it is, and the
   * terminator opcode selects `CmdEnd`.
   */
  lemma HandlerOpcodes()
    ensures forall op | 0 <= op < CONTROLLER_CMDS_COUNT :: OpcodeOf(HandlerOf(op)) == op
    ensures HandlerOf(CONTROLLER_TERMINATOR_NOP as nat) == CmdEnd
  {
    LowerOpcodes();
    UpperOpcodes();
  }

  /** The first half of the table, opcodes 0 to 28. */
  lemma LowerOpcodes()
    ensures forall op | 0 <= op < 29 :: OpcodeOf(HandlerOf(op)) == op
  {
  }

  /** The second half of the table, opcodes 29 to 57. */
  lemma UpperOpcodes()
    ensures forall op | 29 <= op < CONTROLLER_CMDS_COUNT :: OpcodeOf(HandlerOf(op)) == op
  {
  }

  /** Every handler has an in-range opcode that runs it, so no two opcodes share a handler. */
  lemma OpcodeHandlers()
    ensures forall h: Handler :: OpcodeOf(h) < CONTROLLER_CMDS_COUNT && HandlerOf(OpcodeOf(h)) == h
  {
  }

  // ---------------------------------------------------------------------
  // The battle engine's state the controller updates.
  // ---------------------------------------------------------------------

  /**
   * The controller functions a battler can be left in (`gBattlerControllerFuncs`).
   * Each polling function names the source routine it stands for.
   */
  datatype Func =
    | RunCommand            // PlayerPartnerBufferRunCommand
    | WaitTrainerSprite     // CompleteOnBattlerSpriteCallbackDummy
    | WaitSlideBack         // sub_81BAE98
    | HealthboxCountdown    // sub_81BAF00
    | WaitHealthboxes       // sub_81BAF48
    | WaitSendOut           // sub_81BB02C
    | WaitMonSprite         // sub_81BB1D4
    | WaitHealthBar         // CompleteOnHealthbarDone
    | WaitText              // CompleteOnInactiveTextPrinter
    | WaitExpTask           // nullsub_21
    | WaitFaintSlide        // sub_81BB78C
    | WaitSwitchOut         // sub_81BB828
    | WaitText2             // CompleteOnInactiveTextPrinter2
    | HitBlink              // DoHitAnimBlinkSpriteEffect
    | SwitchInHealthbox     // sub_81BB92C
    | SwitchInSubstitute    // sub_81BB9A0
    | SwitchInShiny         // sub_81BB9F4
    | SwitchInBall          // sub_81BBAE8
    | WaitStatusAnim        // CompleteOnFinishedStatusAnimation
    | WaitBattleAnim        // CompleteOnFinishedBattleAnimation
    | DoSwitchOut           // DoSwitchOutAnimation
    | DoMoveAnim            // PlayerPartnerDoMoveAnimation
    | SummaryCountdown      // sub_81BE498
    | WaitIntroTask         // nullsub_77
    | AfterBattle           // sub_80587B0, a routine of the battle main loop

  /** The per-battler fields the controller reads and writes. */
  datatype Battler = Battler(
    func: Func,
    animationState: int,     // healthBoxesData[].animationState (u8)
    field5: int,             // healthBoxesData[].field_5, the summary countdown (u8)
    field9: int,             // healthBoxesData[].field_9, the health-box countdown (u8)
    summaryShown: bool,      // healthBoxesData[].partyStatusSummaryShown
    behindSubstitute: bool,  // battlerData[].behindSubstitute
    flagX8: bool,            // battlerData[].flag_x8
    spriteCounter: int,      // data[1] of the battler's sprite (s16)
    invisible: bool,         // invisible bit of the battler's sprite
    partyIndex: int,         // gBattlerPartyIndexes[] (u16)
    monToSwitchInto: int)    // gBattleStruct->monToSwitchIntoId[] (u8)
  {
    predicate Valid()
    {
      0 <= animationState < 0x100 && 0 <= field5 < 0x100 && 0 <= field9 < 0x100
      && -0x8000 <= spriteCounter < 0x8000 && 0 <= partyIndex < 0x1_0000
      && 0 <= monToSwitchInto < 0x100
    }
  }

  /** The move-animation globals `PlayerPartnerHandleMoveAnimation` sets from the command. */
  datatype AnimParams = AnimParams(move: nat, turn: nat, power: nat, dmg: nat, friendship: nat, weather: nat)

  /** The globals shared by all battlers that the controller writes. */
  datatype Shared = Shared(
    doingBattleAnim: bool,   // gDoingBattleAnim
    battleOutcome: int,      // gBattleOutcome
    battlerTarget: int,      // gBattlerTarget
    field0: int,             // gUnknown_02022D0C.field_0
    flagX80: bool,           // gUnknown_02022D0C.flag_x80
    introSlideFlags: bv16,   // gIntroSlideFlags
    field9x1: bool,          // animationData->field_9_x1
    anim: AnimParams)

  /** What the controller sends back to the battle engine; the log of these stands for the emit buffer. */
  datatype Emit =
    | MonDataTransfer(battler: nat, data: seq<bv8>)     // BtlController_EmitDataTransfer
    | MonDataOverrun(battler: nat)                      // the answers do not fit the local buffer
    | MoveChoice(battler: nat, ret: int)                // BtlController_EmitTwoReturnValues(1, 10, ...)
    | ChosenMon(battler: nat, mon: int)                 // BtlController_EmitChosenMonReturnValue
    | LeveledUpReturn(battler: nat, carried: int)       // the RET_VALUE_LEVELED_UP return value
    | LinkCompletion(battler: nat)                      // PrepareBufferDataTransferLink(2, 4, ...)

  /** The functions the experience task runs through. */
  datatype ExpPhase =
    | GiveToMon            // Task_GiveExpToMon
    | PrepareWithBar       // Task_PrepareToGiveExpWithExpBar
    | FillBar              // sub_81BB4E4
    | LaunchLevelUpAnim    // sub_81BB628
    | WaitLevelUpAnim      // sub_81BB688
    | DestroyAndComplete   // DestroyExpTaskAndCompleteOnInactiveTextPrinter

  /** The tasks the controller creates, with the `data[]` slots they use. */
  datatype Task =
    | ExpTask(phase: ExpPhase, monId: int, slots: ExpSlots, bank: nat, frames: int)
    | IntroTask(battler: nat, counter: int)   // sub_81BE2C8
  {
    predicate Valid()
    {
      match this
      case ExpTask(_, monId, slots, bank, frames) =>
        0 <= monId < 0x100 && -0x8000 <= slots.lower < 0x8000 && -0x8000 <= slots.upper < 0x8000
        && bank < MAX_BATTLERS && 0 <= frames <= 13
      case IntroTask(battler, counter) => battler < MAX_BATTLERS && 0 <= counter <= 24
    }
  }

  /**
   * What the battle sets up once and the controller only reads: the battle
   * type, the level cap, the request ids, the struct layouts, the Pokémon
   * storage and stat code, and the experience tables.
   */
  datatype Config = Config(
    link: bool,                      // BATTLE_TYPE_LINK
    double: bool,                    // IsDoubleBattle()
    multi: bool,                     // BATTLE_TYPE_MULTI
    maxLevel: int,                   // MAX_LEVEL
    monSize: nat,                    // sizeof(struct Pokemon)
    requestOf: bv8 -> Request,       // which REQUEST_* id a byte is
    image: StructImage,
    store: FieldStore,
    decode: StructDecode,
    expTable: (int, int) -> int,     // gExperienceTables[gBaseStats[species].growthRate][level]
    calcStats: Mon -> Mon)           // CalculateMonStats

  /** What the engine answers the controller during one tick for the active battler. */
  datatype Inputs = Inputs(
    specialAnimActive: bool, animScriptActive: bool, spriteCallbackDummy: bool,
    healthboxCallbackDummy: bool, flankHealthboxCallbackDummy: bool, ballSpriteCallbackDummy: bool,
    ballAnimActive: bool, flankBallAnimActive: bool, cryPlaying: bool, textPrinterActive: bool,
    statusAnimActive: bool, animFromTableActive: bool, finishedShinyMonAnim: bool,
    spriteAnimEndedAtRest: bool, spriteBelowScreen: bool, healthBarDone: bool, mplayActive: bool,
    spritePresent: bool, battleAnimNotLaunched: bool, moveWithoutAnimation: bool, onPlayerSide: bool,
    mostSuitableMon: int, playerLeft: nat, playerRight: nat, aiMove: int,
    targetsUser: bool, targetsBoth: bool, opponentLeft: nat, opponentRight: nat, absentFlags: bv32)
  {
    /** Battler positions name battlers. */
    predicate Valid()
    {
      playerLeft < MAX_BATTLERS && playerRight < MAX_BATTLERS
      && opponentLeft < MAX_BATTLERS && opponentRight < MAX_BATTLERS
    }
  }

  /** What the engine answers a task during one tick. */
  datatype TaskInputs = TaskInputs(expBarDone: bool, specialAnimActive: nat -> bool)

  /** A snapshot of everything the controller updates. */
  datatype State = State(
    execFlags: bv32,
    bufferA: seq<seq<bv8>>,
    battlers: seq<Battler>,
    shared: Shared,
    party: seq<Mon>,
    partyBytes: seq<bv8>,
    tasks: map<nat, Task>,
    emitted: seq<Emit>)

  /** The shape the engine keeps: four battlers, each with a 0x200-byte command buffer, and a party of six. */
  predicate StateValid(s: State)
  {
    |s.bufferA| == MAX_BATTLERS && (forall i | 0 <= i < MAX_BATTLERS :: |s.bufferA[i]| == BUFFER_SIZE)
    && |s.battlers| == MAX_BATTLERS && (forall i | 0 <= i < MAX_BATTLERS :: s.battlers[i].Valid())
    && |s.party| == PARTY_SIZE
    && (forall id | id in s.tasks :: s.tasks[id].Valid())
  }

  // ---------------------------------------------------------------------
  // PlayerPartnerBufferExecCompleted.
  // ---------------------------------------------------------------------

  /** `gBitTable[b]`: the flag word with only bit `b` set. */
  function Bit(b: bv5): bv32
  {
    1 << b
  }

  /** Whether bit `i` of a flag word is set. */
  predicate HasBit(flags: bv32, i: bv5)
  {
    flags & Bit(i) != 0
  }

  /**
   * The state after the battler's command completes: the battler goes back
   * to reading commands; in a link battle the completion is sent to the
   * other players and the buffer's opcode becomes the terminator, otherwise
   * the battler's exec bit is cleared.
   */
  function Completed(s: State, b: nat, link: bool): State
    requires b < |s.battlers| && b < |s.bufferA| && |s.bufferA[b]| > 0 && b < 32
  {
    var s1 := s.(battlers := s.battlers[b := s.battlers[b].(func := RunCommand)]);
    if link then
      s1.(emitted := s.emitted + [LinkCompletion(b)],
          bufferA := s.bufferA[b := s.bufferA[b][0 := CONTROLLER_TERMINATOR_NOP]])
    else s1.(execFlags := s.execFlags & !Bit(b as bv5))
  }

  /** Clearing bit `b` leaves every other bit as it was. */
  lemma ClearBit(flags: bv32, b: bv5, i: bv5)
    ensures HasBit(flags & !Bit(b), i) <==> i != b && HasBit(flags, i)
  {
  }

  /** Clearing bit `b` clears it and keeps every other bit. */
  lemma ClearBitKeepsOthers(flags: bv32, b: bv5, r: bv32)
    requires r == flags & !Bit(b)
    ensures forall i: bv5 :: HasBit(r, i) <==> i != b && HasBit(flags, i)
  {
    forall i: bv5
      ensures HasBit(r, i) <==> i != b && HasBit(flags, i)
    {
      ClearBit(flags, b, i);
    }
  }

  /**
   * Completing a command always returns the battler to reading commands and
   * changes nothing else of it or of any other battler, nor the party, the
   * tasks or the shared globals.
   */
  lemma CompletedResetsBattler(s: State, b: nat, link: bool)
    requires StateValid(s) && b < MAX_BATTLERS
    ensures var r := Completed(s, b, link);
            && StateValid(r)
            && r.battlers[b] == s.battlers[b].(func := RunCommand)
            && (forall i | 0 <= i < MAX_BATTLERS && i != b :: r.battlers[i] == s.battlers[i])
            && r.party == s.party && r.partyBytes == s.partyBytes && r.tasks == s.tasks && r.shared == s.shared
  {
  }

  /**
   * Outside link battles, completing clears exactly the battler's exec bit,
   * leaves the command buffers alone and sends nothing.
   */
  lemma CompletedClearsOwnBit(s: State, b: nat)
    requires StateValid(s) && b < MAX_BATTLERS
    ensures var r := Completed(s, b, false);
            && (forall i: bv5 :: HasBit(r.execFlags, i) <==> i != b as bv5 && HasBit(s.execFlags, i))
            && r.bufferA == s.bufferA && r.emitted == s.emitted
  {
    ClearBitKeepsOthers(s.execFlags, b as bv5, Completed(s, b, false).execFlags);
  }

  /**
   * In link battles, completing leaves the exec flags alone, sends the
   * completion, and writes the terminator into the battler's opcode byte
   * and nowhere else.
   */
  lemma CompletedWritesTerminator(s: State, b: nat)
    requires StateValid(s) && b < MAX_BATTLERS
    ensures var r := Completed(s, b, true);
            && r.execFlags == s.execFlags && r.emitted == s.emitted + [LinkCompletion(b)]
            && |r.bufferA| == |s.bufferA| && |r.bufferA[b]| == |s.bufferA[b]|
            && r.bufferA[b][0] == CONTROLLER_TERMINATOR_NOP && r.bufferA[b][1..] == s.bufferA[b][1..]
            && (forall i | 0 <= i < MAX_BATTLERS && i != b :: r.bufferA[i] == s.bufferA[i])
  {
  }

  // ---------------------------------------------------------------------
  // Helpers of the handlers.
  // ---------------------------------------------------------------------

  /** `b ^ BIT_FLANK`: the battler on the same side in the other position. */
  function Flank(b: nat): (r: nat)
    requires b < MAX_BATTLERS
    ensures r < MAX_BATTLERS && r != b && r % 2 == b % 2
  {
    if b < 2 then b + 2 else b - 2
  }

  /** The party with slot `i` replaced; a slot past the party is not written. */
  function SetSlot(party: seq<Mon>, i: int, m: Mon): (r: seq<Mon>)
    ensures |r| == |party|
    ensures forall j | 0 <= j < |party| :: r[j] == if j == i then m else party[j]
  {
    if 0 <= i < |party| then party[i := m] else party
  }

  /** A slot the fallback of PlayerPartnerHandleChoosePokemon may switch to: alive and not on the field. */
  predicate Eligible(party: seq<Mon>, i: nat, leftIndex: int, rightIndex: int)
  {
    FieldOf(MonAt(party, i), Hp) != 0 && i != leftIndex && i != rightIndex
  }

  /**
   * The fallback of PlayerPartnerHandleChoosePokemon when the AI answers
   * 6: the first of slots 3 to 5 that is eligible, or 6 when none is.
   */
  method FallbackSwitchTarget(party: seq<Mon>, leftIndex: int, rightIndex: int) returns (chosen: nat)
    ensures 3 <= chosen <= 6
    ensures chosen < 6 ==> Eligible(party, chosen, leftIndex, rightIndex)
    ensures forall j | 3 <= j < chosen :: !Eligible(party, j, leftIndex, rightIndex)
  {
    chosen := 3;
    while chosen < 6
      invariant 3 <= chosen <= 6
      invariant forall j | 3 <= j < chosen :: !Eligible(party, j, leftIndex, rightIndex)
    {
      if FieldOf(MonAt(party, chosen), Hp) != 0 && chosen != leftIndex && chosen != rightIndex {
        return;
      }
      chosen := chosen + 1;
    }
  }

  /**
   * The copy loop of PlayerPartnerHandleSetRawMonData: `src` written byte by
   * byte from offset `at` of the party's bytes. Bytes that would land past
   * the party are dropped.
   */
  method RawCopy(raw: seq<bv8>, at: nat, src: seq<bv8>) returns (r: seq<bv8>)
    ensures |r| == |raw|
    ensures forall k | 0 <= k < |raw| :: r[k] == if at <= k < at + |src| then src[k - at] else raw[k]
  {
    r := raw;
    var i := 0;
    while i < |src|
      invariant 0 <= i <= |src| && |r| == |raw|
      invariant forall k | 0 <= k < |raw| :: r[k] == if at <= k < at + i then src[k - at] else raw[k]
    {
      if at + i < |r| {
        r := r[at + i := src[i]];
      }
      i := i + 1;
    }
  }

  /**
   * The guard of each polling function that only waits and then completes;
   * `None` for the others.
   */
  function WaitOver(f: Func, inp: Inputs): Option<bool>
  {
    match f
    case WaitTrainerSprite => Some(inp.spriteCallbackDummy)
    case WaitSlideBack => Some(inp.spriteCallbackDummy)
    case WaitMonSprite => Some(inp.spriteAnimEndedAtRest)
    case WaitHealthBar => Some(inp.healthBarDone)
    case WaitText => Some(!inp.textPrinterActive)
    case WaitText2 => Some(!inp.textPrinterActive)
    case WaitFaintSlide => Some(inp.spriteBelowScreen)
    case WaitSwitchOut => Some(!inp.specialAnimActive)
    case SwitchInSubstitute => Some(!inp.specialAnimActive && inp.spriteCallbackDummy)
    case WaitStatusAnim => Some(!inp.statusAnimActive)
    case WaitBattleAnim => Some(!inp.animFromTableActive)
    case _ => None
  }

  /** The `u16` a command stores little-endian at `buf[at]`, `buf[at + 1]`. */
  function Le16(buf: seq<bv8>, at: nat): (r: nat)
    requires at + 2 <= |buf|
    ensures r < 0x1_0000
  {
    buf[at] as nat + buf[at + 1] as nat * 0x100
  }

  /** The capacity of PlayerPartnerHandleGetMonData's local buffer: two `struct Pokemon` and 56 bytes. */
  function MonDataCapacity(cfg: Config): nat
  {
    2 * cfg.monSize + 56
  }

  /** The byte offset PlayerPartnerHandleSetRawMonData writes at: `offset` bytes into party slot `index`. */
  function RawOffset(index: nat, monSize: nat, offset: bv8): nat
  {
    index * monSize + offset as nat
  }

  /** The state with battler `b` replaced. */
  function SetBattler(s: State, b: nat, bt: Battler): State
    requires b < |s.battlers|
  {
    s.(battlers := s.battlers[b := bt])
  }

  /**
   * sub_81BD0E4's changes to the controller's fields: its
   * ClearTemporarySpeciesSpriteData clears the battler's substitute bit
   * unless `keepSubstitute` (`dontClearSubstituteBit`) is set, and the
   * battler takes party slot `index` and gets a new sprite, hidden and with
   * its data cleared.
   */
  function SentOut(bt: Battler, index: int, keepSubstitute: bool): Battler
  {
    bt.(partyIndex := index, invisible := true, spriteCounter := 0,
        behindSubstitute := keepSubstitute && bt.behindSubstitute)
  }

  /** The next level's threshold `GetMonData` and the experience table give for a Pokémon, in `u32`. */
  function NextLevelExp(cfg: Config, mon: Mon): (r: nat)
    ensures IsU32(r)
  {
    U32(cfg.expTable(U16(FieldOf(mon, Species)), U8(FieldOf(mon, Level)) + 1))
  }

  /**
   * The effect of the rule Task_GiveExpToMon and sub_81BB4E4 share, for
   * experience task `id`: on a level-up the Pokémon's experience becomes the
   * threshold, its stats are recalculated, the rest of the gain is sent back
   * (narrowed to `u16` when `narrow`) and the task moves to `afterLevelUp`;
   * otherwise the gain is added, the task ends and its battler waits for the
   * text printer. The gain is read back from the task's slots by
   * Task_GetExpFromTask as written, sign extension included.
   */
  function ExpGiven(s: State, id: nat, cfg: Config, narrow: bool, afterLevelUp: ExpPhase): State
    requires StateValid(s) && id in s.tasks && s.tasks[id].ExpTask?
  {
    var t := s.tasks[id];
    var mon := MonAt(s.party, t.monId);
    match GiveExp(U32(FieldOf(mon, Exp)), ExpFromTaskAsWritten(t.slots), NextLevelExp(cfg, mon))
    case LeveledUp(exp, carried) =>
      s.(party := SetSlot(s.party, t.monId, cfg.calcStats(mon[Exp := exp])),
         emitted := s.emitted + [LeveledUpReturn(t.bank, if narrow then U16(carried) else carried)],
         tasks := s.tasks[id := t.(phase := afterLevelUp)])
    case Gained(exp) =>
      SetBattler(s, t.bank, s.battlers[t.bank].(func := WaitText))
        .(party := SetSlot(s.party, t.monId, mon[Exp := exp]), tasks := s.tasks - {id})
  }

  /** Every task other than `id` is kept, and no task is added. */
  predicate OthersKept(before: map<nat, Task>, after: map<nat, Task>, id: nat)
  {
    after.Keys <= before.Keys && forall j | j in before && j != id :: j in after && after[j] == before[j]
  }

  /**
   * Giving experience keeps the engine's shape, touches only the battlers,
   * the party, the task itself and the emitted log.
   */
  lemma ExpGivenValid(s: State, id: nat, cfg: Config, narrow: bool, afterLevelUp: ExpPhase)
    requires StateValid(s) && id in s.tasks && s.tasks[id].ExpTask?
    ensures var r := ExpGiven(s, id, cfg, narrow, afterLevelUp);
            StateValid(r) && r.execFlags == s.execFlags && r.bufferA == s.bufferA
            && r.shared == s.shared && r.partyBytes == s.partyBytes && OthersKept(s.tasks, r.tasks, id)
  {
  }

  /**
   * Giving experience keeps the engine's shape; without `u32` wrap-around
   * the Pokémon's experience becomes the smaller of its experience plus the
   * gain the task reads back and the next level's threshold, and the task
   * ends exactly when no level is reached.
   */
  lemma ExpGivenSpec(s: State, id: nat, cfg: Config, narrow: bool, afterLevelUp: ExpPhase)
    requires StateValid(s) && id in s.tasks && s.tasks[id].ExpTask?
    requires var t := s.tasks[id]; 0 <= t.monId < PARTY_SIZE
    requires var t := s.tasks[id]; var mon := MonAt(s.party, t.monId);
             var curr := U32(FieldOf(mon, Exp));
             curr <= NextLevelExp(cfg, mon) && curr + ExpFromTaskAsWritten(t.slots) < 0x1_0000_0000
    ensures var r := ExpGiven(s, id, cfg, narrow, afterLevelUp);
            var t := s.tasks[id];
            var mon := MonAt(s.party, t.monId);
            var curr := U32(FieldOf(mon, Exp));
            var next := NextLevelExp(cfg, mon);
            var g := ExpFromTaskAsWritten(t.slots);
            && StateValid(r)
            && (id in r.tasks <==> curr + g >= next)
            && (curr + g >= next ==> r.party[t.monId] == cfg.calcStats(mon[Exp := next]))
            && (curr + g < next ==> FieldOf(r.party[t.monId], Exp) == curr + g)
  {
    var t := s.tasks[id];
    var mon := MonAt(s.party, t.monId);
    GiveExpRule(U32(FieldOf(mon, Exp)), ExpFromTaskAsWritten(t.slots), NextLevelExp(cfg, mon));
  }

  /**
   * For a gain PlayerPartnerHandleExpUpdate stored with bit 15 clear, the
   * task reads back exactly that gain, so the Pokémon levels up exactly when
   * its experience plus the gain reaches the threshold, and otherwise gains it.
   */
  lemma ExpGivenStoredGain(s: State, id: nat, cfg: Config, narrow: bool, afterLevelUp: ExpPhase, gain: nat)
    requires StateValid(s) && id in s.tasks && s.tasks[id].ExpTask?
    requires var t := s.tasks[id]; 0 <= t.monId < PARTY_SIZE
    requires IsU32(gain) && s.tasks[id].slots == SplitExp(gain) && gain % 0x1_0000 < 0x8000
    requires var t := s.tasks[id]; var mon := MonAt(s.party, t.monId);
             var curr := U32(FieldOf(mon, Exp));
             curr <= NextLevelExp(cfg, mon) && curr + gain < 0x1_0000_0000
    ensures var r := ExpGiven(s, id, cfg, narrow, afterLevelUp);
            var t := s.tasks[id];
            var mon := MonAt(s.party, t.monId);
            var curr := U32(FieldOf(mon, Exp));
            var next := NextLevelExp(cfg, mon);
            && (id in r.tasks <==> curr + gain >= next)
            && (curr + gain >= next ==> r.party[t.monId] == cfg.calcStats(mon[Exp := next]))
            && (curr + gain < next ==> FieldOf(r.party[t.monId], Exp) == curr + gain)
  {
    ExpSlotsAsWritten(gain);
    ExpGivenSpec(s, id, cfg, narrow, afterLevelUp);
  }

  /**
   * For a 16-bit gain stored with bit 15 set, the task as written gives the
   * Pokémon the gain minus 0x10000: from 0x10000 experience plus gain on,
   * its experience drops by 0x10000 minus the gain and the task ends; below
   * that the Pokémon levels up (at any threshold up to 0xFFFF0000) and the
   * task survives.
   */
  lemma ExpGivenSignExtended(s: State, id: nat, cfg: Config, narrow: bool, afterLevelUp: ExpPhase, gain: nat)
    requires StateValid(s) && id in s.tasks && s.tasks[id].ExpTask?
    requires var t := s.tasks[id]; 0 <= t.monId < PARTY_SIZE
    requires 0x8000 <= gain < 0x1_0000 && s.tasks[id].slots == SplitExp(gain)
    requires var t := s.tasks[id]; var mon := MonAt(s.party, t.monId);
             U32(FieldOf(mon, Exp)) <= NextLevelExp(cfg, mon)
    ensures var r := ExpGiven(s, id, cfg, narrow, afterLevelUp);
            var t := s.tasks[id];
            var mon := MonAt(s.party, t.monId);
            var curr := U32(FieldOf(mon, Exp));
            var next := NextLevelExp(cfg, mon);
            && (0x1_0000 <= curr + gain ==>
                  id !in r.tasks && FieldOf(r.party[t.monId], Exp) == curr + gain - 0x1_0000)
            && (curr + gain < 0x1_0000 && next <= 0xFFFF_0000 ==>
                  id in r.tasks && r.party[t.monId] == cfg.calcStats(mon[Exp := next]))
  {
    var t := s.tasks[id];
    var mon := MonAt(s.party, t.monId);
    GiveExpSignExtended(U32(FieldOf(mon, Exp)), gain, NextLevelExp(cfg, mon));
  }

  /**
   * sub_81BE2C8's send-out of battler `i`: its command buffer's byte 1
   * takes its party index, narrowed to `u8`, and sub_81BD0E4, called with
   * `dontClearSubstituteBit` FALSE, then clears its substitute bit and gives
   * it that slot and a new hidden sprite.
   */
  function IntroSendOut(s: State, i: nat): State
    requires StateValid(s) && i < MAX_BATTLERS
  {
    var index := U8(s.battlers[i].partyIndex);
    s.(bufferA := s.bufferA[i := s.bufferA[i][1 := index as bv8]],
       battlers := s.battlers[i := SentOut(s.battlers[i], index, false)])
  }

  /** What a handler does when dispatched. */
  datatype HandlerKind =
    | Completes            // completes at once: its work is presentation, sound or AI the model leaves out
    | Installs(f: Func)    // starts something and leaves the battler polling `f`
    | OwnMethod            // a handler with a method of its own
    | DoesNothing          // the terminator

  /** The kind of each table entry. */
  function KindOf(h: Handler): HandlerKind
  {
    match h
    case GetRawMonData | TrainerSlide | PaletteFade | SuccessBallThrowAnim | BallThrowAnim | Pause
       | PrintSelectionString | ChooseAction | UnknownYesNoBox | ChooseItem | Cmd23 | StatusXor | DataTransfer
       | DMA3Transfer | PlayBGM | Cmd32 | TwoReturnValues | ChosenMonReturnValue | OneReturnValue
       | OneReturnValueDuplicate | Cmd42 | PlaySE | PlayFanfareOrBGM | FaintingCry | HidePartyStatusSummary
       | EndBounceEffect | LinkStandbyMsg | ResetActionMoveSelection | BattleDebug => Completes
    case LoadMonSprite => Installs(WaitMonSprite)
    case DrawTrainerPic => Installs(WaitTrainerSprite)
    case TrainerSlideBack => Installs(WaitSlideBack)
    case PrintString => Installs(WaitText2)
    case HealthBarUpdate => Installs(WaitHealthBar)
    case CmdEnd => DoesNothing
    case _ => OwnMethod
  }

  // ---------------------------------------------------------------------
  // The controller.
  // ---------------------------------------------------------------------

  /** The controller's view of the battle engine's globals, and its handlers and polling functions. */
  class Controller {
    var execFlags: bv32            // gBattleControllerExecFlags
    var bufferA: seq<seq<bv8>>     // gBattleResources->bufferA
    var battlers: seq<Battler>
    var shared: Shared
    var party: seq<Mon>            // gPlayerParty, field by field
    var partyBytes: seq<bv8>       // gPlayerParty, as raw bytes
    var tasks: map<nat, Task>      // gTasks, by task id
    var emitted: seq<Emit>
    /** The handlers dispatched so far, in order. */
    ghost var trace: seq<Handler>
    const cfg: Config

    ghost function Now(): State
      reads this
    {
      State(execFlags, bufferA, battlers, shared, party, partyBytes, tasks, emitted)
    }

    ghost predicate Valid()
      reads this
    {
      StateValid(Now())
    }

    constructor(cfg: Config, s: State)
      requires StateValid(s)
      ensures Valid() && Now() == s && trace == [] && this.cfg == cfg
    {
      this.cfg := cfg;
      execFlags, bufferA, battlers, shared := s.execFlags, s.bufferA, s.battlers, s.shared;
      party, partyBytes, tasks, emitted := s.party, s.partyBytes, s.tasks, s.emitted;
      trace := [];
    }

    /** PlayerPartnerBufferExecCompleted for battler `b`. */
    method ExecCompleted(b: nat)
      requires Valid() && b < MAX_BATTLERS
      modifies this
      ensures Valid() && Now() == Completed(old(Now()), b, cfg.link) && trace == old(trace)
    {
      CompletedResetsBattler(Now(), b, cfg.link);
      battlers := battlers[b := battlers[b].(func := RunCommand)];
      if cfg.link {
        emitted := emitted + [LinkCompletion(b)];
        bufferA := bufferA[b := bufferA[b][0 := CONTROLLER_TERMINATOR_NOP]];
      } else {
        execFlags := execFlags & !Bit(b as bv5);
      }
    }

    /** Leaves battler `b` polling `f`: the handlers that only start something and wait for it. */
    method Install(b: nat, f: Func)
      requires Valid() && b < MAX_BATTLERS
      modifies this
      ensures Valid() && Now() == SetBattler(old(Now()), b, old(battlers[b]).(func := f))
    {
      battlers := battlers[b := battlers[b].(func := f)];
    }

    /** CreateTask: task `t` takes the free slot `id`. */
    method StartTask(id: nat, t: Task)
      requires Valid() && t.Valid() && !(id in tasks)
      modifies this
      ensures Valid() && Now() == old(Now()).(tasks := old(tasks)[id := t])
    {
      tasks := tasks[id := t];
    }

    /**
     * PlayerPartnerHandleGetMonData: the answers for the addressed party
     * slots are sent back, concatenated, and the command completes. When
     * they do not fit the local buffer the overrun is reported instead.
     */
    method HandleGetMonData(b: nat)
      requires Valid() && b < MAX_BATTLERS
      modifies this
      ensures Valid()
      ensures var s := old(Now());
              var answer := Gathered(cfg.requestOf(s.bufferA[b][1]), s.party,
                                     SelectedSlots(s.bufferA[b][2], U8(s.battlers[b].partyIndex)), cfg.image);
              var reply := if |answer| <= MonDataCapacity(cfg) then MonDataTransfer(b, answer) else MonDataOverrun(b);
              Now() == Completed(s.(emitted := s.emitted + [reply]), b, cfg.link)
    {
      var data, overrun := GatherMonData(cfg.requestOf(bufferA[b][1]), party, bufferA[b][2],
                                         U8(battlers[b].partyIndex), cfg.image, MonDataCapacity(cfg));
      emitted := emitted + [if overrun then MonDataOverrun(b) else MonDataTransfer(b, data)];
      ExecCompleted(b);
    }

    /**
     * PlayerPartnerHandleSetMonData: every addressed party slot is set from
     * the payload at byte 3 of the command, the others stay as they were,
     * and the command completes.
     */
    method HandleSetMonData(b: nat)
      requires Valid() && b < MAX_BATTLERS
      modifies this
      ensures Valid() && |party| == PARTY_SIZE
      ensures forall i | 0 <= i < PARTY_SIZE ::
                party[i] == if i in SelectedSlots(old(bufferA[b][2]), U8(old(battlers[b].partyIndex)))
                            then StoreRequest(cfg.requestOf(old(bufferA[b][1])), old(party[i]), old(bufferA[b][3..]), cfg.store, cfg.decode)
                            else old(party[i])
      ensures Now() == Completed(old(Now()).(party := party), b, cfg.link)
    {
      party := SetPartyData(cfg.requestOf(bufferA[b][1]), party, bufferA[b][2], U8(battlers[b].partyIndex),
                            bufferA[b][3..], cfg.store, cfg.decode);
      ExecCompleted(b);
    }

    /**
     * PlayerPartnerHandleSetRawMonData: `bufferA[2]` bytes from byte 3 of the
     * command are copied into the party's bytes, `bufferA[1]` bytes into the
     * battler's party slot, and the command completes.
     */
    method HandleSetRawMonData(b: nat)
      requires Valid() && b < MAX_BATTLERS
      modifies this
      ensures Valid() && |partyBytes| == |old(partyBytes)|
      ensures var at := RawOffset(old(battlers[b].partyIndex), cfg.monSize, old(bufferA[b][1]));
              var src := old(bufferA[b][3 .. 3 + bufferA[b][2] as nat]);
              forall k | 0 <= k < |partyBytes| :: partyBytes[k] == if at <= k < at + |src| then src[k - at] else old(partyBytes[k])
      ensures Now() == Completed(old(Now()).(partyBytes := partyBytes), b, cfg.link)
    {
      var at := RawOffset(battlers[b].partyIndex, cfg.monSize, bufferA[b][1]);
      partyBytes := RawCopy(partyBytes, at, bufferA[b][3 .. 3 + bufferA[b][2] as nat]);
      ExecCompleted(b);
    }

    /**
     * PlayerPartnerHandleSwitchInAnim: the battler keeps its substitute bit
     * only when `bufferA[2]` (`dontClearSubstituteBit`) is nonzero, takes the
     * party slot in `bufferA[1]`, gets its new hidden sprite and waits for
     * the ball.
     */
    method HandleSwitchInAnim(b: nat)
      requires Valid() && b < MAX_BATTLERS
      modifies this
      ensures Valid()
      ensures Now() == SetBattler(old(Now()), b, SentOut(old(battlers[b]), old(bufferA[b][1]) as int,
                                                         old(bufferA[b][2]) != 0).(func := SwitchInBall))
      ensures battlers[b].behindSubstitute <==> old(battlers[b].behindSubstitute) && old(bufferA[b][2]) != 0
    {
      battlers := battlers[b := SentOut(battlers[b], bufferA[b][1] as int, bufferA[b][2] != 0).(func := SwitchInBall)];
    }

    /**
     * PlayerPartnerHandleReturnMonToBall: with `bufferA[1] == 0` the
     * switch-out animation starts from state 0; otherwise the sprite is
     * removed and the command completes.
     */
    method HandleReturnMonToBall(b: nat)
      requires Valid() && b < MAX_BATTLERS
      modifies this
      ensures Valid()
      ensures Now() == if old(bufferA[b][1]) == 0
                       then SetBattler(old(Now()), b, old(battlers[b]).(animationState := 0, func := DoSwitchOut))
                       else Completed(old(Now()), b, cfg.link)
    {
      if bufferA[b][1] == 0 {
        battlers := battlers[b := battlers[b].(animationState := 0, func := DoSwitchOut)];
      } else {
        ExecCompleted(b);
      }
    }

    /**
     * PlayerPartnerHandleFaintAnimation: in state 0 the state moves to 1 and
     * the command stays in place, so it is dispatched again next tick; in
     * any other state, once no special animation runs, the state resets, the
     * sprite's slide counter is cleared and the battler waits for the sprite
     * to leave the screen.
     */
    method HandleFaintAnimation(b: nat, inp: Inputs)
      requires Valid() && b < MAX_BATTLERS
      modifies this
      ensures Valid()
      ensures var bt := old(battlers[b]);
              Now() == if bt.animationState == 0 then SetBattler(old(Now()), b, bt.(animationState := 1))
                       else if !inp.specialAnimActive
                       then SetBattler(old(Now()), b, bt.(animationState := 0, spriteCounter := 0, func := WaitFaintSlide))
                       else old(Now())
    {
      if battlers[b].animationState == 0 {
        battlers := battlers[b := battlers[b].(animationState := U8(battlers[b].animationState + 1))];
      } else if !inp.specialAnimActive {
        battlers := battlers[b := battlers[b].(animationState := 0, spriteCounter := 0, func := WaitFaintSlide)];
      }
    }

    /**
     * PlayerPartnerHandleMoveAnimation: unless music is being set up, the
     * move's parameters are read from the command and the move animation
     * starts from state 0, or the command completes for a move without an
     * animation.
     */
    method HandleMoveAnimation(b: nat, inp: Inputs)
      requires Valid() && b < MAX_BATTLERS
      modifies this
      ensures Valid()
      ensures var buf := old(bufferA[b]);
              var anim := AnimParams(Le16(buf, 1), buf[3] as nat, Le16(buf, 4), Le16(buf, 6) + Le16(buf, 8) * 0x1_0000,
                                     buf[10] as nat, Le16(buf, 12));
              var s := old(Now()).(shared := old(shared).(anim := anim));
              Now() == if inp.mplayActive then old(Now())
                       else if inp.moveWithoutAnimation then Completed(s, b, cfg.link)
                       else SetBattler(s, b, old(battlers[b]).(animationState := 0, func := DoMoveAnim))
    {
      if !inp.mplayActive {
        var buf := bufferA[b];
        shared := shared.(anim := AnimParams(Le16(buf, 1), buf[3] as nat, Le16(buf, 4), Le16(buf, 6) + Le16(buf, 8) * 0x1_0000,
                                             buf[10] as nat, Le16(buf, 12)));
        if inp.moveWithoutAnimation {
          ExecCompleted(b);
        } else {
          battlers := battlers[b := battlers[b].(animationState := 0, func := DoMoveAnim)];
        }
      }
    }

    /**
     * PlayerPartnerHandleChooseMove: the AI's move is sent back with its
     * target in the high byte. The target is the battler itself for moves
     * aimed at the user, the left opponent (the right one when the left is
     * absent) for moves that hit both, and otherwise the current target.
     */
    method HandleChooseMove(b: nat, inp: Inputs)
      requires Valid() && b < MAX_BATTLERS && inp.Valid()
      modifies this
      ensures Valid()
      ensures var target := if inp.targetsBoth
                            then (if HasBit(inp.absentFlags, inp.opponentLeft as bv5) then inp.opponentRight else inp.opponentLeft)
                            else if inp.targetsUser then b else old(shared.battlerTarget);
              var s := old(Now());
              Now() == Completed(s.(shared := s.shared.(battlerTarget := target),
                                    emitted := s.emitted + [MoveChoice(b, U8(inp.aiMove) + target * 0x100)]), b, cfg.link)
    {
      var target := if inp.targetsBoth
                    then (if HasBit(inp.absentFlags, inp.opponentLeft as bv5) then inp.opponentRight else inp.opponentLeft)
                    else if inp.targetsUser then b else shared.battlerTarget;
      shared := shared.(battlerTarget := target);
      emitted := emitted + [MoveChoice(b, U8(inp.aiMove) + target * 0x100)];
      ExecCompleted(b);
    }

    /**
     * PlayerPartnerHandleChoosePokemon: the AI's choice, or when it answers 6
     * the first of slots 3 to 5 that is alive and not on the field (6 if
     * none), is recorded as the battler's switch target and sent back.
     */
    method HandleChoosePokemon(b: nat, inp: Inputs) returns (chosen: int)
      requires Valid() && b < MAX_BATTLERS && inp.Valid()
      modifies this
      ensures Valid()
      ensures var left := old(battlers[inp.playerLeft].partyIndex);
              var right := old(battlers[inp.playerRight].partyIndex);
              && (inp.mostSuitableMon != 6 ==> chosen == inp.mostSuitableMon)
              && (inp.mostSuitableMon == 6 ==>
                    && 3 <= chosen <= 6
                    && (chosen < 6 ==> Eligible(old(party), chosen, left, right))
                    && (forall j | 3 <= j < chosen :: !Eligible(old(party), j, left, right)))
      ensures var s := old(Now());
              Now() == Completed(SetBattler(s, b, s.battlers[b].(monToSwitchInto := U8(chosen)))
                                   .(emitted := s.emitted + [ChosenMon(b, U8(chosen))]), b, cfg.link)
    {
      chosen := inp.mostSuitableMon;
      if chosen == 6 {
        chosen := FallbackSwitchTarget(party, battlers[inp.playerLeft].partyIndex, battlers[inp.playerRight].partyIndex);
      }
      battlers := battlers[b := battlers[b].(monToSwitchInto := U8(chosen))];
      emitted := emitted + [ChosenMon(b, U8(chosen))];
      ExecCompleted(b);
    }

    /**
     * PlayerPartnerHandleExpUpdate: for a Pokémon below the level cap, an
     * experience task is created with the two-byte gain split over its
     * slots, and the battler waits for the task; at the cap the command
     * completes and no task is created.
     */
    method HandleExpUpdate(b: nat, taskId: nat)
      requires Valid() && b < MAX_BATTLERS && !(taskId in tasks)
      modifies this
      ensures Valid()
      ensures var buf := old(bufferA[b]);
              var monId := buf[1] as int;
              Now() == if FieldOf(MonAt(old(party), monId), Level) >= cfg.maxLevel
                       then Completed(old(Now()), b, cfg.link)
                       else SetBattler(old(Now()), b, old(battlers[b]).(func := WaitExpTask))
                              .(tasks := old(tasks)[taskId := ExpTask(GiveToMon, monId, SplitExp(Le16(buf, 2)), b, 0)])
    {
      var monId := bufferA[b][1] as int;
      if FieldOf(MonAt(party, monId), Level) >= cfg.maxLevel {
        ExecCompleted(b);
      } else {
        Install(b, WaitExpTask);
        StartTask(taskId, ExpTask(GiveToMon, monId, SplitExp(Le16(bufferA[b], 2)), b, 0));
      }
    }

    /**
     * PlayerPartnerHandleHitAnimation: a hidden sprite completes at once;
     * otherwise a battle animation is flagged and the sprite starts blinking
     * from counter 0.
     */
    method HandleHitAnimation(b: nat)
      requires Valid() && b < MAX_BATTLERS
      modifies this
      ensures Valid()
      ensures var s := old(Now());
              Now() == if old(battlers[b].invisible) then Completed(s, b, cfg.link)
                       else SetBattler(s, b, s.battlers[b].(spriteCounter := 0, func := HitBlink))
                              .(shared := s.shared.(doingBattleAnim := true))
    {
      if battlers[b].invisible {
        ExecCompleted(b);
      } else {
        shared := shared.(doingBattleAnim := true);
        battlers := battlers[b := battlers[b].(spriteCounter := 0, func := HitBlink)];
      }
    }

    /**
     * PlayerPartnerHandleIntroTrainerBallThrow: a task is created that sends
     * the Pokémon out after its countdown, and the battler waits for it.
     */
    method HandleIntroTrainerBallThrow(b: nat, taskId: nat)
      requires Valid() && b < MAX_BATTLERS && !(taskId in tasks)
      modifies this
      ensures Valid()
      ensures var s := old(Now());
              Now() == SetBattler(s, b, s.battlers[b].(func := WaitIntroTask))
                         .(tasks := s.tasks[taskId := IntroTask(b, 0)], shared := s.shared.(field9x1 := true))
    {
      StartTask(taskId, IntroTask(b, 0));
      shared := shared.(field9x1 := true);
      battlers := battlers[b := battlers[b].(func := WaitIntroTask)];
    }

    /**
     * PlayerPartnerHandleDrawPartyStatusSummary: for a player-side battler
     * asked with `bufferA[1] != 0` the command completes; otherwise the
     * summary is shown and its countdown starts at 0, or at 0x5D when
     * `bufferA[2] != 0`.
     */
    method HandleDrawPartyStatusSummary(b: nat, inp: Inputs)
      requires Valid() && b < MAX_BATTLERS
      modifies this
      ensures Valid()
      ensures var buf := old(bufferA[b]);
              Now() == if buf[1] != 0 && inp.onPlayerSide then Completed(old(Now()), b, cfg.link)
                       else SetBattler(old(Now()), b, old(battlers[b]).(summaryShown := true,
                                         field5 := if buf[2] != 0 then 0x5D else 0, func := SummaryCountdown))
    {
      if bufferA[b][1] != 0 && inp.onPlayerSide {
        ExecCompleted(b);
      } else {
        var field5 := 0;
        if bufferA[b][2] != 0 {
          field5 := 0x5D;
        }
        battlers := battlers[b := battlers[b].(summaryShown := true, field5 := field5, func := SummaryCountdown)];
      }
    }

    /** PlayerPartnerHandleSpriteInvisibility: a present sprite takes the low bit of `bufferA[1]` as its invisible bit. */
    method HandleSpriteInvisibility(b: nat, inp: Inputs)
      requires Valid() && b < MAX_BATTLERS
      modifies this
      ensures Valid()
      ensures var s := old(Now());
              Now() == Completed(if inp.spritePresent
                                 then SetBattler(s, b, s.battlers[b].(invisible := old(bufferA[b][1]) & 1 == 1))
                                 else s, b, cfg.link)
    {
      if inp.spritePresent {
        battlers := battlers[b := battlers[b].(invisible := bufferA[b][1] & 1 == 1)];
      }
      ExecCompleted(b);
    }

    /**
     * PlayerPartnerHandleBattleAnimation: unless music is being set up, the
     * command completes when the animation could not be launched, and
     * otherwise waits for it.
     */
    method HandleBattleAnimation(b: nat, inp: Inputs)
      requires Valid() && b < MAX_BATTLERS
      modifies this
      ensures Valid()
      ensures Now() == if inp.mplayActive then old(Now())
                       else if inp.battleAnimNotLaunched then Completed(old(Now()), b, cfg.link)
                       else SetBattler(old(Now()), b, old(battlers[b]).(func := WaitBattleAnim))
    {
      if !inp.mplayActive {
        if inp.battleAnimNotLaunched {
          ExecCompleted(b);
        } else {
          battlers := battlers[b := battlers[b].(func := WaitBattleAnim)];
        }
      }
    }

    /** PlayerPartnerHandleStatusIconUpdate and PlayerPartnerHandleStatusAnimation: unless music is being set up, wait for the status animation. */
    method HandleStatusUpdate(b: nat, inp: Inputs)
      requires Valid() && b < MAX_BATTLERS
      modifies this
      ensures Valid()
      ensures Now() == if inp.mplayActive then old(Now())
                       else SetBattler(old(Now()), b, old(battlers[b]).(func := WaitStatusAnim))
    {
      if !inp.mplayActive {
        battlers := battlers[b := battlers[b].(func := WaitStatusAnim)];
      }
    }

    /**
     * The handlers that set one shared global and complete: Cmd37 clears
     * `field_0`, Cmd38 sets it to `bufferA[1]`, Cmd39 clears `flag_x80`,
     * Cmd40 toggles it, IntroSlide sets bit 0 of `gIntroSlideFlags`.
     */
    method HandleSharedFlag(b: nat, h: Handler)
      requires Valid() && b < MAX_BATTLERS
      requires h.Cmd37? || h.Cmd38? || h.Cmd39? || h.Cmd40? || h.IntroSlide?
      modifies this
      ensures Valid()
      ensures var sh := old(shared);
              var sh' := if h.Cmd37? then sh.(field0 := 0)
                         else if h.Cmd38? then sh.(field0 := old(bufferA[b][1]) as int)
                         else if h.Cmd39? then sh.(flagX80 := false)
                         else if h.Cmd40? then sh.(flagX80 := !sh.flagX80)
                         else sh.(introSlideFlags := sh.introSlideFlags | 1);
              Now() == Completed(old(Now()).(shared := sh'), b, cfg.link)
    {
      if h.Cmd37? {
        shared := shared.(field0 := 0);
      } else if h.Cmd38? {
        shared := shared.(field0 := bufferA[b][1] as int);
      } else if h.Cmd39? {
        shared := shared.(flagX80 := false);
      } else if h.Cmd40? {
        shared := shared.(flagX80 := !shared.flagX80);
      } else {
        shared := shared.(introSlideFlags := shared.introSlideFlags | 1);
      }
      ExecCompleted(b);
    }

    /**
     * PlayerPartnerHandleCmd55: the battle outcome is taken from
     * `bufferA[1]`, the command completes, and the battler is then handed
     * to the battle's closing routine rather than back to reading commands.
     */
    method HandleCmd55(b: nat)
      requires Valid() && b < MAX_BATTLERS
      modifies this
      ensures Valid()
      ensures var c := Completed(old(Now()).(shared := old(shared).(battleOutcome := old(bufferA[b][1]) as int)), b, cfg.link);
              Now() == SetBattler(c, b, c.battlers[b].(func := AfterBattle))
    {
      shared := shared.(battleOutcome := bufferA[b][1] as int);
      ExecCompleted(b);
      battlers := battlers[b := battlers[b].(func := AfterBattle)];
    }

    // -------------------------------------------------------------------
    // Polling functions.
    // -------------------------------------------------------------------

    /** A polling function that only waits: the command completes once `over` holds. */
    method CompleteWhen(b: nat, over: bool)
      requires Valid() && b < MAX_BATTLERS
      modifies this
      ensures Valid() && Now() == if over then Completed(old(Now()), b, cfg.link) else old(Now())
    {
      if over {
        ExecCompleted(b);
      }
    }

    /** A polling function that hands over to `next` once `ready` holds. */
    method InstallWhen(b: nat, ready: bool, next: Func)
      requires Valid() && b < MAX_BATTLERS
      modifies this
      ensures Valid()
      ensures Now() == if ready then SetBattler(old(Now()), b, old(battlers[b]).(func := next)) else old(Now())
    {
      if ready {
        battlers := battlers[b := battlers[b].(func := next)];
      }
    }

    /** sub_81BAF00: one tick of the health-box countdown; the command completes when it wraps. */
    method PollHealthboxCountdown(b: nat)
      requires Valid() && b < MAX_BATTLERS
      modifies this
      ensures Valid()
      ensures var r := HealthboxStep(old(battlers[b].field9));
              var s := SetBattler(old(Now()), b, old(battlers[b]).(field9 := r.counter));
              Now() == if r.completes then Completed(s, b, cfg.link) else s
    {
      var r := HealthboxStep(battlers[b].field9);
      battlers := battlers[b := battlers[b].(field9 := r.counter)];
      if r.completes {
        ExecCompleted(b);
      }
    }

    /**
     * sub_81BAF48: once the battler's health box (and, in a double battle
     * that is not a multi battle, its flank's) is idle and no cry plays, the
     * health-box countdown starts from 3.
     */
    method PollHealthboxes(b: nat, inp: Inputs)
      requires Valid() && b < MAX_BATTLERS
      modifies this
      ensures Valid()
      ensures var ready := (if !cfg.double || cfg.multi then inp.healthboxCallbackDummy
                            else inp.healthboxCallbackDummy && inp.flankHealthboxCallbackDummy)
                           && !inp.cryPlaying;
              Now() == if ready then SetBattler(old(Now()), b, old(battlers[b]).(field9 := 3, func := HealthboxCountdown))
                       else old(Now())
    {
      var ready := false;
      if !cfg.double || (cfg.double && cfg.multi) {
        if inp.healthboxCallbackDummy {
          ready := true;
        }
      } else if inp.healthboxCallbackDummy && inp.flankHealthboxCallbackDummy {
        ready := true;
      }
      if inp.cryPlaying {
        ready := false;
      }
      if ready {
        battlers := battlers[b := battlers[b].(field9 := 3, func := HealthboxCountdown)];
      }
    }

    /**
     * sub_81BB02C: once no ball animation runs for the battler or its flank
     * and both the ball's and the battler's sprites are idle, `field_9` is
     * incremented; from the second such tick on it resets and the battler
     * waits for the health boxes.
     */
    method PollSendOut(b: nat, inp: Inputs)
      requires Valid() && b < MAX_BATTLERS
      modifies this
      ensures Valid()
      ensures var settled := !inp.ballAnimActive && !inp.flankBallAnimActive
                             && inp.ballSpriteCallbackDummy && inp.spriteCallbackDummy;
              var n := U8(old(battlers[b].field9) + 1);
              Now() == if !settled then old(Now())
                       else if n == 1 then SetBattler(old(Now()), b, old(battlers[b]).(field9 := n))
                       else SetBattler(old(Now()), b, old(battlers[b]).(field9 := 0, func := WaitHealthboxes))
                              .(shared := old(shared).(field9x1 := false))
    {
      if !inp.ballAnimActive && !inp.flankBallAnimActive && inp.ballSpriteCallbackDummy && inp.spriteCallbackDummy {
        var n := U8(battlers[b].field9 + 1);
        if n == 1 {
          battlers := battlers[b := battlers[b].(field9 := n)];
        } else {
          battlers := battlers[b := battlers[b].(field9 := 0, func := WaitHealthboxes)];
          shared := shared.(field9x1 := false);
        }
      }
    }

    /** DoHitAnimBlinkSpriteEffect: one tick of the blink; on completion the battle animation flag is cleared. */
    method PollBlink(b: nat)
      requires Valid() && b < MAX_BATTLERS
      modifies this
      ensures Valid()
      ensures var bl := BlinkStep(old(battlers[b].spriteCounter), old(battlers[b].invisible));
              var s := SetBattler(old(Now()), b, old(battlers[b]).(spriteCounter := bl.counter, invisible := bl.invisible));
              Now() == if bl.completes then Completed(s.(shared := s.shared.(doingBattleAnim := false)), b, cfg.link) else s
    {
      var bl := BlinkStep(battlers[b].spriteCounter, battlers[b].invisible);
      battlers := battlers[b := battlers[b].(spriteCounter := bl.counter, invisible := bl.invisible)];
      if bl.completes {
        shared := shared.(doingBattleAnim := false);
        ExecCompleted(b);
      }
    }

    /** DoSwitchOutAnimation: one tick; on handing over the battler waits for the switch-out animation. */
    method PollSwitchOut(b: nat, inp: Inputs)
      requires Valid() && b < MAX_BATTLERS && battlers[b].func == DoSwitchOut
      modifies this
      ensures Valid()
      ensures var r := SwitchOutStep(old(battlers[b].animationState), inp.specialAnimActive);
              Now() == SetBattler(old(Now()), b, old(battlers[b]).(animationState := r.state,
                                                                  func := if r.handsOver then WaitSwitchOut else DoSwitchOut))
    {
      var r := SwitchOutStep(battlers[b].animationState, inp.specialAnimActive);
      battlers := battlers[b := battlers[b].(animationState := r.state, func := if r.handsOver then WaitSwitchOut else DoSwitchOut)];
    }

    /** PlayerPartnerDoMoveAnimation: one tick, with the number of hits from `bufferA[11]`. */
    method PollMoveAnim(b: nat, inp: Inputs)
      requires Valid() && b < MAX_BATTLERS
      modifies this
      ensures Valid()
      ensures var bt := old(battlers[b]);
              var r := MoveAnimStep(bt.animationState, bt.behindSubstitute, bt.flagX8, old(bufferA[b][11]) as int,
                                    inp.specialAnimActive, inp.animScriptActive);
              var s := SetBattler(old(Now()), b, bt.(animationState := r.state, flagX8 := r.flagX8));
              Now() == if r.completes then Completed(s, b, cfg.link) else s
    {
      var bt := battlers[b];
      var r := MoveAnimStep(bt.animationState, bt.behindSubstitute, bt.flagX8, bufferA[b][11] as int,
                            inp.specialAnimActive, inp.animScriptActive);
      battlers := battlers[b := bt.(animationState := r.state, flagX8 := r.flagX8)];
      if r.completes {
        ExecCompleted(b);
      }
    }

    /** sub_81BE498: one tick of the party-summary countdown. */
    method PollSummary(b: nat)
      requires Valid() && b < MAX_BATTLERS
      modifies this
      ensures Valid()
      ensures var r := SummaryStep(old(battlers[b].field5));
              var s := SetBattler(old(Now()), b, old(battlers[b]).(field5 := r.counter));
              Now() == if r.completes then Completed(s, b, cfg.link) else s
    {
      var r := SummaryStep(battlers[b].field5);
      battlers := battlers[b := battlers[b].(field5 := r.counter)];
      if r.completes {
        ExecCompleted(b);
      }
    }

    // -------------------------------------------------------------------
    // The experience task and the intro task.
    // -------------------------------------------------------------------

    /** The rule Task_GiveExpToMon and sub_81BB4E4 share, applied to experience task `id`. */
    method GiveExpNow(id: nat, narrow: bool, afterLevelUp: ExpPhase)
      requires Valid() && id in tasks && tasks[id].ExpTask?
      modifies this
      ensures Valid() && Now() == ExpGiven(old(Now()), id, cfg, narrow, afterLevelUp)
      ensures execFlags == old(execFlags) && OthersKept(old(tasks), tasks, id)
    {
      var s := State(execFlags, bufferA, battlers, shared, party, partyBytes, tasks, emitted);
      ExpGivenValid(s, id, cfg, narrow, afterLevelUp);
      var r := ExpGiven(s, id, cfg, narrow, afterLevelUp);
      battlers, party, tasks, emitted := r.battlers, r.party, r.tasks, r.emitted;
    }

    /**
     * Task_GiveExpToMon: the Pokémon on the field of a single battle gets its
     * experience through the bar; any other is given it at once, and a
     * level-up of a Pokémon on the field of a double battle is then shown.
     */
    method ExpGiveToMon(id: nat)
      requires Valid() && id in tasks && tasks[id].ExpTask?
      modifies this
      ensures Valid()
      ensures execFlags == old(execFlags) && OthersKept(old(tasks), tasks, id)
      ensures var s := old(Now());
              var t := s.tasks[id];
              Now() == if !cfg.double && t.monId == s.battlers[t.bank].partyIndex
                       then s.(tasks := s.tasks[id := t.(phase := PrepareWithBar)])
                       else ExpGiven(s, id, cfg, false,
                                     if cfg.double && (t.monId == s.battlers[t.bank].partyIndex
                                                       || t.monId == s.battlers[Flank(t.bank)].partyIndex)
                                     then LaunchLevelUpAnim else DestroyAndComplete)
    {
      var t := tasks[id];
      if cfg.double || t.monId != battlers[t.bank].partyIndex {
        var shown := cfg.double && (t.monId == battlers[t.bank].partyIndex || t.monId == battlers[Flank(t.bank)].partyIndex);
        GiveExpNow(id, false, if shown then LaunchLevelUpAnim else DestroyAndComplete);
      } else {
        tasks := tasks[id := t.(phase := PrepareWithBar)];
      }
    }

    /** Task_PrepareToGiveExpWithExpBar: the bar is set up and the task moves on to fill it. */
    method ExpPrepare(id: nat)
      requires Valid() && id in tasks && tasks[id].ExpTask?
      modifies this
      ensures Valid() && Now() == old(Now()).(tasks := old(tasks)[id := old(tasks[id]).(phase := FillBar)])
    {
      tasks := tasks[id := tasks[id].(phase := FillBar)];
    }

    /**
     * sub_81BB4E4: the task waits 13 ticks, then until the bar is full, and
     * then gives the experience, always showing a level-up and sending the
     * rest of the gain back as a `u16`.
     */
    method ExpFillBar(id: nat, tin: TaskInputs)
      requires Valid() && id in tasks && tasks[id].ExpTask?
      modifies this
      ensures Valid()
      ensures execFlags == old(execFlags) && OthersKept(old(tasks), tasks, id)
      ensures var s := old(Now());
              var t := s.tasks[id];
              Now() == if t.frames < 13 then s.(tasks := s.tasks[id := t.(frames := t.frames + 1)])
                       else if tin.expBarDone then ExpGiven(s, id, cfg, true, LaunchLevelUpAnim)
                       else s
    {
      var t := tasks[id];
      if t.frames < 13 {
        tasks := tasks[id := t.(frames := t.frames + 1)];
      } else if tin.expBarDone {
        GiveExpNow(id, true, LaunchLevelUpAnim);
      }
    }

    /** sub_81BB628: the level-up animation is launched and the task waits for it. */
    method ExpLaunchLevelUp(id: nat)
      requires Valid() && id in tasks && tasks[id].ExpTask?
      modifies this
      ensures Valid() && Now() == old(Now()).(tasks := old(tasks)[id := old(tasks[id]).(phase := WaitLevelUpAnim)])
    {
      tasks := tasks[id := tasks[id].(phase := WaitLevelUpAnim)];
    }

    /** sub_81BB688: once the task's battler runs no special animation, the task moves on to end. */
    method ExpWaitLevelUp(id: nat, tin: TaskInputs)
      requires Valid() && id in tasks && tasks[id].ExpTask?
      modifies this
      ensures Valid()
      ensures var t := old(tasks[id]);
              Now() == if tin.specialAnimActive(t.bank) then old(Now())
                       else old(Now()).(tasks := old(tasks)[id := t.(phase := DestroyAndComplete)])
    {
      var t := tasks[id];
      if !tin.specialAnimActive(t.bank) {
        tasks := tasks[id := t.(phase := DestroyAndComplete)];
      }
    }

    /** DestroyExpTaskAndCompleteOnInactiveTextPrinter: the task ends and its battler waits for the text printer. */
    method ExpDestroy(id: nat)
      requires Valid() && id in tasks && tasks[id].ExpTask?
      modifies this
      ensures Valid()
      ensures var s := old(Now());
              var bank := s.tasks[id].bank;
              Now() == SetBattler(s, bank, s.battlers[bank].(func := WaitText)).(tasks := s.tasks - {id})
    {
      var bank := tasks[id].bank;
      battlers := battlers[bank := battlers[bank].(func := WaitText)];
      tasks := tasks - {id};
    }

    /**
     * sub_81BE2C8: after 24 ticks the battler, and in a double battle that is
     * not a multi battle its flank too, is sent out, the battler waits for
     * the send-out, and the task ends.
     */
    method IntroTick(id: nat)
      requires Valid() && id in tasks && tasks[id].IntroTask?
      modifies this
      ensures Valid()
      ensures var s := old(Now());
              var t := s.tasks[id];
              var s1 := IntroSendOut(s, t.battler);
              var s2 := if cfg.double && !cfg.multi then IntroSendOut(s1, Flank(t.battler)) else s1;
              Now() == if t.counter < 24 then s.(tasks := s.tasks[id := t.(counter := t.counter + 1)])
                       else SetBattler(s2, t.battler, s2.battlers[t.battler].(func := WaitSendOut)).(tasks := s.tasks - {id})
    {
      var t := tasks[id];
      if t.counter < 24 {
        tasks := tasks[id := t.(counter := t.counter + 1)];
      } else {
        IntroSendAll(id);
      }
    }

    /** The end of sub_81BE2C8's task: the send-outs, the wait for them, and the task's removal. */
    method IntroSendAll(id: nat)
      requires Valid() && id in tasks && tasks[id].IntroTask?
      modifies this
      ensures Valid()
      ensures var s := old(Now());
              var t := s.tasks[id];
              var s1 := IntroSendOut(s, t.battler);
              var s2 := if cfg.double && !cfg.multi then IntroSendOut(s1, Flank(t.battler)) else s1;
              Now() == SetBattler(s2, t.battler, s2.battlers[t.battler].(func := WaitSendOut)).(tasks := s.tasks - {id})
    {
      var t := tasks[id];
      SendOut(t.battler);
      if cfg.double && !cfg.multi {
        SendOut(Flank(t.battler));
      }
      battlers := battlers[t.battler := battlers[t.battler].(func := WaitSendOut)];
      tasks := tasks - {id};
    }

    /** One send-out of sub_81BE2C8. */
    method SendOut(i: nat)
      requires Valid() && i < MAX_BATTLERS
      modifies this
      ensures Valid() && Now() == IntroSendOut(old(Now()), i)
      ensures !battlers[i].behindSubstitute && battlers[i].partyIndex == U8(old(battlers[i].partyIndex))
    {
      var index := U8(battlers[i].partyIndex);
      bufferA := bufferA[i := bufferA[i][1 := index as bv8]];
      battlers := battlers[i := SentOut(battlers[i], index, false)];
    }

    /**
     * One tick of task `id`: it runs its current function. A task changes
     * no other task, creates none, and never touches the exec flags.
     */
    method RunTask(id: nat, tin: TaskInputs)
      requires Valid() && id in tasks
      modifies this
      ensures Valid() && execFlags == old(execFlags) && OthersKept(old(tasks), tasks, id)
    {
      if tasks[id].ExpTask? {
        RunExpTask(id, tin);
      } else {
        IntroTick(id);
      }
    }

    /** One tick of experience task `id`. */
    method RunExpTask(id: nat, tin: TaskInputs)
      requires Valid() && id in tasks && tasks[id].ExpTask?
      modifies this
      ensures Valid() && execFlags == old(execFlags) && OthersKept(old(tasks), tasks, id)
    {
      match tasks[id].phase {
        case GiveToMon => ExpGiveToMon(id);
        case PrepareWithBar => ExpPrepare(id);
        case FillBar => ExpFillBar(id, tin);
        case LaunchLevelUpAnim => ExpLaunchLevelUp(id);
        case WaitLevelUpAnim => ExpWaitLevelUp(id, tin);
        case DestroyAndComplete => ExpDestroy(id);
      }
    }

    // -------------------------------------------------------------------
    // Dispatch and the per-tick controller function.
    // -------------------------------------------------------------------

    /**
     * Runs handler `h` for battler `b` and records it. The terminator does
     * nothing; the handlers that only start something install their polling
     * function; the rest of those without a method of their own complete.
     */
    method Dispatch(b: nat, h: Handler, inp: Inputs, taskId: nat)
      requires Valid() && b < MAX_BATTLERS && inp.Valid() && !(taskId in tasks)
      modifies this
      ensures Valid() && trace == old(trace) + [h]
      ensures KindOf(h) == DoesNothing ==> Now() == old(Now())
      ensures KindOf(h) == Completes ==> Now() == Completed(old(Now()), b, cfg.link)
      ensures KindOf(h).Installs? ==> Now() == SetBattler(old(Now()), b, old(battlers[b]).(func := KindOf(h).f))
    {
      ghost var before := trace;
      match KindOf(h) {
        case Completes => ExecCompleted(b);
        case Installs(f) => Install(b, f);
        case OwnMethod => RunHandler(b, h, inp, taskId);
        case DoesNothing =>
      }
      trace := before + [h];
    }

    /**
     * The handlers with a method of their own, in three groups by what they
     * act on: Pokémon data and the AI's choices, shared flags and status
     * displays, and animations and the tasks that start them.
     */
    method RunHandler(b: nat, h: Handler, inp: Inputs, taskId: nat)
      requires Valid() && b < MAX_BATTLERS && inp.Valid() && !(taskId in tasks)
      modifies this
      ensures Valid()
    {
      if h.GetMonData? || h.SetMonData? || h.SetRawMonData? || h.ChooseMove? || h.ChoosePokemon? || h.Cmd55? {
        RunDataHandler(b, h, inp);
      } else if h.Cmd37? || h.Cmd38? || h.Cmd39? || h.Cmd40? || h.IntroSlide? || h.StatusIconUpdate? || h.StatusAnimation?
                || h.SpriteInvisibility? || h.DrawPartyStatusSummary? {
        RunFlagHandler(b, h, inp);
      } else {
        RunAnimationHandler(b, h, inp, taskId);
      }
    }

    /** The handlers that exchange Pokémon data or choices with the engine, and the end of the battle. */
    method RunDataHandler(b: nat, h: Handler, inp: Inputs)
      requires Valid() && b < MAX_BATTLERS && inp.Valid()
      modifies this
      ensures Valid()
    {
      if h.GetMonData? {
        HandleGetMonData(b);
      } else if h.SetMonData? {
        HandleSetMonData(b);
      } else if h.SetRawMonData? {
        HandleSetRawMonData(b);
      } else if h.ChooseMove? {
        HandleChooseMove(b, inp);
      } else if h.ChoosePokemon? {
        var _ := HandleChoosePokemon(b, inp);
      } else if h.Cmd55? {
        HandleCmd55(b);
      }
    }

    /** The handlers that set a shared flag, a status display, the sprite's visibility or the party summary. */
    method RunFlagHandler(b: nat, h: Handler, inp: Inputs)
      requires Valid() && b < MAX_BATTLERS && inp.Valid()
      modifies this
      ensures Valid()
    {
      if h.Cmd37? || h.Cmd38? || h.Cmd39? || h.Cmd40? || h.IntroSlide? {
        HandleSharedFlag(b, h);
      } else if h.StatusIconUpdate? || h.StatusAnimation? {
        HandleStatusUpdate(b, inp);
      } else if h.SpriteInvisibility? {
        HandleSpriteInvisibility(b, inp);
      } else if h.DrawPartyStatusSummary? {
        HandleDrawPartyStatusSummary(b, inp);
      }
    }

    /** The handlers that start an animation or a task. */
    method RunAnimationHandler(b: nat, h: Handler, inp: Inputs, taskId: nat)
      requires Valid() && b < MAX_BATTLERS && inp.Valid() && !(taskId in tasks)
      modifies this
      ensures Valid()
    {
      if h.SwitchInAnim? {
        HandleSwitchInAnim(b);
      } else if h.ReturnMonToBall? {
        HandleReturnMonToBall(b);
      } else if h.FaintAnimation? {
        HandleFaintAnimation(b, inp);
      } else if h.MoveAnimation? {
        HandleMoveAnimation(b, inp);
      } else if h.HitAnimation? {
        HandleHitAnimation(b);
      } else if h.BattleAnimation? {
        HandleBattleAnimation(b, inp);
      } else if h.ExpUpdate? {
        HandleExpUpdate(b, taskId);
      } else if h.IntroTrainerBallThrow? {
        HandleIntroTrainerBallThrow(b, taskId);
      }
    }

    /**
     * PlayerPartnerBufferRunCommand: with its exec bit set, the battler runs
     * the handler of the opcode in `bufferA[0]`, and an opcode past the table
     * completes the command; with the bit clear nothing happens.
     */
    method BufferRunCommand(b: nat, inp: Inputs, taskId: nat)
      requires Valid() && b < MAX_BATTLERS && inp.Valid() && !(taskId in tasks)
      modifies this
      ensures Valid()
      ensures !HasBit(old(execFlags), b as bv5) ==> Now() == old(Now()) && trace == old(trace)
      ensures HasBit(old(execFlags), b as bv5) && old(bufferA[b][0]) as nat >= CONTROLLER_CMDS_COUNT
              ==> Now() == Completed(old(Now()), b, cfg.link) && trace == old(trace)
      ensures HasBit(old(execFlags), b as bv5) && (old(bufferA[b][0]) as nat) < CONTROLLER_CMDS_COUNT
              ==> trace == old(trace) + [HandlerOf(old(bufferA[b][0]) as nat)]
      ensures HasBit(old(execFlags), b as bv5) && old(bufferA[b][0]) == CONTROLLER_TERMINATOR_NOP ==> Now() == old(Now())
    {
      if HasBit(execFlags, b as bv5) {
        var op := bufferA[b][0] as nat;
        if op < CONTROLLER_CMDS_COUNT {
          assert op == CONTROLLER_TERMINATOR_NOP as nat ==> KindOf(HandlerOf(op)) == DoesNothing;
          Dispatch(b, HandlerOf(op), inp, taskId);
        } else {
          ExecCompleted(b);
        }
      }
    }

    /**
     * One tick of battler `b`: its controller function runs. The waits
     * complete once their guard holds; the functions that wait for a task or
     * for the battle to close do nothing.
     */
    method Step(b: nat, inp: Inputs, taskId: nat)
      requires Valid() && b < MAX_BATTLERS && inp.Valid() && !(taskId in tasks)
      modifies this
      ensures Valid()
      ensures var f := old(battlers[b].func);
              WaitOver(f, inp).Some? ==> Now() == if WaitOver(f, inp).value then Completed(old(Now()), b, cfg.link) else old(Now())
      ensures old(battlers[b].func) in {WaitExpTask, WaitIntroTask, AfterBattle} ==> Now() == old(Now())
    {
      var f := battlers[b].func;
      if WaitOver(f, inp).Some? {
        CompleteWhen(b, WaitOver(f, inp).value);
      } else {
        match f {
          case RunCommand => BufferRunCommand(b, inp, taskId);
          case HealthboxCountdown => PollHealthboxCountdown(b);
          case WaitHealthboxes => PollHealthboxes(b, inp);
          case WaitSendOut => PollSendOut(b, inp);
          case HitBlink => PollBlink(b);
          case SwitchInHealthbox => InstallWhen(b, inp.healthboxCallbackDummy, SwitchInSubstitute);
          case SwitchInShiny => InstallWhen(b, inp.finishedShinyMonAnim, SwitchInHealthbox);
          case SwitchInBall => InstallWhen(b, inp.ballSpriteCallbackDummy && !inp.ballAnimActive, SwitchInShiny);
          case DoSwitchOut => PollSwitchOut(b, inp);
          case DoMoveAnim => PollMoveAnim(b, inp);
          case SummaryCountdown => PollSummary(b);
          case _ =>
        }
      }
    }
  }
}
