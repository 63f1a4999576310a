/**
 * The encoder mode controller (`ModeControl`): a state machine over
 * encoder events that answers every event with a command for the
 * sequencer and its argument.
 *
 * The encoder driver is not modelled: the event that `getEvent` reports
 * is a parameter of `Update`.
 */
module ModeCtrl {
  import opened Bits

  /** Number of pattern slots the encoder can select. */
  const NUM_BANKS: int := 8

  datatype Mode = Performance | ChangeLength | PatternSave | PatternLoad | Cancel

  datatype Command = Step | Load | Save | Length | ChangeMode | Leds | NoCmd

  datatype ModeCommand = ModeCommand(cmd: Command, val: int)

  /** The encoder's events; `None` stands for every value outside the named ones. */
  datatype Event = Click | DblClick | Hold | Right | Left | ClickHold | ShiftLeft | ShiftRight | Press | None

  /** The controller's fields. */
  datatype Panel = Panel(mode: Mode, loadSlot: int, saveSlot: int)

  const NO_COMMAND: ModeCommand := ModeCommand(NoCmd, 0)

  /** Both slots select one of the banks. */
  predicate SlotsValid(p: Panel)
  {
    0 <= p.loadSlot < NUM_BANKS && 0 <= p.saveSlot < NUM_BANKS
  }

  /** `++slot; slot %= NUM_BANKS` on an int8 slot. */
  function SlotUp(s: int): int
  {
    TRem(s + 1, NUM_BANKS)
  }

  /** `--slot; if (slot < 0) slot += NUM_BANKS` on an int8 slot. */
  function SlotDown(s: int): int
  {
    if s - 1 < 0 then s - 1 + NUM_BANKS else s - 1
  }

  /** Moving a valid slot up or down keeps it valid, and the two moves undo each other. */
  lemma SlotMoves(s: int)
    requires 0 <= s < NUM_BANKS
    ensures 0 <= SlotUp(s) < NUM_BANKS && 0 <= SlotDown(s) < NUM_BANKS
    ensures SlotDown(SlotUp(s)) == s && SlotUp(SlotDown(s)) == s
    ensures SlotUp(s) == (s + 1) % NUM_BANKS && SlotDown(s) == (s - 1) % NUM_BANKS
  {
    TRemBounds(s + 1, NUM_BANKS);
    if s < NUM_BANKS - 1 {
      DivModUnique(s + 1, NUM_BANKS, 0, s + 1);
    } else {
      DivModUnique(s + 1, NUM_BANKS, 1, 0);
    }
    DivModUnique(SlotDown(s) + 1, NUM_BANKS, if SlotDown(s) + 1 == NUM_BANKS then 1 else 0,
                 if SlotDown(s) + 1 == NUM_BANKS then 0 else SlotDown(s) + 1);
    DivModUnique(s - 1, NUM_BANKS, if s == 0 then -1 else 0, SlotDown(s));
  }

  /**
   * What one call of `update` does: leaves CANCEL for PERFORMANCE
   * without looking at the event, and otherwise hands the event to its
   * handler.
   */
  function Next(p: Panel, e: Event): (Panel, ModeCommand)
  {
    if p.mode == Cancel then (p.(mode := Performance), ModeCommand(Leds, 1))
    else match e
      case Click =>
        (match p.mode
          case Performance => (p.(mode := ChangeLength), ModeCommand(ChangeMode, 1))
          case ChangeLength => (p.(mode := Performance), ModeCommand(ChangeMode, 1))
          case _ => (p, NO_COMMAND))
      case DblClick =>
        (match p.mode
          case Performance => (p.(mode := PatternLoad), ModeCommand(ChangeMode, 1))
          case PatternLoad => (p.(mode := Performance), ModeCommand(Load, p.loadSlot))
          case _ => (p, NO_COMMAND))
      case Hold =>
        (match p.mode
          case Performance => (p.(mode := PatternSave), ModeCommand(ChangeMode, 1))
          case PatternSave => (p.(mode := Performance), ModeCommand(Save, p.saveSlot))
          case _ => (p, NO_COMMAND))
      case Right =>
        (match p.mode
          case Performance => (p, ModeCommand(Step, 1))
          case ChangeLength => (p, ModeCommand(Length, 1))
          case PatternLoad => (p.(loadSlot := SlotUp(p.loadSlot)), ModeCommand(Leds, 1))
          case PatternSave => (p.(saveSlot := SlotUp(p.saveSlot)), ModeCommand(Leds, 1))
          case _ => (p, NO_COMMAND))
      case Left =>
        (match p.mode
          case Performance => (p, ModeCommand(Step, -1))
          case ChangeLength => (p, ModeCommand(Length, -1))
          case PatternLoad => (p.(loadSlot := SlotDown(p.loadSlot)), ModeCommand(Leds, 1))
          case PatternSave => (p.(saveSlot := SlotDown(p.saveSlot)), ModeCommand(Leds, 1))
          case _ => (p, NO_COMMAND))
      case _ => (p, NO_COMMAND)
  }

  /** `activeSlot`: the slot being chosen in LOAD or SAVE, -1 in every other mode. */
  function ActiveSlot(p: Panel): int
  {
    match p.mode
    case PatternLoad => p.loadSlot
    case PatternSave => p.saveSlot
    case _ => -1
  }

  /** Every step keeps both slots in range. */
  lemma NextKeepsSlots(p: Panel, e: Event)
    requires SlotsValid(p)
    ensures SlotsValid(Next(p, e).0)
  {
    SlotMoves(p.loadSlot);
    SlotMoves(p.saveSlot);
  }

  /** `click` toggles PERFORMANCE and CHANGE_LENGTH and is ignored elsewhere. */
  lemma ClickToggles(p: Panel)
    requires p.mode != Cancel
    ensures p.mode == Performance ==> Next(p, Click) == (p.(mode := ChangeLength), ModeCommand(ChangeMode, 1))
    ensures p.mode == ChangeLength ==> Next(p, Click) == (p.(mode := Performance), ModeCommand(ChangeMode, 1))
    ensures p.mode in {Performance, ChangeLength} ==> Next(Next(p, Click).0, Click).0 == p
    ensures p.mode !in {Performance, ChangeLength} ==> Next(p, Click) == (p, NO_COMMAND)
  {
  }

  /** A LOAD command is issued only by a double click in LOAD mode, and carries the selected slot. */
  lemma LoadOnlyFromLoadMode(p: Panel, e: Event)
    ensures Next(p, e).1.cmd == Load <==> (p.mode == PatternLoad && e == DblClick)
    ensures Next(p, e).1.cmd == Load ==> Next(p, e).1.val == p.loadSlot && Next(p, e).0.mode == Performance
  {
  }

  /** A SAVE command is issued only by a hold in SAVE mode, and carries the selected slot. */
  lemma SaveOnlyFromSaveMode(p: Panel, e: Event)
    ensures Next(p, e).1.cmd == Save <==> (p.mode == PatternSave && e == Hold)
    ensures Next(p, e).1.cmd == Save ==> Next(p, e).1.val == p.saveSlot && Next(p, e).0.mode == Performance
  {
  }

  /** Turning the encoder never changes the mode; in LOAD or SAVE it moves only that mode's slot. */
  lemma TurnsKeepMode(p: Panel, e: Event)
    requires e == Right || e == Left
    ensures Next(p, e).0.mode == (if p.mode == Cancel then Performance else p.mode)
    ensures p.mode == PatternLoad ==> Next(p, e).0.saveSlot == p.saveSlot
    ensures p.mode == PatternSave ==> Next(p, e).0.loadSlot == p.loadSlot
    ensures p.mode !in {PatternLoad, PatternSave} ==> (Next(p, e).0.loadSlot, Next(p, e).0.saveSlot) == (p.loadSlot, p.saveSlot)
  {
  }

  /** In LOAD or SAVE, a right turn followed by a left turn restores the selection. */
  lemma RightThenLeftRestores(p: Panel)
    requires SlotsValid(p) && p.mode in {PatternLoad, PatternSave}
    ensures Next(Next(p, Right).0, Left).0 == p
  {
    SlotMoves(p.loadSlot);
    SlotMoves(p.saveSlot);
  }

  /** The unused handlers (`clickhold`, `shiftleft`, `shiftright`, `press`) change nothing and command nothing. */
  lemma UnusedEventsIgnored(p: Panel, e: Event)
    requires p.mode != Cancel && e in {ClickHold, ShiftLeft, ShiftRight, Press, None}
    ensures Next(p, e) == (p, NO_COMMAND)
  {
  }

  /**
   * After `cancel`, the next update returns to PERFORMANCE whatever the
   * event, and issues neither a SAVE nor a LOAD.
   */
  lemma CancelReturnsToPerformance(p: Panel, e: Event)
    requires p.mode == Cancel
    ensures Next(p, e) == (p.(mode := Performance), ModeCommand(Leds, 1))
    ensures ActiveSlot(p) == -1
  {
  }

  /** `activeSlot` is a valid slot exactly in LOAD and SAVE. */
  lemma ActiveSlotRange(p: Panel)
    requires SlotsValid(p)
    ensures (ActiveSlot(p) != -1) == (p.mode in {PatternLoad, PatternSave})
    ensures ActiveSlot(p) != -1 ==> 0 <= ActiveSlot(p) < NUM_BANKS
  {
  }

  class ModeControl {
    var currentMode: Mode
    var loadSlot: int
    var saveSlot: int

    function State(): Panel
      reads this
    {
      Panel(currentMode, loadSlot, saveSlot)
    }

    ghost predicate Valid()
      reads this
    {
      SlotsValid(State())
    }

    /**
     * The constructor sets none of the fields; the one controller lives in
     * zero-initialised static storage, so it starts in PERFORMANCE with
     * both slots 0.
     */
    constructor ()
      ensures State() == Panel(Performance, 0, 0) && Valid()
    {
      currentMode := Performance;
      loadSlot := 0;
      saveSlot := 0;
    }

    /** `activeSlot`. */
    function GetActiveSlot(): (s: int)
      reads this
      ensures s == ActiveSlot(State())
      ensures s == -1 || s == loadSlot || s == saveSlot
    {
      ActiveSlot(State())
    }

    /** `cancel`: CANCEL from any mode. */
    method DoCancel()
      modifies this
      ensures State() == old(State()).(mode := Cancel)
    {
      currentMode := Cancel;
    }

    method DoClick() returns (c: ModeCommand)
      requires currentMode != Cancel
      modifies this
      ensures (State(), c) == Next(old(State()), Click)
    {
      match currentMode {
        case Performance =>
          currentMode := ChangeLength;
          return ModeCommand(ChangeMode, 1);
        case ChangeLength =>
          currentMode := Performance;
          return ModeCommand(ChangeMode, 1);
        case _ =>
          return NO_COMMAND;
      }
    }

    method DoDoubleClick() returns (c: ModeCommand)
      requires currentMode != Cancel
      modifies this
      ensures (State(), c) == Next(old(State()), DblClick)
    {
      match currentMode {
        case Performance =>
          currentMode := PatternLoad;
          return ModeCommand(ChangeMode, 1);
        case PatternLoad =>
          currentMode := Performance;
          return ModeCommand(Load, loadSlot);
        case _ =>
          return NO_COMMAND;
      }
    }

    method DoHold() returns (c: ModeCommand)
      requires currentMode != Cancel
      modifies this
      ensures (State(), c) == Next(old(State()), Hold)
    {
      match currentMode {
        case Performance =>
          currentMode := PatternSave;
          return ModeCommand(ChangeMode, 1);
        case PatternSave =>
          currentMode := Performance;
          return ModeCommand(Save, saveSlot);
        case _ =>
          return NO_COMMAND;
      }
    }

    method DoRight() returns (c: ModeCommand)
      requires currentMode != Cancel
      modifies this
      ensures (State(), c) == Next(old(State()), Right)
    {
      match currentMode {
        case Performance =>
          return ModeCommand(Step, 1);
        case ChangeLength =>
          return ModeCommand(Length, 1);
        case PatternLoad =>
          loadSlot := loadSlot + 1;
          loadSlot := TRem(loadSlot, NUM_BANKS);
          return ModeCommand(Leds, 1);
        case PatternSave =>
          saveSlot := saveSlot + 1;
          saveSlot := TRem(saveSlot, NUM_BANKS);
          return ModeCommand(Leds, 1);
        case _ =>
          return NO_COMMAND;
      }
    }

    method DoLeft() returns (c: ModeCommand)
      requires currentMode != Cancel
      modifies this
      ensures (State(), c) == Next(old(State()), Left)
    {
      match currentMode {
        case Performance =>
          return ModeCommand(Step, -1);
        case ChangeLength =>
          return ModeCommand(Length, -1);
        case PatternLoad =>
          loadSlot := loadSlot - 1;
          if loadSlot < 0 {
            loadSlot := loadSlot + NUM_BANKS;
          }
          return ModeCommand(Leds, 1);
        case PatternSave =>
          saveSlot := saveSlot - 1;
          if saveSlot < 0 {
            saveSlot := saveSlot + NUM_BANKS;
          }
          return ModeCommand(Leds, 1);
        case _ =>
          return NO_COMMAND;
      }
    }

    /** `update`: the handler for the event, after leaving CANCEL if the controller is in it. */
    method Update(e: Event) returns (c: ModeCommand)
      requires Valid()
      modifies this
      ensures (State(), c) == Next(old(State()), e)
      ensures Valid()
    {
      NextKeepsSlots(State(), e);
      if currentMode == Cancel {
        currentMode := Performance;
        return ModeCommand(Leds, 1);
      }
      match e {
        case Click => c := DoClick();
        case DblClick => c := DoDoubleClick();
        case Hold => c := DoHold();
        case Right => c := DoRight();
        case Left => c := DoLeft();
        case _ => c := NO_COMMAND;
      }
    }
  }
}
