/** `src/App.tsx`: the screen the application shows (the room table, or one
    stage of a calculation or of printing) and the handlers that move
    between them and write the results to the stores. */
module App {
  import opened Types
  import RoomsStore
  import CalculationRoomsStore
  import SessionStore

  /** `CalculationMode`; `Off` is the source's `"none"`, the room table. */
  datatype CalculationMode = Off | Preparation | Calculation | Printing

  /** The toolbar's `isCalculating`. */
  predicate IsCalculating(m: CalculationMode) { m == Preparation || m == Calculation }

  /** The toolbar's `isPrinting`. */
  predicate IsPrinting(m: CalculationMode) { m == Printing }

  function PrintButtonText(m: CalculationMode): string {
    if m == Printing then "Exit Printing" else "Print"
  }

  /** The toolbar never shows both modes at once, and the print button
      offers to exit exactly while printing. */
  lemma ToolbarFlags(m: CalculationMode)
    ensures !(IsCalculating(m) && IsPrinting(m))
    ensures PrintButtonText(m) == "Exit Printing" <==> IsPrinting(m)
    ensures m == Off <==> !IsCalculating(m) && !IsPrinting(m)
  {
  }

  /** `handleToggleCalculation`: a calculation in progress is abandoned, the
      table starts one, and while printing the button does nothing. */
  function ToggledCalculation(m: CalculationMode): CalculationMode {
    if IsCalculating(m) then Off else if m == Off then Preparation else m
  }

  /** `handleTogglePrinting`. */
  function ToggledPrinting(m: CalculationMode): CalculationMode {
    if m == Printing then Off else Printing
  }

  /** Toggling twice returns to the table or to printing, but from a
      calculation stage toggling printing twice ends on the table, and
      toggling the calculation twice from a stage starts a new one. */
  lemma ToggleTwice(m: CalculationMode)
    ensures ToggledPrinting(ToggledPrinting(m)) == (if m == Printing then Printing else Off)
    ensures ToggledCalculation(ToggledCalculation(m)) == (if m == Printing then Printing else if m == Off then Off else Preparation)
    ensures ToggledCalculation(m) != m <==> m != Printing
  {
  }

  class App {
    var calculationMode: CalculationMode
    const rooms: RoomsStore.Store
    const calculation: CalculationRoomsStore.Store
    const session: SessionStore.Store

    constructor(rooms: RoomsStore.Store, calculation: CalculationRoomsStore.Store, session: SessionStore.Store)
      ensures calculationMode == Off
      ensures this.rooms == rooms && this.calculation == calculation && this.session == session
    {
      calculationMode := Off;
      this.rooms := rooms;
      this.calculation := calculation;
      this.session := session;
    }

    /** `handlePrint`: the printing stage has produced its files; back to the table. */
    method HandlePrint()
      modifies this
      ensures calculationMode == Off
    {
      calculationMode := Off;
    }

    /** `handlePreparationComplete`: the chosen rooms become the calculation. */
    method HandlePreparationComplete(selectedRooms: seq<Room>)
      modifies this, calculation
      ensures calculation.calculationRooms == CalculationRoomsStore.ConvertAll(selectedRooms)
      ensures calculationMode == Calculation
    {
      calculation.SetCalculationRooms(selectedRooms);
      calculationMode := Calculation;
    }

    /** `handleSaveCalculations`: the rooms store and the session record the
        saved rooms, the calculation is cleared, and the table is shown.
        It reports whether a cloud save follows (a cloud name is set); the
        save itself is the cloud store's. */
    method HandleSaveCalculations(updatedRooms: seq<Room>, cloudName: bool) returns (saveToCloud: bool)
      modifies this, rooms, session, calculation
      ensures rooms.rooms == RoomsStore.UpdatedRooms(old(rooms.rooms), updatedRooms)
      ensures session.calculatedRooms == SessionStore.Merged(old(session.calculatedRooms), updatedRooms)
      ensures saveToCloud == cloudName
      ensures calculationMode == Off && calculation.calculationRooms == []
    {
      rooms.UpdateRooms(updatedRooms);
      session.AddCalculatedRooms(updatedRooms);
      saveToCloud := cloudName;
      calculationMode := Off;
      calculation.ClearCalculation();
    }

    method HandleToggleCalculation()
      modifies this, calculation
      ensures calculationMode == ToggledCalculation(old(calculationMode))
      ensures IsCalculating(old(calculationMode)) ==> calculation.calculationRooms == []
      ensures !IsCalculating(old(calculationMode)) ==> calculation.calculationRooms == old(calculation.calculationRooms)
    {
      if calculationMode == Preparation || calculationMode == Calculation {
        calculationMode := Off;
        calculation.ClearCalculation();
      } else if calculationMode == Off {
        calculationMode := Preparation;
      }
    }

    method HandleTogglePrinting()
      modifies this
      ensures calculationMode == ToggledPrinting(old(calculationMode))
    {
      calculationMode := if calculationMode == Printing then Off else Printing;
    }

    /** The calculation stage's `onCancel`: the table, and the calculation cleared. */
    method CancelCalculation()
      modifies this, calculation
      ensures calculationMode == Off && calculation.calculationRooms == []
    {
      calculationMode := Off;
      calculation.ClearCalculation();
    }

    /** The preparation and printing stages' `onCancel`. */
    method CancelStage()
      modifies this
      ensures calculationMode == Off
    {
      calculationMode := Off;
    }
  }
}
