/** `src/components/room-dialog.tsx`: the add/edit room form. The room
    name is one letter followed by digits; it fixes the block and the room
    number. The form holds a `Partial<Room>`, whose numeric fields are what
    `Number(...)` gave the inputs (left abstract: the model receives the
    numbers). */
module RoomDialog {
  import opened Wrappers
  import opened Seqs
  import opened Text
  import opened Types

  const NameRequired: string := "Phải có tên phòng"
  const NameMalformed: string := "Tên phòng phải là một chữ cái theo sau là số (ví dụ: A1, b2)"
  const NameTaken: string := "Phòng này đã tồn tại"

  /** `defaultNewRoom`. */
  const DefaultNewRoom: RoomPatch :=
    RoomPatch(Some(""), Some(""), Some(1), Some(0.0), Some(0), Some(0), Some(0), Some(0), None)

  datatype ParsedName = ParsedName(blockNumber: string, roomNumber: nat)

  /** `parseRoomName`: the trimmed name must match `^([a-zA-Z])(\d+)$`. */
  function ParseRoomName(name: string): Option<ParsedName> {
    var t := Trim(name);
    if |t| >= 2 && IsLetter(t[0]) && AllDigits(t[1..]) then Some(ParsedName([UpperChar(t[0])], Value(t[1..])))
    else None
  }

  /** A letter and at least one digit at positions `i .. j-1`, with only
      white space around them. */
  ghost predicate RoomNameAt(s: string, i: nat, j: nat) {
    && i + 2 <= j <= |s|
    && AllSpace(s[..i]) && AllSpace(s[j..])
    && IsLetter(s[i]) && AllDigits(s[i + 1..j])
  }

  /** A name that parses is a padded letter-and-digits string. */
  lemma ParsedIsRoomName(s: string)
    requires ParseRoomName(s).Some?
    ensures exists i: nat, j: nat :: RoomNameAt(s, i, j)
  {
    var t := Trim(s);
    var i, j := TrimIsSlice(s);
    assert s[i + 1..j] == t[1..];
    assert RoomNameAt(s, i, j);
  }

  /** A padded letter-and-digits string parses to the upper-cased letter
      and the value of the digits. */
  lemma RoomNameParses(s: string, i: nat, j: nat)
    requires RoomNameAt(s, i, j)
    ensures ParseRoomName(s) == Some(ParsedName([UpperChar(s[i])], Value(s[i + 1..j])))
  {
    var core := s[i..j];
    assert core[1..] == s[i + 1..j];
    assert IsDigit(core[|core| - 1]) by {
      assert core[|core| - 1] == s[i + 1..j][j - i - 2];
    }
    assert s == s[..i] + core + s[j..];
    TrimPadded(s[..i], core, s[j..]);
  }

  /** The names accepted are exactly the padded letter-and-digits strings. */
  lemma ParseRoomNameAccepts(s: string)
    ensures ParseRoomName(s).Some? <==> exists i: nat, j: nat :: RoomNameAt(s, i, j)
  {
    if ParseRoomName(s).Some? {
      ParsedIsRoomName(s);
    }
    if exists i: nat, j: nat :: RoomNameAt(s, i, j) {
      var i: nat, j: nat :| RoomNameAt(s, i, j);
      RoomNameParses(s, i, j);
    }
  }

  /** Leading zeros vanish: "A01" is room 1 of block A. */
  lemma LeadingZerosVanish()
    ensures ParseRoomName("a01") == Some(ParsedName("A", 1))
  {
    assert RoomNameAt("a01", 0, 3);
    RoomNameParses("a01", 0, 3);
    assert "a01"[1..3] == "01";
    assert Value("01") == 10 * Value("0") + 1 by {
      assert "01"[..1] == "0";
    }
    assert Value("0") == 0 by {
      assert "0"[..0] == [];
    }
  }

  /** Upper-casing leaves digit strings alone and makes no new digits. */
  lemma UpperDigits(s: string)
    ensures AllDigits(Upper(s)) <==> AllDigits(s)
    ensures AllDigits(s) ==> Upper(s) == s
  {
    assert forall k :: 0 <= k < |s| ==> (IsDigit(Upper(s)[k]) <==> IsDigit(s[k]));
  }

  /** Parsing ignores letter case. */
  lemma ParseIgnoresCase(s: string)
    ensures ParseRoomName(Upper(s)) == ParseRoomName(s)
  {
    TrimUpper(s);
    var t := Trim(s);
    var u := Upper(t);
    if |t| >= 2 {
      assert u[1..] == Upper(t[1..]);
      UpperDigits(t[1..]);
      assert IsLetter(u[0]) <==> IsLetter(t[0]);
      assert UpperChar(u[0]) == UpperChar(t[0]);
    }
  }

  /** A letter followed by digits, with nothing around them. */
  lemma ParseLetterDigits(letter: char, d: string)
    requires IsLetter(letter) && |d| >= 1 && AllDigits(d)
    ensures ParseRoomName([letter] + d) == Some(ParsedName([UpperChar(letter)], Value(d)))
  {
    var s := [letter] + d;
    assert IsDigit(s[|s| - 1]) by {
      assert s[|s| - 1] == d[|d| - 1];
    }
    assert [] + s + [] == s;
    TrimPadded([], s, []);
    assert s[1..] == d;
  }

  /** A letter followed by the decimal rendering of `n` parses to the
      upper-cased letter and `n`. */
  lemma ParseRoundTrip(letter: char, n: nat)
    requires IsLetter(letter)
    ensures ParseRoomName([letter] + Digits(n)) == Some(ParsedName([UpperChar(letter)], n))
  {
    ParseLetterDigits(letter, Digits(n));
    ValueOfDigits(n);
  }

  /** The duplicate rule: another room has the same name up to case; in
      edit mode the room being edited does not count. */
  predicate NameTakenBy(rooms: seq<Room>, name: string, editing: Option<Room>) {
    exists i :: 0 <= i < |rooms| && Upper(rooms[i].roomName) == Upper(name)
                && (editing.None? || rooms[i].roomName != editing.value.roomName)
  }

  /** The message `handleRoomNameChange` shows for a typed name. */
  function NameError(value: string, rooms: seq<Room>, editing: Option<Room>): string {
    if Trim(value) == "" then NameRequired
    else if ParseRoomName(value).None? then NameMalformed
    else if NameTakenBy(rooms, Upper(value), editing) then NameTaken
    else ""
  }

  /** The form after typing `value`: the name upper-cased, and block and
      number taken from it when it parses. */
  function TypedName(form: RoomPatch, value: string): (f: RoomPatch)
    ensures f.roomName == Some(Upper(value))
    ensures ParseRoomName(value).Some? ==>
              f.blockNumber == Some(ParseRoomName(value).value.blockNumber)
              && f.roomNumber == Some(ParseRoomName(value).value.roomNumber)
    ensures ParseRoomName(value).None? ==> f == form.(roomName := Some(Upper(value)))
    ensures f.roomPrice == form.roomPrice && f.currentElectric == form.currentElectric
            && f.currentWater == form.currentWater && f.previousElectric == form.previousElectric
            && f.previousWater == form.previousWater && f.updatedAt == form.updatedAt
  {
    var p := ParseRoomName(value);
    if p.Some? then
      form.(roomName := Some(Upper(value)), blockNumber := Some(p.value.blockNumber),
            roomNumber := Some(p.value.roomNumber))
    else form.(roomName := Some(Upper(value)))
  }

  /** A numeric field of the form, as `typeof value === "number"` sees it. */
  function NumericField(form: RoomPatch, k: nat): Option<real>
    requires k < 3
  {
    if k == 0 then form.roomPrice
    else if k == 1 then (if form.currentElectric.Some? then Some(form.currentElectric.value as real) else None)
    else (if form.currentWater.Some? then Some(form.currentWater.value as real) else None)
  }

  /** `field.replace(/([A-Z])/g, ' $1').toLowerCase()` of the three names. */
  const NumericNames: seq<string> := ["room price", "current electric", "current water"]

  function NumberAlert(k: nat): string
    requires k < 3
  {
    NumericNames[k] + " phải là một số dương"
  }

  predicate NumberOk(form: RoomPatch, k: nat)
    requires k < 3
  {
    NumericField(form, k).Some? && NumericField(form, k).value >= 0.0
  }

  datatype Outcome =
    | RejectName(message: string)
    | RejectNumber(alert: string)
    | Save(room: RoomPatch)

  /** `updatedData`: block and number from the name; new rooms start with
      previous readings 0, edited rooms keep theirs. */
  function SavedRoom(form: RoomPatch, parsed: ParsedName, editing: bool, now: string): RoomPatch {
    form.(blockNumber := Some(parsed.blockNumber), roomNumber := Some(parsed.roomNumber),
          previousElectric := if editing then form.previousElectric else Some(0),
          previousWater := if editing then form.previousWater else Some(0),
          updatedAt := Some(now))
  }

  /** What `handleSubmit` decides, check by check. */
  function Submit(form: RoomPatch, rooms: seq<Room>, editing: Option<Room>, now: string): Outcome {
    var name := Pick(form.roomName, "");
    if Trim(name) == "" then RejectName(NameRequired)
    else if ParseRoomName(name).None? then RejectName(NameMalformed)
    else if NameTakenBy(rooms, Upper(name), editing) then RejectName(NameTaken)
    else if !NumberOk(form, 0) then RejectNumber(NumberAlert(0))
    else if !NumberOk(form, 1) then RejectNumber(NumberAlert(1))
    else if !NumberOk(form, 2) then RejectNumber(NumberAlert(2))
    else Save(SavedRoom(form, ParseRoomName(name).value, editing.Some?, now))
  }

  /** A save happens exactly when every check passes, and the saved room's
      name, block and number agree. */
  lemma SubmitSavesIff(form: RoomPatch, rooms: seq<Room>, editing: Option<Room>, now: string)
    ensures var name := Pick(form.roomName, "");
            Submit(form, rooms, editing, now).Save? <==>
              && Trim(name) != "" && ParseRoomName(name).Some?
              && !NameTakenBy(rooms, name, editing)
              && forall k :: 0 <= k < 3 ==> NumberOk(form, k)
    ensures Submit(form, rooms, editing, now).Save? ==>
              var saved := Submit(form, rooms, editing, now).room;
              && ParseRoomName(saved.roomName.value) == Some(ParsedName(saved.blockNumber.value, saved.roomNumber.value))
              && saved.roomPrice.value >= 0.0 && saved.currentElectric.value >= 0 && saved.currentWater.value >= 0
              && (editing.None? ==> saved.previousElectric == Some(0) && saved.previousWater == Some(0))
              && (editing.Some? ==> saved.previousElectric == form.previousElectric
                                    && saved.previousWater == form.previousWater)
  {
    var name := Pick(form.roomName, "");
    UpperIdempotent(name);
    assert NameTakenBy(rooms, Upper(name), editing) == NameTakenBy(rooms, name, editing);
    if Submit(form, rooms, editing, now).Save? {
      assert NumberOk(form, 0) && NumberOk(form, 1) && NumberOk(form, 2);
    }
  }

  /** The name check on typing and the name checks on submit agree: typing
      a name leaves no message exactly when submit passes the name. */
  lemma TypingAgreesWithSubmit(form: RoomPatch, value: string, rooms: seq<Room>, editing: Option<Room>, now: string)
    ensures var f := TypedName(form, value);
            (NameError(value, rooms, editing) == "") <==> !Submit(f, rooms, editing, now).RejectName?
  {
    TrimUpper(value);
    ParseIgnoresCase(value);
    UpperIdempotent(value);
    assert Trim(Upper(value)) == "" <==> Trim(value) == "";
  }

  class Dialog {
    var formData: RoomPatch
    var roomNameError: string
    /** The `room` prop: the room being edited, if any. */
    const editing: Option<Room>

    /** Opening the dialog: the form is the edited room or the blank one. */
    constructor(room: Option<Room>)
      ensures editing == room
      ensures formData == (if room.Some? then FullPatch(room.value) else DefaultNewRoom)
      ensures roomNameError == ""
    {
      editing := room;
      formData := if room.Some? then FullPatch(room.value) else DefaultNewRoom;
      roomNameError := "";
    }

    /** `handleRoomNameChange`. */
    method HandleRoomNameChange(value: string, rooms: seq<Room>)
      modifies this
      ensures roomNameError == NameError(value, rooms, editing)
      ensures formData == TypedName(old(formData), value)
    {
      roomNameError := "";
      var parsed := ParseRoomName(value);
      if Trim(value) == "" {
        roomNameError := NameRequired;
      } else if parsed.None? {
        roomNameError := NameMalformed;
      } else {
        var upperValue := Upper(value);
        var roomExists := false;
        for i := 0 to |rooms|
          invariant roomExists <==> exists k :: 0 <= k < i && Upper(rooms[k].roomName) == upperValue
                                               && (editing.None? || rooms[k].roomName != editing.value.roomName)
        {
          if Upper(rooms[i].roomName) == upperValue && (editing.None? || rooms[i].roomName != editing.value.roomName) {
            roomExists := true;
          }
        }
        UpperIdempotent(value);
        if roomExists {
          roomNameError := NameTaken;
        }
      }
      if parsed.Some? {
        formData := formData.(roomName := Some(Upper(value)), blockNumber := Some(parsed.value.blockNumber),
                              roomNumber := Some(parsed.value.roomNumber));
      } else {
        formData := formData.(roomName := Some(Upper(value)));
      }
    }

    /** `handleSubmit`: the early returns in order, the `for` loop over the
      numeric fields, and the room handed to `onSave`. */
    method HandleSubmit(rooms: seq<Room>, now: string) returns (outcome: Outcome)
      modifies this
      ensures outcome == Submit(old(formData), rooms, editing, now)
      ensures formData == old(formData)
      ensures outcome.RejectName? ==> roomNameError == outcome.message
      ensures !outcome.RejectName? ==> roomNameError == old(roomNameError)
    {
      var name := Pick(formData.roomName, "");
      if Trim(name) == "" {
        roomNameError := NameRequired;
        return RejectName(NameRequired);
      }
      var parsed := ParseRoomName(name);
      if parsed.None? {
        roomNameError := NameMalformed;
        return RejectName(NameMalformed);
      }
      if exists i :: 0 <= i < |rooms| && Upper(rooms[i].roomName) == Upper(name)
                     && (editing.None? || rooms[i].roomName != editing.value.roomName) {
        UpperIdempotent(name);
        roomNameError := NameTaken;
        return RejectName(NameTaken);
      }
      UpperIdempotent(name);
      for k := 0 to 3
        invariant forall m :: 0 <= m < k ==> NumberOk(formData, m)
      {
        var value := NumericField(formData, k);
        if value.None? || value.value < 0.0 {
          return RejectNumber(NumberAlert(k));
        }
      }
      return Save(SavedRoom(formData, parsed.value, editing.Some?, now));
    }
  }
}
