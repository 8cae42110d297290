/**
 * The two structural checks of the building-management server: `validate_save_data`,
 * run on every posted payload, and `validate_json_structure`, run on a version file
 * before it becomes the current document.  Each reports the first check that fails,
 * in a fixed order, or accepts.
 */
module Validation {
  import opened Wrappers
  import opened JsonValues
  import opened PyOps

  /** The `(ok, message)` pair both validators return. */
  datatype Verdict = Valid | Invalid(message: string)

  /** Fields an `/add_project` payload must carry, in the order they are checked. */
  const ProjectFields: seq<string> := ["title", "description", "budget", "priority", "room_name"]
  /** Top-level fields of a version file, in the order they are checked. */
  const DocumentFields: seq<string> := ["project_name", "last_updated", "status", "rooms"]
  /** Fields every room of a version file must carry, in the order they are checked. */
  const RoomFields: seq<string> := ["priority", "budget"]

  /** Outcome of `for field in fields: if field not in data: ...`. */
  datatype FieldCheck = AllPresent | Missing(index: nat) | Raised(index: nat, exc: PyExc)

  /** `field in data` holds, as Python evaluates it. */
  predicate Present(data: Json, field: string) {
    Contains(data, JStr(field)) == Success(true)
  }

  /** The first of `fields[from..]` that `data` does not contain, or the test that raised. */
  function FirstMissingFrom(data: Json, fields: seq<string>, from: nat): (r: FieldCheck)
    requires from <= |fields|
    decreases |fields| - from
    ensures r.AllPresent? <==> forall i :: from <= i < |fields| ==> Present(data, fields[i])
    ensures r.Missing? ==>
      from <= r.index < |fields| && Contains(data, JStr(fields[r.index])) == Success(false) &&
      forall i :: from <= i < r.index ==> Present(data, fields[i])
    ensures r.Raised? ==>
      from <= r.index < |fields| && Contains(data, JStr(fields[r.index])) == Failure(r.exc) &&
      forall i :: from <= i < r.index ==> Present(data, fields[i])
  {
    if from == |fields| then AllPresent
    else
      match Contains(data, JStr(fields[from]))
      case Failure(e) => Raised(from, e)
      case Success(found) => if found then FirstMissingFrom(data, fields, from + 1) else Missing(from)
  }

  /** The first room of `rooms[from..]` whose value is not a dict. */
  function FirstNonDictFrom(rooms: Fields, from: nat): (r: Option<nat>)
    requires from <= |rooms|
    decreases |rooms| - from
    ensures r.None? <==> forall i :: from <= i < |rooms| ==> rooms[i].1.JObject?
    ensures r.Some? ==>
      from <= r.value < |rooms| && !rooms[r.value].1.JObject? &&
      forall i :: from <= i < r.value ==> rooms[i].1.JObject?
  {
    if from == |rooms| then None
    else if !rooms[from].1.JObject? then Some(from)
    else FirstNonDictFrom(rooms, from + 1)
  }

  /** `validate_save_data(data, path)`. */
  function ValidateSaveData(data: Json, path: string): (r: Verdict)
    ensures path == "/save" ==>
      r == if data.JObject? then Valid else Invalid("Building management data must be a dictionary")
    ensures path == "/save_rooms" ==>
      (r.Valid? <==> data.JObject? && forall i :: 0 <= i < |data.fields| ==> data.fields[i].1.JObject?)
    ensures path == "/save_rooms" && !data.JObject? ==> r == Invalid("Room data must be a dictionary")
    ensures path == "/add_project" ==>
      (r.Valid? <==> forall i :: 0 <= i < |ProjectFields| ==> Present(data, ProjectFields[i]))
    ensures path != "/save" && path != "/save_rooms" && path != "/add_project" ==> r == Valid
  {
    if path == "/save" then
      if data.JObject? then Valid else Invalid("Building management data must be a dictionary")
    else if path == "/save_rooms" then
      if !data.JObject? then Invalid("Room data must be a dictionary")
      else
        match FirstNonDictFrom(data.fields, 0)
        case Some(i) => Invalid("Invalid data format for room " + data.fields[i].0)
        case None => Valid
    else if path == "/add_project" then
      match FirstMissingFrom(data, ProjectFields, 0)
      case AllPresent => Valid
      case Missing(i) => Invalid("Missing required field: " + ProjectFields[i])
      case Raised(_, e) => Invalid(e.msg)
    else Valid
  }

  /** A `/save_rooms` payload is rejected naming its first room, in order, that is not a dict. */
  lemma SaveRoomsNamesFirstBadRoom(data: Json, i: nat)
    requires data.JObject? && i < |data.fields|
    requires forall j :: 0 <= j < i ==> data.fields[j].1.JObject?
    requires !data.fields[i].1.JObject?
    ensures ValidateSaveData(data, "/save_rooms") == Invalid("Invalid data format for room " + data.fields[i].0)
  {
    var r := FirstNonDictFrom(data.fields, 0);
    assert r.Some?;
  }

  /** On a dict, `/add_project` validation holds iff all five fields are keys. */
  lemma AddProjectOnDict(data: Json)
    requires data.JObject?
    ensures ValidateSaveData(data, "/add_project").Valid? <==>
            forall f :: f in ProjectFields ==> f in Keys(data.fields)
  {
    assert forall i :: 0 <= i < |ProjectFields| ==>
      (Present(data, ProjectFields[i]) <==> ProjectFields[i] in Keys(data.fields));
  }

  /** On a dict, `/add_project` validation reports the first missing field, in order. */
  lemma AddProjectNamesFirstMissing(data: Json, i: nat)
    requires data.JObject? && i < |ProjectFields|
    requires forall j :: 0 <= j < i ==> ProjectFields[j] in Keys(data.fields)
    requires ProjectFields[i] !in Keys(data.fields)
    ensures ValidateSaveData(data, "/add_project") == Invalid("Missing required field: " + ProjectFields[i])
  {
    var r := FirstMissingFrom(data, ProjectFields, 0);
    assert !r.Raised?;
    assert !r.AllPresent? by { assert !Present(data, ProjectFields[i]); }
  }

  /** The first room of `rooms[from..]` that is not a dict or lacks a room field. */
  datatype RoomCheck = RoomsOk | NotDict(index: nat) | MissingRoomField(index: nat, field: string)

  predicate GoodRoom(room: Json) {
    room.JObject? && forall f :: f in RoomFields ==> f in Keys(room.fields)
  }

  function FirstBadRoomFrom(rooms: Fields, from: nat): (r: RoomCheck)
    requires from <= |rooms|
    decreases |rooms| - from
    ensures r.RoomsOk? <==> forall i :: from <= i < |rooms| ==> GoodRoom(rooms[i].1)
    ensures !r.RoomsOk? ==>
      from <= r.index < |rooms| && !GoodRoom(rooms[r.index].1) &&
      forall i :: from <= i < r.index ==> GoodRoom(rooms[i].1)
    ensures r.NotDict? ==> !rooms[r.index].1.JObject?
    ensures r.MissingRoomField? ==>
      rooms[r.index].1.JObject? && r.field !in Keys(rooms[r.index].1.fields) &&
      (r.field == "priority" || ("priority" in Keys(rooms[r.index].1.fields) && r.field == "budget"))
  {
    if from == |rooms| then RoomsOk
    else
      var room := rooms[from].1;
      if !room.JObject? then NotDict(from)
      else if "priority" !in Keys(room.fields) then MissingRoomField(from, "priority")
      else if "budget" !in Keys(room.fields) then MissingRoomField(from, "budget")
      else FirstBadRoomFrom(rooms, from + 1)
  }

  /** What `validate_json_structure` accepts, stated without its search order. */
  predicate StructureOk(data: Json) {
    && data.JObject?
    && (forall f :: f in DocumentFields ==> f in Keys(data.fields))
    && Lookup(data.fields, "rooms").Some?
    && Lookup(data.fields, "rooms").value.JObject?
    && forall i :: 0 <= i < |Lookup(data.fields, "rooms").value.fields| ==>
         GoodRoom(Lookup(data.fields, "rooms").value.fields[i].1)
  }

  /** `validate_json_structure(data)`.  It accepts exactly the documents `StructureOk` describes. */
  function ValidateJsonStructure(data: Json): (r: Verdict)
    ensures r.Valid? <==> StructureOk(data)
  {
    match FirstMissingFrom(data, DocumentFields, 0)
    case Raised(_, e) => Invalid("Validation error: " + e.msg)
    case Missing(i) => Invalid("Missing required field: " + DocumentFields[i])
    case AllPresent =>
      if !data.JObject? then
        Invalid("Validation error: '" + TypeName(data) + "' object has no attribute 'get'")
      else
        assert forall f :: f in DocumentFields ==> f in Keys(data.fields) by {
          assert forall k :: 0 <= k < |DocumentFields| ==> Present(data, DocumentFields[k]);
        }
        match Lookup(data.fields, "rooms")
        case None => Invalid("Rooms must be a dictionary")
        case Some(rooms) =>
          if !rooms.JObject? then Invalid("Rooms must be a dictionary")
          else
            RoomsVerdict(rooms.fields)
  }

  /** The loop of `validate_json_structure` over the rooms. */
  function RoomsVerdict(rooms: Fields): (r: Verdict)
    ensures r.Valid? <==> forall i :: 0 <= i < |rooms| ==> GoodRoom(rooms[i].1)
  {
    match FirstBadRoomFrom(rooms, 0)
    case RoomsOk => Valid
    case NotDict(i) => Invalid("Invalid room data for " + rooms[i].0)
    case MissingRoomField(i, f) => Invalid("Room " + rooms[i].0 + " missing required field: " + f)
  }

  /** A dict lacking a top-level field is rejected naming the first one missing. */
  lemma StructureNamesFirstMissingField(data: Json, i: nat)
    requires data.JObject? && i < |DocumentFields|
    requires forall j :: 0 <= j < i ==> DocumentFields[j] in Keys(data.fields)
    requires DocumentFields[i] !in Keys(data.fields)
    ensures ValidateJsonStructure(data) == Invalid("Missing required field: " + DocumentFields[i])
  {
    var r := FirstMissingFrom(data, DocumentFields, 0);
    assert !r.Raised?;
    assert !r.AllPresent? by { assert !Present(data, DocumentFields[i]); }
  }

  /** With all top-level fields present, a `rooms` value that is not a dict is rejected. */
  lemma StructureRejectsNonDictRooms(data: Json)
    requires data.JObject? && forall f :: f in DocumentFields ==> f in Keys(data.fields)
    requires !Lookup(data.fields, "rooms").value.JObject?
    ensures ValidateJsonStructure(data) == Invalid("Rooms must be a dictionary")
  {
    assert forall k :: 0 <= k < |DocumentFields| ==> Present(data, DocumentFields[k]);
  }

  /** With the top level in order, the verdict is the one the room loop gives. */
  lemma StructureDefersToRooms(data: Json)
    requires data.JObject? && forall f :: f in DocumentFields ==> f in Keys(data.fields)
    requires Lookup(data.fields, "rooms").value.JObject?
    ensures ValidateJsonStructure(data) == RoomsVerdict(Lookup(data.fields, "rooms").value.fields)
  {
    assert forall k :: 0 <= k < |DocumentFields| ==> Present(data, DocumentFields[k]);
  }

  /**
   * The room loop names the first bad room, in iteration order: as not a dict, or with
   * the first of `priority`, `budget` it lacks.
   */
  lemma RoomsVerdictNamesFirstBadRoom(rooms: Fields, i: nat)
    requires i < |rooms|
    requires forall j :: 0 <= j < i ==> GoodRoom(rooms[j].1)
    requires !GoodRoom(rooms[i].1)
    ensures RoomsVerdict(rooms) ==
      if !rooms[i].1.JObject? then Invalid("Invalid room data for " + rooms[i].0)
      else if "priority" !in Keys(rooms[i].1.fields) then
        Invalid("Room " + rooms[i].0 + " missing required field: priority")
      else Invalid("Room " + rooms[i].0 + " missing required field: budget")
  {
    var r := FirstBadRoomFrom(rooms, 0);
    assert !r.RoomsOk?;
    assert r.index == i by {
      assert !(r.index < i) && !(i < r.index);
    }
    if rooms[i].1.JObject? {
      assert r.MissingRoomField?;
      if "priority" in Keys(rooms[i].1.fields) {
        assert r.field == "budget";
      } else {
        assert r.field == "priority";
      }
    }
  }
}
