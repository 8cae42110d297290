/**
 * The rules `do_POST` uses to change the stored renovation document (a JSON object
 * with a `rooms` dictionary): adding a project to a room, merging posted room data
 * into the existing rooms, replacing the building-management section and stamping
 * the document before it is saved.  Each Python statement that mutates `full_data`
 * in place becomes a step that returns the updated document, in the order Python
 * evaluates it (right-hand side first, then the target), so that the first
 * exception raised is the one the model reports.
 */
module DocumentUpdates {
  import opened Wrappers
  import opened JsonValues
  import opened PyOps

  // ---------------------------------------------------------------- add_project

  /** Why adding a project failed: the named room does not exist, or an exception. */
  datatype AddProjectError = RoomNotFound(room: Json) | AddRaised(exc: PyExc)

  function Lift<T>(r: Result<T, PyExc>): Result<T, AddProjectError> {
    match r
    case Success(v) => Success(v)
    case Failure(e) => Failure(AddRaised(e))
  }

  /** The project record appended to a room, its keys in the source's order. */
  function ProjectRecord(title: Json, description: Json, budget: real, priority: Json,
                         createdAt: string): Json
  {
    JObject([("title", title), ("description", description), ("budget", JFloat(budget)),
             ("priority", priority), ("created_at", JStr(createdAt)),
             ("status", JStr("planned")), ("attachments", JArray([]))])
  }

  /** The projects a room already has: its `projects` list, or none. */
  function ExistingProjects(room: Fields): seq<Json> {
    match Lookup(room, "projects")
    case Some(JArray(items)) => items
    case _ => []
  }

  /** A new project starts `planned`, without attachments, with the budget as a float. */
  lemma ProjectRecordIsPlanned(title: Json, description: Json, budget: real, priority: Json, createdAt: string)
    ensures var f := ProjectRecord(title, description, budget, priority, createdAt).fields;
      Lookup(f, "status") == Some(JStr("planned")) && Lookup(f, "attachments") == Some(JArray([])) &&
      Lookup(f, "budget") == Some(JFloat(budget)) && Lookup(f, "title") == Some(title)
  {
    var f := ProjectRecord(title, description, budget, priority, createdAt).fields;
    assert Lookup(f, "status") == Lookup(f[1..], "status") == Lookup(f[2..], "status") ==
           Lookup(f[3..], "status") == Lookup(f[4..], "status") == Lookup(f[5..], "status");
    assert Lookup(f, "attachments") == Lookup(f[1..], "attachments") == Lookup(f[2..], "attachments") ==
           Lookup(f[3..], "attachments") == Lookup(f[4..], "attachments") == Lookup(f[5..], "attachments") ==
           Lookup(f[6..], "attachments");
    assert Lookup(f, "budget") == Lookup(f[1..], "budget") == Lookup(f[2..], "budget");
  }

  /**
   * `if 'projects' not in room: room['projects'] = []`: a dict room afterwards holds a
   * `projects` entry and starts from the projects it already had.
   */
  function EnsureProjects(room: Json): (r: Result<Json, PyExc>)
    ensures room.JObject? ==> r.Success?
    ensures r.Success? && room.JObject? ==>
      r.value.JObject? && "projects" in Keys(r.value.fields) &&
      ExistingProjects(r.value.fields) == ExistingProjects(room.fields) &&
      (Lookup(room.fields, "projects").Some? ==> r.value == room) &&
      forall k :: k != "projects" ==> Lookup(r.value.fields, k) == Lookup(room.fields, k)
    ensures room.JObject? && "projects" !in Keys(room.fields) ==>
      r == Success(JObject(Put(room.fields, "projects", JArray([]))))
  {
    var hasProjects :- Contains(room, JStr("projects"));
    if hasProjects then Success(room) else SetItem(room, "projects", JArray([]))
  }

  /** `room['projects'].append(project)`: the list grows by exactly `project` at the end. */
  function AppendProject(room: Json, project: Json): (r: Result<Json, PyExc>)
    ensures r.Success? ==>
      room.JObject? && Lookup(room.fields, "projects").Some? && Lookup(room.fields, "projects").value.JArray?
    ensures room.JObject? && Lookup(room.fields, "projects").Some? && Lookup(room.fields, "projects").value.JArray? ==>
      r == Success(JObject(Put(room.fields, "projects",
                               JArray(Lookup(room.fields, "projects").value.items + [project]))))
  {
    var projects :- GetItem(room, JStr("projects"));
    var appended :- Append(projects, project);
    SetItem(room, "projects", appended)
  }

  /** The record built from the request, as the dict display in `do_POST` evaluates it. */
  function NewProject(data: Json, createdAt: string, parsers: Parsers): Result<Json, PyExc> {
    var title :- GetItem(data, JStr("title"));
    var description :- GetItem(data, JStr("description"));
    var budgetValue :- GetItem(data, JStr("budget"));
    var budget :- Float(budgetValue, parsers);
    var priority :- GetItem(data, JStr("priority"));
    Success(ProjectRecord(title, description, budget, priority, createdAt))
  }

  /**
   * What adding the project does to the room it goes into: the `projects` list is
   * made first, then the record (built by `NewProject`, which may raise) is appended.
   */
  function AddToRoom(room: Json, record: Result<Json, PyExc>): Result<Json, PyExc> {
    var room1 :- EnsureProjects(room);
    var project :- record;
    AppendProject(room1, project)
  }

  /** A dict room whose `projects`, if any, is a list gets exactly the new record appended. */
  lemma AddToRoomAppends(room: Fields, project: Json)
    requires "projects" in Keys(room) ==> Lookup(room, "projects").value.JArray?
    ensures AddToRoom(JObject(room), Success(project)) ==
      Success(JObject(Put(room, "projects", JArray(ExistingProjects(room) + [project]))))
  {
    var room1 := EnsureProjects(JObject(room)).value;
    assert AddToRoom(JObject(room), Success(project)) == AppendProject(room1, project);
    if "projects" in Keys(room) {
      assert room1 == JObject(room);
    } else {
      AppendToNewProjects(room, project);
    }
  }

  /** A room without `projects` gets the one-element list. */
  lemma AppendToNewProjects(room: Fields, project: Json)
    requires "projects" !in Keys(room)
    ensures AppendProject(EnsureProjects(JObject(room)).value, project) ==
      Success(JObject(Put(room, "projects", JArray([project]))))
  {
    var room1 := Put(room, "projects", JArray([]));
    assert EnsureProjects(JObject(room)) == Success(JObject(room1));
    assert Lookup(room1, "projects") == Some(JArray([]));
    assert [] + [project] == [project];
    PutTwice(room, "projects", JArray([]), JArray([project]));
  }

  /**
   * The `/add_project` update: look the room up by `data['room_name']`, create its
   * `projects` list when missing and append the new record.  `createdAt` is the
   * `datetime.now().isoformat()` text.
   */
  function AddProject(doc: Json, data: Json, createdAt: string, parsers: Parsers): (r: Result<Json, AddProjectError>)
    ensures r.Success? ==> doc.JObject? && r.value.JObject? && Keys(r.value.fields) == Keys(doc.fields)
    ensures r.Success? ==> forall k :: k != "rooms" ==> Lookup(r.value.fields, k) == Lookup(doc.fields, k)
  {
    match LocateRoom(doc, data)
    case Failure(e) => Failure(e)
    case Success(found) =>
      match AddToRoom(found.room, NewProject(data, createdAt, parsers))
      case Failure(e) => Failure(AddRaised(e))
      case Success(room2) => Success(JObject(Put(doc.fields, "rooms", Replace(found.rooms, found.name, room2))))
  }

  /** The `rooms` dict, the requested room name and that room, once the name is known. */
  datatype FoundRoom = FoundRoom(rooms: Json, name: Json, room: Json)

  /** `room_name = data['room_name']` and `if room_name not in full_data['rooms']`. */
  function LocateRoom(doc: Json, data: Json): (r: Result<FoundRoom, AddProjectError>)
    ensures r.Success? ==> doc.JObject? && Lookup(doc.fields, "rooms") == Some(r.value.rooms)
    ensures r.Success? ==> data.JObject? && Lookup(data.fields, "room_name") == Some(r.value.name)
    ensures r.Success? && r.value.rooms.JObject? ==>
      r.value.name.JStr? && Lookup(r.value.rooms.fields, r.value.name.s) == Some(r.value.room)
  {
    var roomName :- Lift(GetItem(data, JStr("room_name")));
    var rooms :- Lift(GetItem(doc, JStr("rooms")));
    var known :- Lift(Contains(rooms, roomName));
    if !known then Failure(RoomNotFound(roomName))
    else
      var room :- Lift(GetItem(rooms, roomName));
      Success(FoundRoom(rooms, roomName, room))
  }

  /** A string room name that is a key of a dict `rooms` finds that room. */
  lemma LocateKnownRoom(doc: Json, data: Json, rooms: Fields, name: string, room: Json)
    requires doc.JObject? && Lookup(doc.fields, "rooms") == Some(JObject(rooms))
    requires data.JObject? && Lookup(data.fields, "room_name") == Some(JStr(name))
    requires Lookup(rooms, name) == Some(room)
    ensures LocateRoom(doc, data) == Success(FoundRoom(JObject(rooms), JStr(name), room))
  {
    assert Lift(GetItem(data, JStr("room_name"))) == Success(JStr(name));
    assert Lift(GetItem(doc, JStr("rooms"))) == Success(JObject(rooms));
    assert Lift(Contains(JObject(rooms), JStr(name))) == Success(true);
  }

  /** A `room_name` that is not a key of `rooms` is reported and nothing is written. */
  lemma AddProjectUnknownRoom(doc: Json, data: Json, createdAt: string, parsers: Parsers, rooms: Fields, name: string)
    requires doc.JObject? && Lookup(doc.fields, "rooms") == Some(JObject(rooms))
    requires data.JObject? && Lookup(data.fields, "room_name") == Some(JStr(name))
    requires name !in Keys(rooms)
    ensures AddProject(doc, data, createdAt, parsers) == Failure(RoomNotFound(JStr(name)))
  {
    assert Lift(GetItem(data, JStr("room_name"))) == Success(JStr(name));
    assert Lift(GetItem(doc, JStr("rooms"))) == Success(JObject(rooms));
    assert Lift(Contains(JObject(rooms), JStr(name))) == Success(false);
    assert LocateRoom(doc, data) == Failure(RoomNotFound(JStr(name)));
  }

  /** `fields[k]` when it is a dict: its entries, otherwise none. */
  function ObjectAt(fields: Fields, k: string): Fields {
    match Lookup(fields, k)
    case Some(JObject(f)) => f
    case _ => []
  }

  predicate HasObject(fields: Fields, k: string) {
    Lookup(fields, k).Some? && Lookup(fields, k).value.JObject?
  }

  /** `newRoom` is `oldRoom` with `project` appended to its `projects` list (created when missing). */
  ghost predicate ProjectAppended(oldRoom: Fields, newRoom: Fields, project: Json) {
    (forall k :: k != "projects" ==> Lookup(newRoom, k) == Lookup(oldRoom, k)) &&
    Lookup(newRoom, "projects") == Some(JArray(ExistingProjects(oldRoom) + [project]))
  }

  /** `newRooms` has the same rooms as `rooms`, and all but `name` are as they were. */
  ghost predicate OtherRoomsKept(rooms: Fields, newRooms: Fields, name: string) {
    Keys(newRooms) == Keys(rooms) && forall n :: n != name ==> Lookup(newRooms, n) == Lookup(rooms, n)
  }

  /**
   * `after` is the document `rooms` belonged to once `project` was added to room
   * `name`: the room's `projects` list is the old one (or none) plus `project`, the
   * room's other entries and every other room are as before, and no room is added.
   */
  ghost predicate ProjectAdded(rooms: Fields, after: Fields, name: string, project: Json) {
    HasObject(after, "rooms") && OtherRoomsKept(rooms, ObjectAt(after, "rooms"), name) &&
    HasObject(ObjectAt(after, "rooms"), name) &&
    ProjectAppended(ObjectAt(rooms, name), ObjectAt(ObjectAt(after, "rooms"), name), project)
  }

  /**
   * With a known room, the request fields present and a budget `float()` accepts,
   * the room's `projects` list grows by exactly the new record (which is `planned`
   * and has no attachments, by `ProjectRecord`); all else is unchanged.
   */
  lemma AddProjectToKnownRoom(doc: Json, data: Json, createdAt: string, parsers: Parsers,
                              rooms: Fields, name: string, room: Fields)
    requires doc.JObject? && Lookup(doc.fields, "rooms") == Some(JObject(rooms))
    requires data.JObject? && Lookup(data.fields, "room_name") == Some(JStr(name))
    requires Lookup(rooms, name) == Some(JObject(room))
    requires "title" in Keys(data.fields) && "description" in Keys(data.fields)
    requires "budget" in Keys(data.fields) && "priority" in Keys(data.fields)
    requires Float(Lookup(data.fields, "budget").value, parsers).Success?
    requires "projects" in Keys(room) ==> Lookup(room, "projects").value.JArray?
    ensures AddProject(doc, data, createdAt, parsers).Success?
    ensures ProjectAdded(rooms, AddProject(doc, data, createdAt, parsers).value.fields, name,
                         ProjectRecord(Lookup(data.fields, "title").value, Lookup(data.fields, "description").value,
                                       Float(Lookup(data.fields, "budget").value, parsers).value,
                                       Lookup(data.fields, "priority").value, createdAt))
  {
    var project := ProjectRecord(Lookup(data.fields, "title").value, Lookup(data.fields, "description").value,
                                 Float(Lookup(data.fields, "budget").value, parsers).value,
                                 Lookup(data.fields, "priority").value, createdAt);
    NewProjectFromRequest(data, createdAt, parsers);
    AddToRoomAppends(room, project);
    var room2 := JObject(Put(room, "projects", JArray(ExistingProjects(room) + [project])));
    AddProjectLocatesRoom(doc, data, createdAt, parsers, rooms, name, room);
    AppendedProjectIsAdded(doc.fields, rooms, name, room, project);
  }

  /** Writing the room with the longer `projects` list back into the document is `ProjectAdded`. */
  lemma AppendedProjectIsAdded(doc: Fields, rooms: Fields, name: string, room: Fields, project: Json)
    requires Lookup(rooms, name) == Some(JObject(room))
    ensures var room2 := JObject(Put(room, "projects", JArray(ExistingProjects(room) + [project])));
      ProjectAdded(rooms, Put(doc, "rooms", JObject(Put(rooms, name, room2))), name, project)
  {
    var room2 := Put(room, "projects", JArray(ExistingProjects(room) + [project]));
    var rooms2 := Put(rooms, name, JObject(room2));
    var after := Put(doc, "rooms", JObject(rooms2));
    ObjectAtOf(after, "rooms", rooms2);
    ObjectAtOf(rooms2, name, room2);
    ObjectAtOf(rooms, name, room);
    RoomWrittenBack(rooms, name, room2);
    ProjectsAppended(room, project);
  }

  lemma ObjectAtOf(fields: Fields, k: string, f: Fields)
    requires Lookup(fields, k) == Some(JObject(f))
    ensures HasObject(fields, k) && ObjectAt(fields, k) == f
  {
  }

  lemma ProjectsAppended(room: Fields, project: Json)
    ensures ProjectAppended(room, Put(room, "projects", JArray(ExistingProjects(room) + [project])), project)
  {
  }

  /** Storing a room back under its name keeps the other rooms and the set of names. */
  lemma RoomWrittenBack(rooms: Fields, name: string, room2: Fields)
    requires name in Keys(rooms)
    ensures OtherRoomsKept(rooms, Put(rooms, name, JObject(room2)), name)
    ensures HasObject(Put(rooms, name, JObject(room2)), name)
    ensures ObjectAt(Put(rooms, name, JObject(room2)), name) == room2
  {
  }

  lemma NewProjectFromRequest(data: Json, createdAt: string, parsers: Parsers)
    requires data.JObject?
    requires "title" in Keys(data.fields) && "description" in Keys(data.fields)
    requires "budget" in Keys(data.fields) && "priority" in Keys(data.fields)
    requires Float(Lookup(data.fields, "budget").value, parsers).Success?
    ensures NewProject(data, createdAt, parsers) ==
      Success(ProjectRecord(Lookup(data.fields, "title").value, Lookup(data.fields, "description").value,
                            Float(Lookup(data.fields, "budget").value, parsers).value,
                            Lookup(data.fields, "priority").value, createdAt))
  {
    var f := data.fields;
    assert GetItem(data, JStr("title")) == Success(Lookup(f, "title").value);
    assert GetItem(data, JStr("description")) == Success(Lookup(f, "description").value);
    assert GetItem(data, JStr("budget")) == Success(Lookup(f, "budget").value);
    assert GetItem(data, JStr("priority")) == Success(Lookup(f, "priority").value);
  }

  /** With the room found, `AddProject` is `AddToRoom` written back into `rooms`. */
  lemma AddProjectLocatesRoom(doc: Json, data: Json, createdAt: string, parsers: Parsers,
                              rooms: Fields, name: string, room: Fields)
    requires doc.JObject? && Lookup(doc.fields, "rooms") == Some(JObject(rooms))
    requires data.JObject? && Lookup(data.fields, "room_name") == Some(JStr(name))
    requires Lookup(rooms, name) == Some(JObject(room))
    ensures var added := AddToRoom(JObject(room), NewProject(data, createdAt, parsers));
      AddProject(doc, data, createdAt, parsers) ==
        if added.Success? then Success(JObject(Put(doc.fields, "rooms", JObject(Put(rooms, name, added.value)))))
        else Failure(AddRaised(added.error))
  {
    LocateKnownRoom(doc, data, rooms, name, JObject(room));
    AddProjectAfterLocate(doc, data, createdAt, parsers, FoundRoom(JObject(rooms), JStr(name), JObject(room)),
                          AddToRoom(JObject(room), NewProject(data, createdAt, parsers)));
  }

  lemma AddProjectAfterLocate(doc: Json, data: Json, createdAt: string, parsers: Parsers,
                              found: FoundRoom, added: Result<Json, PyExc>)
    requires LocateRoom(doc, data) == Success(found)
    requires found.rooms.JObject? && found.name.JStr?
    requires AddToRoom(found.room, NewProject(data, createdAt, parsers)) == added
    ensures AddProject(doc, data, createdAt, parsers) ==
      if added.Success? then Success(JObject(Put(doc.fields, "rooms", JObject(Put(found.rooms.fields, found.name.s, added.value)))))
      else Failure(AddRaised(added.error))
  {
  }

  // ----------------------------------------------------------------- save_rooms

  /** `current_room['priority'] = room_data['priority']`. */
  function UpdatePriority(room: Json, rd: Json): (r: Result<Json, PyExc>)
    ensures r.Success? <==> rd.JObject? && "priority" in Keys(rd.fields) && room.JObject?
    ensures r.Success? ==> r.value == JObject(Put(room.fields, "priority", Lookup(rd.fields, "priority").value))
  {
    var priority :- GetItem(rd, JStr("priority"));
    SetItem(room, "priority", priority)
  }

  /**
   * What a successful budget update leaves: the room's `budget` dict with `amount`
   * set to `float()` of the incoming amount, `notes` copied, other entries as before.
   */
  ghost predicate BudgetCopied(oldBudget: Option<Json>, newBudget: Option<Json>, incoming: Json, parsers: Parsers) {
    oldBudget.Some? && oldBudget.value.JObject? &&
    newBudget.Some? && newBudget.value.JObject? &&
    incoming.JObject? && "amount" in Keys(incoming.fields) && "notes" in Keys(incoming.fields) &&
    var amount := Float(Lookup(incoming.fields, "amount").value, parsers);
    amount.Success? &&
    Lookup(newBudget.value.fields, "amount") == Some(JFloat(amount.value)) &&
    Lookup(newBudget.value.fields, "notes") == Lookup(incoming.fields, "notes") &&
    forall k :: k != "amount" && k != "notes" ==>
      Lookup(newBudget.value.fields, k) == Lookup(oldBudget.value.fields, k)
  }

  /**
   * The posted budget can be merged: none is posted, or a dict with `amount` (which
   * `float()` accepts) and `notes` is posted onto a room whose `budget` is a dict.
   */
  predicate BudgetMergeable(room: Json, rd: Json, parsers: Parsers)
    requires room.JObject? && rd.JObject?
  {
    "budget" in Keys(rd.fields) ==>
      var incoming := Lookup(rd.fields, "budget").value;
      incoming.JObject? && "amount" in Keys(incoming.fields) && "notes" in Keys(incoming.fields) &&
      Float(Lookup(incoming.fields, "amount").value, parsers).Success? &&
      "budget" in Keys(room.fields) && Lookup(room.fields, "budget").value.JObject?
  }

  /**
   * `if 'budget' in room_data:` set `current_room['budget']['amount']` to the float of
   * the incoming amount, then `['notes']` to the incoming notes.
   */
  function UpdateBudget(room: Json, rd: Json, parsers: Parsers): (r: Result<Json, PyExc>)
    requires room.JObject? && rd.JObject?
    ensures r.Success? ==>
      r.value.JObject? && forall k :: k != "budget" ==> Lookup(r.value.fields, k) == Lookup(room.fields, k)
    ensures r.Success? <==> BudgetMergeable(room, rd, parsers)
    ensures "budget" !in Keys(rd.fields) ==> r == Success(room)
    ensures r.Success? && "budget" in Keys(rd.fields) ==>
      BudgetCopied(Lookup(room.fields, "budget"), Lookup(r.value.fields, "budget"),
                   Lookup(rd.fields, "budget").value, parsers)
  {
    var hasBudget := "budget" in Keys(rd.fields);
    if !hasBudget then Success(room)
    else
      var amountValue :- GetNested(rd, "budget", "amount");
      var amount :- Float(amountValue, parsers);
      var room1 :- SetNested(room, "budget", "amount", JFloat(amount));
      var notes :- GetNested(rd, "budget", "notes");
      SetNested(room1, "budget", "notes", notes)
  }

  /**
   * What a successful square-footage update leaves: `square_footage.value` set to
   * `int()` of the incoming value, the rest of that dict as before.
   */
  ghost predicate SquareFootageCopied(oldArea: Option<Json>, newArea: Option<Json>, incoming: Json, parsers: Parsers) {
    oldArea.Some? && oldArea.value.JObject? &&
    newArea.Some? && newArea.value.JObject? &&
    incoming.JObject? && "value" in Keys(incoming.fields) &&
    var value := Int(Lookup(incoming.fields, "value").value, parsers);
    value.Success? &&
    Lookup(newArea.value.fields, "value") == Some(JInt(value.value)) &&
    forall k :: k != "value" ==> Lookup(newArea.value.fields, k) == Lookup(oldArea.value.fields, k)
  }

  /**
   * The posted square footage can be merged: none is posted, or a dict with a `value`
   * that `int()` accepts is posted onto a room whose `square_footage` is a dict.
   */
  predicate SquareFootageMergeable(room: Json, rd: Json, parsers: Parsers)
    requires room.JObject? && rd.JObject?
  {
    "square_footage" in Keys(rd.fields) ==>
      var incoming := Lookup(rd.fields, "square_footage").value;
      incoming.JObject? && "value" in Keys(incoming.fields) &&
      Int(Lookup(incoming.fields, "value").value, parsers).Success? &&
      "square_footage" in Keys(room.fields) && Lookup(room.fields, "square_footage").value.JObject?
  }

  /** `if 'square_footage' in room_data:` set `['square_footage']['value']` to the int of the incoming one. */
  function UpdateSquareFootage(room: Json, rd: Json, parsers: Parsers): (r: Result<Json, PyExc>)
    requires room.JObject? && rd.JObject?
    ensures r.Success? ==>
      r.value.JObject? && forall k :: k != "square_footage" ==> Lookup(r.value.fields, k) == Lookup(room.fields, k)
    ensures r.Success? <==> SquareFootageMergeable(room, rd, parsers)
    ensures "square_footage" !in Keys(rd.fields) ==> r == Success(room)
    ensures r.Success? && "square_footage" in Keys(rd.fields) ==>
      SquareFootageCopied(Lookup(room.fields, "square_footage"), Lookup(r.value.fields, "square_footage"),
                          Lookup(rd.fields, "square_footage").value, parsers)
  {
    var hasArea := "square_footage" in Keys(rd.fields);
    if !hasArea then Success(room)
    else
      var valueJson :- GetNested(rd, "square_footage", "value");
      var value :- Int(valueJson, parsers);
      SetNested(room, "square_footage", "value", JInt(value))
  }

  /** The walls dict a room's `painting` holds, or the empty dict that update creates. */
  function ExistingWalls(painting: Option<Json>): Fields {
    match painting
    case Some(JObject(p)) =>
      (match Lookup(p, "walls")
       case Some(JObject(w)) => w
       case _ => [])
    case _ => []
  }

  /** The entries of a room's `painting` dict, or none when it has no such dict. */
  function ExistingPainting(painting: Option<Json>): Fields {
    match painting
    case Some(JObject(p)) => p
    case _ => []
  }

  /** The walls dict posted for a room, when it sends `painting.walls` as dicts. */
  function IncomingWalls(rd: Json): Option<Fields> {
    if !rd.JObject? then None
    else
      match Lookup(rd.fields, "painting")
      case Some(JObject(p)) =>
        (match Lookup(p, "walls")
         case Some(JObject(w)) => Some(w)
         case _ => None)
      case _ => None
  }

  /**
   * After the walls merge the room's `painting.walls` maps each key to the incoming
   * value when the posted walls have that key, and to the old value otherwise; the
   * other entries of `painting` are as before.
   */
  ghost predicate WallsMerged(oldPainting: Option<Json>, newPainting: Option<Json>, incoming: Fields) {
    newPainting.Some? && newPainting.value.JObject? &&
    var walls := Lookup(newPainting.value.fields, "walls");
    walls.Some? && walls.value.JObject? &&
    (forall k :: Lookup(walls.value.fields, k) ==
                 if k in Keys(incoming) then Lookup(incoming, k) else Lookup(ExistingWalls(oldPainting), k)) &&
    forall k :: k != "walls" ==> Lookup(newPainting.value.fields, k) == Lookup(ExistingPainting(oldPainting), k)
  }

  /**
   * A room's `painting` that posted walls can be merged into: it is absent, or a dict
   * whose `walls` is absent or a dict.
   */
  predicate WallsMergeable(painting: Option<Json>) {
    painting.None? ||
    (painting.value.JObject? &&
     ("walls" !in Keys(painting.value.fields) || Lookup(painting.value.fields, "walls").value.JObject?))
  }

  /**
   * `if 'walls' not in painting: painting['walls'] = {}`, followed by the read
   * `painting['walls']` the update goes through: afterwards `painting` is a dict
   * holding `walls`, and what the merge starts from is unchanged.
   */
  function EnsureWalls(painting: Json): (r: Result<Json, PyExc>)
    ensures r.Success? ==>
      r.value.JObject? && "walls" in Keys(r.value.fields) &&
      ExistingWalls(Some(r.value)) == ExistingWalls(Some(painting)) &&
      forall k :: k != "walls" ==> Lookup(r.value.fields, k) == Lookup(ExistingPainting(Some(painting)), k)
    ensures r.Success? <==> painting.JObject?
    ensures painting.JObject? && "walls" in Keys(painting.fields) ==> r == Success(painting)
    ensures painting.JObject? && "walls" !in Keys(painting.fields) ==>
      r == Success(JObject(Put(painting.fields, "walls", JObject([]))))
  {
    var hasWalls :- Contains(painting, JStr("walls"));
    if hasWalls then
      var _ :- GetItem(painting, JStr("walls"));
      Success(painting)
    else
      SetItem(painting, "walls", JObject([]))
  }

  /**
   * `if 'painting' not in current_room: current_room['painting'] = {}`, then
   * `EnsureWalls` on that dict.
   */
  function PrepareWalls(room: Json): (r: Result<Json, PyExc>)
    requires room.JObject?
    ensures r.Success? <==> "painting" !in Keys(room.fields) || Lookup(room.fields, "painting").value.JObject?
    ensures r.Success? ==>
      r.value.JObject? && forall k :: k != "painting" ==> Lookup(r.value.fields, k) == Lookup(room.fields, k)
    ensures r.Success? ==>
      var painting := Lookup(r.value.fields, "painting");
      painting.Some? && painting.value.JObject? && "walls" in Keys(painting.value.fields) &&
      ExistingWalls(painting) == ExistingWalls(Lookup(room.fields, "painting")) &&
      forall k :: k != "walls" ==>
        Lookup(painting.value.fields, k) == Lookup(ExistingPainting(Lookup(room.fields, "painting")), k)
  {
    var ownPainting := if "painting" in Keys(room.fields) then Lookup(room.fields, "painting").value else JObject([]);
    var painting :- EnsureWalls(ownPainting);
    Success(JObject(Put(room.fields, "painting", painting)))
  }

  /**
   * `if 'painting' in room_data and 'walls' in room_data['painting']:` make sure the
   * room has `painting.walls`, then
   * `current_room['painting']['walls'].update(room_data['painting']['walls'])`.
   */
  function MergeWalls(room: Json, rd: Json): (r: Result<Json, PyExc>)
    requires room.JObject? && rd.JObject?
    ensures r.Success? ==>
      r.value.JObject? && forall k :: k != "painting" ==> Lookup(r.value.fields, k) == Lookup(room.fields, k)
    ensures "painting" !in Keys(rd.fields) ==> r == Success(room)
    ensures "painting" in Keys(rd.fields) && Contains(Lookup(rd.fields, "painting").value, JStr("walls")) == Success(false) ==>
      r == Success(room)
    ensures "painting" in Keys(rd.fields) && Contains(Lookup(rd.fields, "painting").value, JStr("walls")).Failure? ==>
      r.Failure?
    ensures IncomingWalls(rd).Some? ==> (r.Success? <==> WallsMergeable(Lookup(room.fields, "painting")))
    ensures r.Success? && IncomingWalls(rd).Some? && UniqueKeys(IncomingWalls(rd).value) ==>
      WallsMerged(Lookup(room.fields, "painting"), Lookup(r.value.fields, "painting"), IncomingWalls(rd).value)
  {
    if "painting" !in Keys(rd.fields) then Success(room)
    else
      var painting := Lookup(rd.fields, "painting").value;
      var sendsWalls :- Contains(painting, JStr("walls"));
      if !sendsWalls then Success(room)
      else
        var room2 :- PrepareWalls(room);
        var ownPainting := Lookup(room2.fields, "painting").value;
        var walls := Lookup(ownPainting.fields, "walls").value;
        if !walls.JObject? then
          Failure(AttributeError("'" + TypeName(walls) + "' object has no attribute 'update'"))
        else
          var incoming :- GetItem(painting, JStr("walls"));
          var merged :- Update(walls, incoming);
          WallsMergeStep(Lookup(room.fields, "painting"), ownPainting, walls, incoming, rd);
          Success(JObject(Put(room2.fields, "painting", JObject(Put(ownPainting.fields, "walls", merged)))))
  }

  /** The walls merge in terms of the `painting` the room had before `PrepareWalls`. */
  lemma WallsMergeStep(oldPainting: Option<Json>, ownPainting: Json, walls: Json, incoming: Json, rd: Json)
    requires ownPainting.JObject? && walls.JObject?
    requires Lookup(ownPainting.fields, "walls") == Some(walls)
    requires ExistingWalls(Some(ownPainting)) == ExistingWalls(oldPainting)
    requires forall k :: k != "walls" ==> Lookup(ownPainting.fields, k) == Lookup(ExistingPainting(oldPainting), k)
    requires rd.JObject? && Lookup(rd.fields, "painting").Some?
    requires GetItem(Lookup(rd.fields, "painting").value, JStr("walls")) == Success(incoming)
    requires Update(walls, incoming).Success?
    ensures IncomingWalls(rd).Some? && UniqueKeys(IncomingWalls(rd).value) ==>
      var merged := Update(walls, incoming).value;
      WallsMerged(oldPainting, Some(JObject(Put(ownPainting.fields, "walls", merged))), IncomingWalls(rd).value)
  {
    if IncomingWalls(rd).Some? && UniqueKeys(IncomingWalls(rd).value) {
      assert IncomingWalls(rd) == Some(incoming.fields);
      UpdateFromDictMerges(walls.fields, incoming.fields);
    }
  }

  /**
   * The update one posted room gets when the document already has it, as the body of
   * the `for room_name, room_data in data.items()` loop does it.
   */
  function MergeRoom(room: Json, rd: Json, parsers: Parsers): Result<Json, PyExc> {
    var r1 :- UpdatePriority(room, rd);
    var r2 :- UpdateBudget(r1, rd, parsers);
    var r3 :- UpdateSquareFootage(r2, rd, parsers);
    MergeWalls(r3, rd)
  }

  /** The three intermediate rooms a successful `MergeRoom` passes through. */
  lemma MergeRoomStages(room: Json, rd: Json, parsers: Parsers) returns (r1: Json, r2: Json, r3: Json)
    requires MergeRoom(room, rd, parsers).Success?
    ensures room.JObject? && rd.JObject?
    ensures UpdatePriority(room, rd) == Success(r1) && r1.JObject?
    ensures UpdateBudget(r1, rd, parsers) == Success(r2) && r2.JObject?
    ensures UpdateSquareFootage(r2, rd, parsers) == Success(r3) && r3.JObject?
    ensures MergeRoom(room, rd, parsers) == MergeWalls(r3, rd)
  {
    r1 := UpdatePriority(room, rd).value;
    r2 := UpdateBudget(r1, rd, parsers).value;
    r3 := UpdateSquareFootage(r2, rd, parsers).value;
  }

  /** A merged room takes the posted `priority` and keeps every entry the merge does not address. */
  lemma MergeRoomOverwrites(room: Json, rd: Json, parsers: Parsers)
    requires MergeRoom(room, rd, parsers).Success?
    ensures room.JObject? && rd.JObject? && MergeRoom(room, rd, parsers).value.JObject?
    ensures Lookup(MergeRoom(room, rd, parsers).value.fields, "priority") == Lookup(rd.fields, "priority")
    ensures forall k :: k !in ["priority", "budget", "square_footage", "painting"] ==>
      Lookup(MergeRoom(room, rd, parsers).value.fields, k) == Lookup(room.fields, k)
  {
    var r1, r2, r3 := MergeRoomStages(room, rd, parsers);
    var r4 := MergeRoom(room, rd, parsers).value;
    assert Lookup(r4.fields, "priority") == Lookup(r1.fields, "priority");
    forall k | k !in ["priority", "budget", "square_footage", "painting"]
      ensures Lookup(r4.fields, k) == Lookup(room.fields, k)
    {
      assert k != "priority" && k != "budget" && k != "square_footage" && k != "painting";
      assert Lookup(r4.fields, k) == Lookup(r3.fields, k);
      assert Lookup(r3.fields, k) == Lookup(r2.fields, k);
      assert Lookup(r2.fields, k) == Lookup(r1.fields, k);
    }
  }

  /** `budget` changes only when the posted room has it. */
  lemma MergeRoomKeepsBudget(room: Json, rd: Json, parsers: Parsers)
    requires MergeRoom(room, rd, parsers).Success?
    ensures room.JObject? && rd.JObject? && MergeRoom(room, rd, parsers).value.JObject?
    ensures "budget" !in Keys(rd.fields) ==>
      Lookup(MergeRoom(room, rd, parsers).value.fields, "budget") == Lookup(room.fields, "budget")
  {
    var r1, r2, r3 := MergeRoomStages(room, rd, parsers);
    if "budget" !in Keys(rd.fields) {
      var r4 := MergeRoom(room, rd, parsers).value;
      assert Lookup(r4.fields, "budget") == Lookup(r3.fields, "budget");
      assert Lookup(r3.fields, "budget") == Lookup(r2.fields, "budget");
      assert r2 == r1;
      assert Lookup(r1.fields, "budget") == Lookup(room.fields, "budget");
    }
  }

  /** `square_footage` changes only when the posted room has it. */
  lemma MergeRoomKeepsSquareFootage(room: Json, rd: Json, parsers: Parsers)
    requires MergeRoom(room, rd, parsers).Success?
    ensures room.JObject? && rd.JObject? && MergeRoom(room, rd, parsers).value.JObject?
    ensures "square_footage" !in Keys(rd.fields) ==>
      Lookup(MergeRoom(room, rd, parsers).value.fields, "square_footage") == Lookup(room.fields, "square_footage")
  {
    var r1, r2, r3 := MergeRoomStages(room, rd, parsers);
    if "square_footage" !in Keys(rd.fields) {
      var r4 := MergeRoom(room, rd, parsers).value;
      assert Lookup(r4.fields, "square_footage") == Lookup(r3.fields, "square_footage");
      assert r3 == r2;
      assert Lookup(r2.fields, "square_footage") == Lookup(r1.fields, "square_footage");
      assert Lookup(r1.fields, "square_footage") == Lookup(room.fields, "square_footage");
    }
  }

  /** `painting` changes only when the posted room has it. */
  lemma MergeRoomKeepsPainting(room: Json, rd: Json, parsers: Parsers)
    requires MergeRoom(room, rd, parsers).Success?
    ensures room.JObject? && rd.JObject? && MergeRoom(room, rd, parsers).value.JObject?
    ensures "painting" !in Keys(rd.fields) ==>
      Lookup(MergeRoom(room, rd, parsers).value.fields, "painting") == Lookup(room.fields, "painting")
  {
    var r1, r2, r3 := MergeRoomStages(room, rd, parsers);
    if "painting" !in Keys(rd.fields) {
      assert MergeWalls(r3, rd) == Success(r3);
      assert Lookup(r3.fields, "painting") == Lookup(r2.fields, "painting");
      assert Lookup(r2.fields, "painting") == Lookup(r1.fields, "painting");
      assert Lookup(r1.fields, "painting") == Lookup(room.fields, "painting");
    }
  }

  /** A merged room's budget amount and notes are the posted ones. */
  lemma MergeRoomCopiesBudget(room: Json, rd: Json, parsers: Parsers)
    requires MergeRoom(room, rd, parsers).Success?
    ensures room.JObject? && rd.JObject? && MergeRoom(room, rd, parsers).value.JObject?
    ensures "budget" in Keys(rd.fields) ==>
      BudgetCopied(Lookup(room.fields, "budget"), Lookup(MergeRoom(room, rd, parsers).value.fields, "budget"),
                   Lookup(rd.fields, "budget").value, parsers)
  {
    var r1, r2, r3 := MergeRoomStages(room, rd, parsers);
    if "budget" in Keys(rd.fields) {
      var r4 := MergeRoom(room, rd, parsers).value;
      assert Lookup(r4.fields, "budget") == Lookup(r3.fields, "budget");
      assert Lookup(r3.fields, "budget") == Lookup(r2.fields, "budget");
      assert Lookup(r1.fields, "budget") == Lookup(room.fields, "budget");
    }
  }

  /** A merged room's square footage is the posted one. */
  lemma MergeRoomCopiesSquareFootage(room: Json, rd: Json, parsers: Parsers)
    requires MergeRoom(room, rd, parsers).Success?
    ensures room.JObject? && rd.JObject? && MergeRoom(room, rd, parsers).value.JObject?
    ensures "square_footage" in Keys(rd.fields) ==>
      SquareFootageCopied(Lookup(room.fields, "square_footage"),
                          Lookup(MergeRoom(room, rd, parsers).value.fields, "square_footage"),
                          Lookup(rd.fields, "square_footage").value, parsers)
  {
    var r1, r2, r3 := MergeRoomStages(room, rd, parsers);
    if "square_footage" in Keys(rd.fields) {
      var r4 := MergeRoom(room, rd, parsers).value;
      assert Lookup(r4.fields, "square_footage") == Lookup(r3.fields, "square_footage");
      assert Lookup(r2.fields, "square_footage") == Lookup(r1.fields, "square_footage");
      assert Lookup(r1.fields, "square_footage") == Lookup(room.fields, "square_footage");
    }
  }

  /** A merged room's `painting.walls` is its old walls updated with the posted ones. */
  lemma MergeRoomMergesWalls(room: Json, rd: Json, parsers: Parsers)
    requires MergeRoom(room, rd, parsers).Success?
    requires rd.JObject? && IncomingWalls(rd).Some? && UniqueKeys(IncomingWalls(rd).value)
    ensures room.JObject? && MergeRoom(room, rd, parsers).value.JObject?
    ensures WallsMerged(Lookup(room.fields, "painting"), Lookup(MergeRoom(room, rd, parsers).value.fields, "painting"),
                        IncomingWalls(rd).value)
  {
    var r1, r2, r3 := MergeRoomStages(room, rd, parsers);
    assert Lookup(r3.fields, "painting") == Lookup(r2.fields, "painting");
    assert Lookup(r2.fields, "painting") == Lookup(r1.fields, "painting");
    assert Lookup(r1.fields, "painting") == Lookup(room.fields, "painting");
  }

  /**
   * The posted walls, if any, can be merged into the room: no `painting` is posted,
   * the posted `painting` holds no `walls`, or it holds a walls dict and the room's
   * own painting can take it.
   */
  predicate WallsPostable(room: Json, rd: Json)
    requires room.JObject? && rd.JObject?
  {
    "painting" !in Keys(rd.fields) ||
    Contains(Lookup(rd.fields, "painting").value, JStr("walls")) == Success(false) ||
    (IncomingWalls(rd).Some? && WallsMergeable(Lookup(room.fields, "painting")))
  }

  /** What a posted room and the room it updates need for the merge to go through. */
  predicate RoomMergeable(room: Json, rd: Json, parsers: Parsers) {
    room.JObject? && rd.JObject? && "priority" in Keys(rd.fields) &&
    BudgetMergeable(room, rd, parsers) && SquareFootageMergeable(room, rd, parsers) &&
    WallsPostable(room, rd)
  }

  /** The merge conditions look only at the room's `budget`, `square_footage` and `painting`. */
  lemma MergeableAgree(a: Json, b: Json, rd: Json, parsers: Parsers)
    requires a.JObject? && b.JObject? && rd.JObject?
    ensures Lookup(a.fields, "budget") == Lookup(b.fields, "budget") ==>
      BudgetMergeable(a, rd, parsers) == BudgetMergeable(b, rd, parsers)
    ensures Lookup(a.fields, "square_footage") == Lookup(b.fields, "square_footage") ==>
      SquareFootageMergeable(a, rd, parsers) == SquareFootageMergeable(b, rd, parsers)
    ensures Lookup(a.fields, "painting") == Lookup(b.fields, "painting") ==>
      WallsPostable(a, rd) == WallsPostable(b, rd)
  {
  }

  /** The priority and budget stages of a merge `RoomMergeable` allows, and the room they leave. */
  lemma BudgetStage(room: Json, rd: Json, parsers: Parsers) returns (r2: Json)
    requires RoomMergeable(room, rd, parsers)
    ensures UpdatePriority(room, rd).Success?
    ensures UpdateBudget(UpdatePriority(room, rd).value, rd, parsers) == Success(r2) && r2.JObject?
    ensures Lookup(r2.fields, "square_footage") == Lookup(room.fields, "square_footage")
    ensures Lookup(r2.fields, "painting") == Lookup(room.fields, "painting")
  {
    var r1 := UpdatePriority(room, rd).value;
    MergeableAgree(r1, room, rd, parsers);
    r2 := UpdateBudget(r1, rd, parsers).value;
    assert Lookup(r2.fields, "square_footage") == Lookup(r1.fields, "square_footage");
    assert Lookup(r2.fields, "painting") == Lookup(r1.fields, "painting");
  }

  /** A room merges when `RoomMergeable` holds. */
  lemma MergeRoomSucceedsWhen(room: Json, rd: Json, parsers: Parsers)
    requires RoomMergeable(room, rd, parsers)
    ensures MergeRoom(room, rd, parsers).Success?
  {
    var r2 := BudgetStage(room, rd, parsers);
    MergeableAgree(r2, room, rd, parsers);
    var r3 := UpdateSquareFootage(r2, rd, parsers).value;
    assert Lookup(r3.fields, "painting") == Lookup(r2.fields, "painting");
    MergeableAgree(r3, room, rd, parsers);
    assert MergeRoom(room, rd, parsers) == MergeWalls(r3, rd);
  }

  /**
   * A merge that goes through had what `RoomMergeable` asks of the priority, the
   * budget and the square footage, and of walls posted as a dict.
   */
  lemma MergeRoomSucceedsOnly(room: Json, rd: Json, parsers: Parsers)
    requires MergeRoom(room, rd, parsers).Success?
    ensures room.JObject? && rd.JObject? && "priority" in Keys(rd.fields)
    ensures BudgetMergeable(room, rd, parsers) && SquareFootageMergeable(room, rd, parsers)
    ensures IncomingWalls(rd).Some? ==> WallsPostable(room, rd)
  {
    var r1, r2, r3 := MergeRoomStages(room, rd, parsers);
    StagesMergeable(room, rd, parsers, r1, r2, r3);
  }

  /** `MergeRoomSucceedsOnly` stage by stage. */
  lemma StagesMergeable(room: Json, rd: Json, parsers: Parsers, r1: Json, r2: Json, r3: Json)
    requires room.JObject? && rd.JObject?
    requires UpdatePriority(room, rd) == Success(r1) && r1.JObject?
    requires UpdateBudget(r1, rd, parsers) == Success(r2) && r2.JObject?
    requires UpdateSquareFootage(r2, rd, parsers) == Success(r3) && r3.JObject?
    requires MergeWalls(r3, rd).Success?
    ensures "priority" in Keys(rd.fields)
    ensures BudgetMergeable(room, rd, parsers) && SquareFootageMergeable(room, rd, parsers)
    ensures IncomingWalls(rd).Some? ==> WallsPostable(room, rd)
  {
    MergeableAgree(r1, room, rd, parsers);
    assert Lookup(r2.fields, "square_footage") == Lookup(r1.fields, "square_footage");
    MergeableAgree(r2, room, rd, parsers);
    assert Lookup(r3.fields, "painting") == Lookup(r2.fields, "painting");
    assert Lookup(r2.fields, "painting") == Lookup(r1.fields, "painting");
    MergeableAgree(r3, room, rd, parsers);
  }

  /**
   * When the posted room sends no painting, or walls as a dict, it merges exactly when
   * `RoomMergeable` holds.
   */
  lemma MergeRoomSucceeds(room: Json, rd: Json, parsers: Parsers)
    requires rd.JObject? && ("painting" !in Keys(rd.fields) || IncomingWalls(rd).Some?)
    ensures MergeRoom(room, rd, parsers).Success? <==> RoomMergeable(room, rd, parsers)
  {
    if RoomMergeable(room, rd, parsers) {
      MergeRoomSucceedsWhen(room, rd, parsers);
    }
    if MergeRoom(room, rd, parsers).Success? {
      MergeRoomSucceedsOnly(room, rd, parsers);
    }
  }

  /** One iteration of the merge loop: rooms the document lacks are skipped. */
  function MergeStep(doc: Json, name: string, rd: Json, parsers: Parsers): (r: Result<Json, PyExc>)
  {
    var rooms :- GetItem(doc, JStr("rooms"));
    var known :- Contains(rooms, JStr(name));
    if !known then Success(doc)
    else
      var room :- GetItem(rooms, JStr(name));
      var merged :- MergeRoom(room, rd, parsers);
      assert doc.JObject? && rooms.JObject?;
      Success(JObject(Put(doc.fields, "rooms", JObject(Put(rooms.fields, name, merged)))))
  }

  /** For a room the document has, a step stores the room's merge, or fails with it. */
  lemma MergeStepKnown(doc: Json, rooms: Fields, name: string, rd: Json, parsers: Parsers)
    requires doc.JObject? && Lookup(doc.fields, "rooms") == Some(JObject(rooms))
    requires name in Keys(rooms)
    ensures var merged := MergeRoom(Lookup(rooms, name).value, rd, parsers);
      MergeStep(doc, name, rd, parsers) ==
        if merged.Success? then Success(JObject(Put(doc.fields, "rooms", JObject(Put(rooms, name, merged.value)))))
        else Failure(merged.error)
  {
    assert GetItem(doc, JStr("rooms")) == Success(JObject(rooms));
    assert GetItem(JObject(rooms), JStr(name)) == Success(Lookup(rooms, name).value);
  }

  /** The whole loop over the posted rooms, in the order the posted dict iterates. */
  function MergeEntries(doc: Json, entries: Fields, parsers: Parsers): Result<Json, PyExc>
    decreases |entries|
  {
    if |entries| == 0 then Success(doc)
    else
      var next :- MergeStep(doc, entries[0].0, entries[0].1, parsers);
      MergeEntries(next, entries[1..], parsers)
  }

  /** The `/save_rooms` update: `data.items()` needs a dict. */
  function MergeRoomsSpec(doc: Json, data: Json, parsers: Parsers): Result<Json, PyExc> {
    if data.JObject? then MergeEntries(doc, data.fields, parsers)
    else Failure(AttributeError("'" + TypeName(data) + "' object has no attribute 'items'"))
  }

  /** The loop's first iteration, then the rest. */
  lemma MergeEntriesFirst(doc: Json, entries: Fields, parsers: Parsers)
    requires |entries| > 0
    ensures var step := MergeStep(doc, entries[0].0, entries[0].1, parsers);
      MergeEntries(doc, entries, parsers) ==
        if step.Failure? then Failure(step.error) else MergeEntries(step.value, entries[1..], parsers)
  {
  }

  /** The merge loop itself, room after room. */
  method MergeRooms(doc: Json, data: Json, parsers: Parsers) returns (r: Result<Json, PyExc>)
    ensures r == MergeRoomsSpec(doc, data, parsers)
  {
    if !data.JObject? {
      return Failure(AttributeError("'" + TypeName(data) + "' object has no attribute 'items'"));
    }
    var entries := data.fields;
    var current := doc;
    var i := 0;
    while i < |entries|
      invariant 0 <= i <= |entries|
      invariant MergeEntries(doc, entries, parsers) == MergeEntries(current, entries[i..], parsers)
    {
      assert entries[i..][1..] == entries[i + 1..];
      MergeEntriesFirst(current, entries[i..], parsers);
      var step := MergeStep(current, entries[i].0, entries[i].1, parsers);
      if step.Failure? {
        return Failure(step.error);
      }
      current := step.value;
      i := i + 1;
    }
    assert entries[i..] == [];
    r := Success(current);
  }

  /**
   * The rooms of `after` are those of the document's `rooms` dict: a room the posted
   * entries also name is replaced by its merge, every other room is as it was, and no
   * room is added.
   */
  ghost predicate RoomsMerged(after: Json, rooms: Fields, entries: Fields, parsers: Parsers) {
    after.JObject? &&
    var newRooms := Lookup(after.fields, "rooms");
    newRooms.Some? && newRooms.value.JObject? &&
    Keys(newRooms.value.fields) == Keys(rooms) &&
    forall n :: if n in Keys(rooms) && n in Keys(entries)
                then Lookup(newRooms.value.fields, n).Some? &&
                     MergeRoom(Lookup(rooms, n).value, Lookup(entries, n).value, parsers) ==
                     Success(Lookup(newRooms.value.fields, n).value)
                else Lookup(newRooms.value.fields, n) == Lookup(rooms, n)
  }

  /**
   * Over a document whose `rooms` is a dict, the merge succeeds iff every posted room
   * that the document has merges; it then changes only the rooms present in both,
   * ignores posted rooms the document lacks, and leaves every other key alone.
   */
  lemma {:induction false} MergeEntriesEffect(doc: Json, rooms: Fields, entries: Fields, parsers: Parsers)
    requires doc.JObject? && Lookup(doc.fields, "rooms") == Some(JObject(rooms))
    requires UniqueKeys(entries)
    ensures MergeEntries(doc, entries, parsers).Success? <==>
      forall i :: 0 <= i < |entries| && entries[i].0 in Keys(rooms) ==>
        MergeRoom(Lookup(rooms, entries[i].0).value, entries[i].1, parsers).Success?
    ensures MergeEntries(doc, entries, parsers).Success? ==>
      var after := MergeEntries(doc, entries, parsers).value;
      after.JObject? && Keys(after.fields) == Keys(doc.fields) &&
      (forall k :: k != "rooms" ==> Lookup(after.fields, k) == Lookup(doc.fields, k)) &&
      RoomsMerged(after, rooms, entries, parsers)
    decreases |entries|
  {
    if |entries| == 0 {
      assert Keys(doc.fields) == Keys(doc.fields);
    } else {
      var name, rd, rest := entries[0].0, entries[0].1, entries[1..];
      FirstEntry(entries);
      MergeEntriesFirst(doc, entries, parsers);
      var step := MergeStep(doc, name, rd, parsers);
      if name !in Keys(rooms) {
        assert step == Success(doc);
        MergeEntriesEffect(doc, rooms, rest, parsers);
        MergeEntriesIff(entries, rooms, rooms, parsers);
      } else {
        var room := Lookup(rooms, name).value;
        var merged := MergeRoom(room, rd, parsers);
        MergeStepKnown(doc, rooms, name, rd, parsers);
        if merged.Failure? {
          assert entries[0].0 in Keys(rooms);
        } else {
          var rooms1 := Put(rooms, name, merged.value);
          var doc1 := JObject(Put(doc.fields, "rooms", JObject(rooms1)));
          MergeEntriesEffect(doc1, rooms1, rest, parsers);
          assert forall n :: n != name ==> Lookup(rooms1, n) == Lookup(rooms, n);
          assert Keys(rooms1) == Keys(rooms);
          MergeEntriesIff(entries, rooms, rooms1, parsers);
          if MergeEntries(doc, entries, parsers).Success? {
            var after := MergeEntries(doc, entries, parsers).value;
            assert after == MergeEntries(doc1, rest, parsers).value;
            RoomsMergedStep(after, rooms, merged.value, entries, parsers);
          }
        }
      }
    }
  }

  /** In a dict with unique keys, the first entry's key is not among the rest. */
  lemma FirstEntry(entries: Fields)
    requires |entries| > 0 && UniqueKeys(entries)
    ensures UniqueKeys(entries[1..]) && entries[0].0 !in Keys(entries[1..])
    ensures Keys(entries) == [entries[0].0] + Keys(entries[1..])
    ensures Lookup(entries, entries[0].0) == Some(entries[0].1)
    ensures forall n :: n != entries[0].0 ==> Lookup(entries, n) == Lookup(entries[1..], n)
  {
    var name, rest := entries[0].0, entries[1..];
    assert Keys(rest) == Keys(entries)[1..];
    assert Keys(entries) == [name] + Keys(rest);
    assert UniqueKeys(rest) by {
      forall i, j | 0 <= i < j < |rest| ensures Keys(rest)[i] != Keys(rest)[j] {
        assert Keys(entries)[i + 1] != Keys(entries)[j + 1];
      }
    }
    assert name !in Keys(rest) by {
      forall j | 0 <= j < |rest| ensures Keys(rest)[j] != name {
        assert Keys(entries)[j + 1] == Keys(rest)[j];
      }
    }
  }

  /** Merging the first posted room, then the rest, is merging all of them. */
  lemma RoomsMergedStep(after: Json, rooms: Fields, merged: Json, entries: Fields, parsers: Parsers)
    requires |entries| > 0 && entries[0].0 in Keys(rooms) && entries[0].0 !in Keys(entries[1..])
    requires Lookup(entries, entries[0].0) == Some(entries[0].1)
    requires forall n :: n != entries[0].0 ==> Lookup(entries, n) == Lookup(entries[1..], n)
    requires MergeRoom(Lookup(rooms, entries[0].0).value, entries[0].1, parsers) == Success(merged)
    requires RoomsMerged(after, Put(rooms, entries[0].0, merged), entries[1..], parsers)
    ensures RoomsMerged(after, rooms, entries, parsers)
  {
    var name, rooms1 := entries[0].0, Put(rooms, entries[0].0, merged);
    var newRooms := Lookup(after.fields, "rooms").value.fields;
    assert Keys(rooms1) == Keys(rooms);
    forall n
      ensures if n in Keys(rooms) && n in Keys(entries)
              then Lookup(newRooms, n).Some? &&
                   MergeRoom(Lookup(rooms, n).value, Lookup(entries, n).value, parsers) ==
                   Success(Lookup(newRooms, n).value)
              else Lookup(newRooms, n) == Lookup(rooms, n)
    {
      if n == name {
        assert n !in Keys(entries[1..]);
        assert Lookup(newRooms, n) == Lookup(rooms1, n) == Some(merged);
      } else {
        assert Lookup(rooms1, n) == Lookup(rooms, n);
        assert Lookup(entries, n) == Lookup(entries[1..], n);
        assert n in Keys(entries) <==> n in Keys(entries[1..]);
      }
    }
  }

  /** The success condition of the remaining entries does not see the first room's merge. */
  lemma MergeEntriesIff(entries: Fields, rooms: Fields, rooms1: Fields, parsers: Parsers)
    requires |entries| > 0 && UniqueKeys(entries)
    requires Keys(rooms1) == Keys(rooms)
    requires forall n :: n != entries[0].0 ==> Lookup(rooms1, n) == Lookup(rooms, n)
    ensures (forall i :: 0 <= i < |entries| && entries[i].0 in Keys(rooms) ==>
               MergeRoom(Lookup(rooms, entries[i].0).value, entries[i].1, parsers).Success?) <==>
            (entries[0].0 in Keys(rooms) ==> MergeRoom(Lookup(rooms, entries[0].0).value, entries[0].1, parsers).Success?) &&
            (forall i :: 0 <= i < |entries[1..]| && entries[1..][i].0 in Keys(rooms1) ==>
               MergeRoom(Lookup(rooms1, entries[1..][i].0).value, entries[1..][i].1, parsers).Success?)
  {
    forall i | 0 <= i < |entries[1..]| ensures entries[1..][i].0 != entries[0].0 {
      assert Keys(entries)[i + 1] != Keys(entries)[0];
    }
  }

  // ----------------------------------------------------------------------- save

  /** `full_data['general_considerations']['building_management'] = data`. */
  function SaveBuildingManagement(doc: Json, data: Json): (r: Result<Json, PyExc>)
    ensures r.Success? <==>
      doc.JObject? && "general_considerations" in Keys(doc.fields) &&
      Lookup(doc.fields, "general_considerations").value.JObject?
    ensures r.Success? ==>
      r.value.JObject? && Keys(r.value.fields) == Keys(doc.fields) &&
      (forall k :: k != "general_considerations" ==> Lookup(r.value.fields, k) == Lookup(doc.fields, k)) &&
      var section := Lookup(r.value.fields, "general_considerations");
      section.Some? && section.value.JObject? &&
      Lookup(section.value.fields, "building_management") == Some(data) &&
      forall k :: k != "building_management" ==>
        Lookup(section.value.fields, k) == Lookup(Lookup(doc.fields, "general_considerations").value.fields, k)
  {
    SetNested(doc, "general_considerations", "building_management", data)
  }

  /** `full_data['last_updated'] = timestamp; full_data['last_modified_by'] = 'user'`. */
  function Stamp(doc: Json, timestamp: string): (r: Result<Json, PyExc>)
    ensures r.Success? <==> doc.JObject?
    ensures r.Success? ==>
      r.value.JObject? &&
      Lookup(r.value.fields, "last_updated") == Some(JStr(timestamp)) &&
      Lookup(r.value.fields, "last_modified_by") == Some(JStr("user")) &&
      forall k :: k != "last_updated" && k != "last_modified_by" ==>
        Lookup(r.value.fields, k) == Lookup(doc.fields, k)
  {
    var d1 :- SetItem(doc, "last_updated", JStr(timestamp));
    SetItem(d1, "last_modified_by", JStr("user"))
  }
}
