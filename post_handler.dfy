/**
 * `do_POST` of the building-management server for the JSON endpoints: `/add_project`
 * and every other path except `/upload` (`/save`, `/save_rooms` and any unknown
 * path, which still stamps and saves the document).  The request body arrives as the
 * outcome of decoding it, the document as `load_json_file` produced it (or its error
 * text), the clock readings as text, and `saveOk` says which file names
 * `save_json_file` manages to write.  The outcome is the reply and the files written,
 * in order.
 */
module PostHandler {
  import opened Wrappers
  import opened JsonValues
  import opened PyOps
  import opened Validation
  import opened DocumentUpdates

  /** The document every request reads and writes. */
  const CurrentFile: string := "converted_source.json"

  /** `os.path.join('versions', f'renovation_data_{timestamp}.json')`. */
  function VersionFile(timestamp: string): string {
    "versions/renovation_data_" + timestamp + ".json"
  }

  /**
   * `json.loads(post_data.decode('utf-8'))`: the decoded value, or which of the two
   * steps raised (`UnicodeDecodeError` or `json.JSONDecodeError`).
   */
  datatype Body = Decoded(value: Json) | NotUtf8 | NotJson

  /** What an error reply says. */
  datatype Reason =
    | Text(message: string)
      /** `f"Room {room_name} not found"`. */
    | RoomMissing(name: Json)
      /** `f"Internal server error: {e}"` for an exception the handler did not expect. */
    | ServerError(exc: PyExc)
      /** `f"Internal server error: {e}"` for a body that could not be decoded. */
    | UndecodableBody

  datatype Reply = Ok(body: Json) | HttpError(status: int, reason: Reason)

  /** The reply sent and the files written, in the order they were written. */
  datatype Handled = Handled(reply: Reply, writes: seq<(string, Json)>)

  /**
   * The change a non-`/add_project` path makes to the loaded document before the
   * posted data is checked: `/save` stores the data as the building-management
   * section, `/save_rooms` walks `data.items()` (so a body that is not a dict raises
   * there), and any other path keeps the document as loaded.
   */
  function ApplyUpdate(path: string, doc: Json, data: Json, parsers: Parsers): (r: Result<Json, PyExc>)
    ensures path != "/save" && path != "/save_rooms" ==> r == Success(doc)
    ensures path == "/save" ==>
      (r.Success? <==> doc.JObject? && "general_considerations" in Keys(doc.fields) &&
                       Lookup(doc.fields, "general_considerations").value.JObject?)
    ensures path == "/save" && r.Success? ==>
      r.value.JObject? && HasObject(r.value.fields, "general_considerations") &&
      Lookup(ObjectAt(r.value.fields, "general_considerations"), "building_management") == Some(data)
    ensures path == "/save_rooms" && !data.JObject? ==>
      r == Failure(AttributeError("'" + TypeName(data) + "' object has no attribute 'items'"))
  {
    if path == "/save" then SaveBuildingManagement(doc, data)
    else if path == "/save_rooms" then MergeRoomsSpec(doc, data, parsers)
    else Success(doc)
  }

  /** The `/add_project` branch. */
  function AddProjectRequest(body: Body, loaded: Result<Json, string>, parsers: Parsers,
                             createdAt: string, saveOk: string -> bool): (h: Handled)
    ensures !body.Decoded? ==> h == Handled(HttpError(500, UndecodableBody), [])
    ensures body.Decoded? && ValidateSaveData(body.value, "/add_project").Invalid? ==>
      h == Handled(HttpError(400, Text(ValidateSaveData(body.value, "/add_project").message)), [])
    ensures body.Decoded? && ValidateSaveData(body.value, "/add_project").Valid? && loaded.Failure? ==>
      h == Handled(HttpError(500, Text("Error loading data: " + loaded.error)), [])
    ensures body.Decoded? && ValidateSaveData(body.value, "/add_project").Valid? && loaded.Success? &&
            AddProject(loaded.value, body.value, createdAt, parsers).Failure? ==>
      h.writes == [] &&
      var e := AddProject(loaded.value, body.value, createdAt, parsers).error;
      h.reply == if e.RoomNotFound? then HttpError(400, RoomMissing(e.room)) else HttpError(500, ServerError(e.exc))
    ensures body.Decoded? && ValidateSaveData(body.value, "/add_project").Valid? && loaded.Success? &&
            AddProject(loaded.value, body.value, createdAt, parsers).Success? ==>
      (h.reply.Ok? <==> saveOk(CurrentFile)) &&
      (!saveOk(CurrentFile) ==> h == Handled(HttpError(500, Text("Failed to save updated data")), []))
    ensures h.writes != [] ==>
      body.Decoded? && loaded.Success? && ValidateSaveData(body.value, "/add_project").Valid? &&
      AddProject(loaded.value, body.value, createdAt, parsers).Success? &&
      h.writes == [(CurrentFile, AddProject(loaded.value, body.value, createdAt, parsers).value)]
    ensures h.reply.Ok? <==> h.writes != []
  {
    match body
    case NotUtf8 => Handled(HttpError(500, UndecodableBody), [])
    case NotJson => Handled(HttpError(500, UndecodableBody), [])
    case Decoded(data) =>
      match ValidateSaveData(data, "/add_project")
      case Invalid(msg) => Handled(HttpError(400, Text(msg)), [])
      case Valid =>
        match loaded
        case Failure(e) => Handled(HttpError(500, Text("Error loading data: " + e)), [])
        case Success(doc) =>
          match AddProject(doc, data, createdAt, parsers)
          case Failure(RoomNotFound(name)) => Handled(HttpError(400, RoomMissing(name)), [])
          case Failure(AddRaised(e)) => Handled(HttpError(500, ServerError(e)), [])
          case Success(updated) =>
            if !saveOk(CurrentFile) then Handled(HttpError(500, Text("Failed to save updated data")), [])
            else
              Handled(Ok(JObject([("status", JStr("success")), ("message", JStr("Project added successfully"))])),
                      [(CurrentFile, updated)])
  }

  /**
   * Every other JSON path: apply the path's update, only then validate the posted
   * data, stamp the document and save it as a new version and as the current file.
   * Only a JSON error is answered with 400; a body that is not UTF-8 raises past
   * that handler to the outer one.
   */
  function SaveRequest(path: string, body: Body, loaded: Result<Json, string>, parsers: Parsers,
                       timestamp: string, saveOk: string -> bool): (h: Handled)
    ensures body.NotJson? ==> h == Handled(HttpError(400, Text("Invalid JSON data")), [])
    ensures body.NotUtf8? ==> h == Handled(HttpError(500, UndecodableBody), [])
    ensures body.Decoded? && loaded.Failure? ==>
      h == Handled(HttpError(500, Text("Error loading data: " + loaded.error)), [])
    ensures body.Decoded? && loaded.Success? && ApplyUpdate(path, loaded.value, body.value, parsers).Failure? ==>
      h == Handled(HttpError(500, ServerError(ApplyUpdate(path, loaded.value, body.value, parsers).error)), [])
    ensures body.Decoded? && loaded.Success? && ApplyUpdate(path, loaded.value, body.value, parsers).Success? &&
            ValidateSaveData(body.value, path).Invalid? ==>
      h == Handled(HttpError(400, Text(ValidateSaveData(body.value, path).message)), [])
    ensures body.Decoded? && loaded.Success? && ApplyUpdate(path, loaded.value, body.value, parsers).Success? &&
            ValidateSaveData(body.value, path).Valid? &&
            Stamp(ApplyUpdate(path, loaded.value, body.value, parsers).value, timestamp).Success? ==>
      (h.reply.Ok? <==> saveOk(VersionFile(timestamp)) && saveOk(CurrentFile))
    ensures h.writes != [] ==>
      body.Decoded? && loaded.Success? && ValidateSaveData(body.value, path).Valid? &&
      ApplyUpdate(path, loaded.value, body.value, parsers).Success? &&
      var stamped := Stamp(ApplyUpdate(path, loaded.value, body.value, parsers).value, timestamp);
      stamped.Success? && h.writes[0] == (VersionFile(timestamp), stamped.value) &&
      (forall w | w in h.writes :: w.1 == stamped.value) &&
      (h.reply.Ok? <==> h.writes == [(VersionFile(timestamp), stamped.value), (CurrentFile, stamped.value)])
    ensures h.reply.Ok? ==> |h.writes| == 2
  {
    match body
    case NotJson => Handled(HttpError(400, Text("Invalid JSON data")), [])
    case NotUtf8 => Handled(HttpError(500, UndecodableBody), [])
    case Decoded(data) =>
      match loaded
      case Failure(e) => Handled(HttpError(500, Text("Error loading data: " + e)), [])
      case Success(doc) =>
        match ApplyUpdate(path, doc, data, parsers)
        case Failure(e) => Handled(HttpError(500, ServerError(e)), [])
        case Success(updated) => SaveUpdated(path, data, updated, timestamp, saveOk)
  }

  /**
   * What follows the path's update: the posted data is validated, the updated document
   * stamped, and the result saved as a new version and as the current file.
   */
  function SaveUpdated(path: string, data: Json, updated: Json, timestamp: string,
                       saveOk: string -> bool): (h: Handled)
    ensures ValidateSaveData(data, path).Invalid? ==>
      h == Handled(HttpError(400, Text(ValidateSaveData(data, path).message)), [])
    ensures ValidateSaveData(data, path).Valid? && !updated.JObject? ==>
      h.writes == [] && h.reply.HttpError? && h.reply.status == 500
    ensures ValidateSaveData(data, path).Valid? && updated.JObject? ==>
      (h.reply.Ok? <==> saveOk(VersionFile(timestamp)) && saveOk(CurrentFile))
    ensures h.writes != [] ==>
      ValidateSaveData(data, path).Valid? && Stamp(updated, timestamp).Success? &&
      var stamped := Stamp(updated, timestamp).value;
      h.writes[0] == (VersionFile(timestamp), stamped) &&
      (forall w | w in h.writes :: w.1 == stamped) &&
      (h.reply.Ok? <==> h.writes == [(VersionFile(timestamp), stamped), (CurrentFile, stamped)])
    ensures h.reply.Ok? ==> |h.writes| == 2
  {
    match ValidateSaveData(data, path)
    case Invalid(msg) => Handled(HttpError(400, Text(msg)), [])
    case Valid =>
      match Stamp(updated, timestamp)
      case Failure(e) => Handled(HttpError(500, ServerError(e)), [])
      case Success(stamped) => SaveVersions(stamped, timestamp, saveOk)
  }

  /** The stamped document saved first as a new version, then as the current file. */
  function SaveVersions(stamped: Json, timestamp: string, saveOk: string -> bool): (h: Handled)
    ensures h.reply.Ok? <==> saveOk(VersionFile(timestamp)) && saveOk(CurrentFile)
    ensures !saveOk(VersionFile(timestamp)) ==> h == Handled(HttpError(500, Text("Failed to save version file")), [])
    ensures saveOk(VersionFile(timestamp)) && !saveOk(CurrentFile) ==>
      h == Handled(HttpError(500, Text("Failed to update current version")), [(VersionFile(timestamp), stamped)])
    ensures h.reply.Ok? ==>
      h.reply.body.JObject? && Lookup(h.reply.body.fields, "timestamp") == Some(JStr(timestamp))
    ensures h.writes != [] ==> h.writes[0] == (VersionFile(timestamp), stamped)
    ensures forall w | w in h.writes :: w.1 == stamped
    ensures h.reply.Ok? <==> h.writes == [(VersionFile(timestamp), stamped), (CurrentFile, stamped)]
  {
    if !saveOk(VersionFile(timestamp)) then
      Handled(HttpError(500, Text("Failed to save version file")), [])
    else if !saveOk(CurrentFile) then
      Handled(HttpError(500, Text("Failed to update current version")), [(VersionFile(timestamp), stamped)])
    else
      Handled(Ok(JObject([("status", JStr("success")), ("timestamp", JStr(timestamp)),
                          ("message", JStr("Changes saved successfully"))])),
              [(VersionFile(timestamp), stamped), (CurrentFile, stamped)])
  }

  /** `do_POST` for every path but `/upload`. */
  function HandlePost(path: string, body: Body, loaded: Result<Json, string>, parsers: Parsers,
                      createdAt: string, timestamp: string, saveOk: string -> bool): (h: Handled)
    requires path != "/upload"
    ensures path == "/add_project" ==> h == AddProjectRequest(body, loaded, parsers, createdAt, saveOk)
    ensures path != "/add_project" ==> h == SaveRequest(path, body, loaded, parsers, timestamp, saveOk)
    ensures h.reply.Ok? ==> h.writes != [] && h.writes[|h.writes| - 1].0 == CurrentFile && saveOk(CurrentFile)
    ensures !body.Decoded? ==> h.writes == [] && h.reply.HttpError?
    ensures loaded.Failure? ==> h.writes == []
  {
    if path == "/add_project" then AddProjectRequest(body, loaded, parsers, createdAt, saveOk)
    else SaveRequest(path, body, loaded, parsers, timestamp, saveOk)
  }

  /**
   * Whatever a non-`/add_project` request writes carries `last_updated` equal to the
   * request's timestamp and `last_modified_by` equal to `"user"`.
   */
  lemma SaveStampsEveryWrite(path: string, body: Body, loaded: Result<Json, string>, parsers: Parsers,
                             createdAt: string, timestamp: string, saveOk: string -> bool)
    requires path != "/upload" && path != "/add_project"
    ensures var h := HandlePost(path, body, loaded, parsers, createdAt, timestamp, saveOk);
      forall w | w in h.writes ::
        w.1.JObject? &&
        Lookup(w.1.fields, "last_updated") == Some(JStr(timestamp)) &&
        Lookup(w.1.fields, "last_modified_by") == Some(JStr("user"))
  {
    var h := HandlePost(path, body, loaded, parsers, createdAt, timestamp, saveOk);
    assert h == SaveRequest(path, body, loaded, parsers, timestamp, saveOk);
    if h.writes != [] {
      var stamped := Stamp(ApplyUpdate(path, loaded.value, body.value, parsers).value, timestamp);
      assert forall w | w in h.writes :: w.1 == stamped.value;
    }
  }

  /**
   * `after` is `doc` with `general_considerations.building_management` set to `data`:
   * the rest of that section and every top-level key but the section and the two
   * stamps are as in `doc`.
   */
  ghost predicate SectionReplaced(after: Json, doc: Fields, data: Json) {
    after.JObject? && HasObject(doc, "general_considerations") &&
    var section := Lookup(after.fields, "general_considerations");
    section.Some? && section.value.JObject? &&
    Lookup(section.value.fields, "building_management") == Some(data) &&
    (forall k :: k != "building_management" ==>
       Lookup(section.value.fields, k) == Lookup(ObjectAt(doc, "general_considerations"), k)) &&
    forall k :: k != "general_considerations" && k != "last_updated" && k != "last_modified_by" ==>
      Lookup(after.fields, k) == Lookup(doc, k)
  }

  /** The `/save` assignment replaces the section entry and nothing else. */
  lemma SaveSetsSection(doc: Json, data: Json)
    requires SaveBuildingManagement(doc, data).Success?
    ensures doc.JObject? && SectionReplaced(SaveBuildingManagement(doc, data).value, doc.fields, data)
  {
    SaveSetsSectionEntries(doc, data);
    SaveKeepsTopLevel(doc, data);
  }

  /** The section part of `SectionReplaced` for the `/save` assignment. */
  lemma SaveSetsSectionEntries(doc: Json, data: Json)
    requires SaveBuildingManagement(doc, data).Success?
    ensures doc.JObject? && HasObject(doc.fields, "general_considerations")
    ensures var section := Lookup(SaveBuildingManagement(doc, data).value.fields, "general_considerations");
      section.Some? && section.value.JObject? &&
      Lookup(section.value.fields, "building_management") == Some(data) &&
      forall k :: k != "building_management" ==>
        Lookup(section.value.fields, k) == Lookup(ObjectAt(doc.fields, "general_considerations"), k)
  {
    var saved := SaveBuildingManagement(doc, data).value;
    SectionEntriesKept(doc.fields, Lookup(saved.fields, "general_considerations").value, data);
  }

  /** A section whose entries match the loaded dict but for `building_management` matches `ObjectAt`. */
  lemma SectionEntriesKept(doc: Fields, section: Json, data: Json)
    requires HasObject(doc, "general_considerations") && section.JObject?
    requires forall k :: k != "building_management" ==>
      Lookup(section.fields, k) == Lookup(Lookup(doc, "general_considerations").value.fields, k)
    ensures forall k :: k != "building_management" ==>
      Lookup(section.fields, k) == Lookup(ObjectAt(doc, "general_considerations"), k)
  {
    assert ObjectAt(doc, "general_considerations") == Lookup(doc, "general_considerations").value.fields;
  }

  /** The top-level part of `SectionReplaced` for the `/save` assignment. */
  lemma SaveKeepsTopLevel(doc: Json, data: Json)
    requires SaveBuildingManagement(doc, data).Success?
    ensures doc.JObject? && SaveBuildingManagement(doc, data).value.JObject?
    ensures forall k :: k != "general_considerations" && k != "last_updated" && k != "last_modified_by" ==>
      Lookup(SaveBuildingManagement(doc, data).value.fields, k) == Lookup(doc.fields, k)
  {
  }

  /** Stamping keeps what the `/save` assignment did. */
  lemma StampKeepsSection(saved: Json, doc: Fields, data: Json, timestamp: string)
    requires SectionReplaced(saved, doc, data)
    ensures Stamp(saved, timestamp).Success? && SectionReplaced(Stamp(saved, timestamp).value, doc, data)
  {
    var stamped := Stamp(saved, timestamp).value;
    assert Lookup(stamped.fields, "general_considerations") == Lookup(saved.fields, "general_considerations");
  }

  /**
   * A successful `/save` was posted a dict, and what it writes is the loaded document
   * with `general_considerations.building_management` replaced by the posted data.
   */
  lemma SaveReplacesBuildingManagement(body: Body, loaded: Result<Json, string>, parsers: Parsers,
                                       createdAt: string, timestamp: string, saveOk: string -> bool)
    requires HandlePost("/save", body, loaded, parsers, createdAt, timestamp, saveOk).reply.Ok?
    ensures body.Decoded? && body.value.JObject? && loaded.Success? && loaded.value.JObject?
    ensures forall w | w in HandlePost("/save", body, loaded, parsers, createdAt, timestamp, saveOk).writes ::
      SectionReplaced(w.1, loaded.value.fields, body.value)
  {
    var h := HandlePost("/save", body, loaded, parsers, createdAt, timestamp, saveOk);
    assert h == SaveRequest("/save", body, loaded, parsers, timestamp, saveOk);
    assert h.writes != [];
    assert ApplyUpdate("/save", loaded.value, body.value, parsers) == SaveBuildingManagement(loaded.value, body.value);
    SaveSetsSection(loaded.value, body.value);
    StampKeepsSection(SaveBuildingManagement(loaded.value, body.value).value, loaded.value.fields, body.value, timestamp);
  }

  /** Stamping after the `/save_rooms` merge keeps what the merge did. */
  lemma StampKeepsMerge(doc: Json, rooms: Fields, entries: Fields, parsers: Parsers, timestamp: string)
    requires doc.JObject? && Lookup(doc.fields, "rooms") == Some(JObject(rooms)) && UniqueKeys(entries)
    requires MergeEntries(doc, entries, parsers).Success?
    ensures Stamp(MergeEntries(doc, entries, parsers).value, timestamp).Success?
    ensures var after := Stamp(MergeEntries(doc, entries, parsers).value, timestamp).value;
      RoomsMerged(after, rooms, entries, parsers) &&
      forall k :: k != "rooms" && k != "last_updated" && k != "last_modified_by" ==>
        Lookup(after.fields, k) == Lookup(doc.fields, k)
  {
    MergeEntriesEffect(doc, rooms, entries, parsers);
    var merged := MergeEntries(doc, entries, parsers).value;
    var stamped := Stamp(merged, timestamp).value;
    assert Lookup(stamped.fields, "rooms") == Lookup(merged.fields, "rooms");
  }

  /**
   * A successful `/save_rooms` over a posted dict with unique keys writes the document
   * with exactly the rooms present in both merged, the other rooms untouched and no
   * room added; keys other than `rooms` and the two stamps are as loaded.
   */
  lemma SaveRoomsWritesMerge(body: Body, loaded: Result<Json, string>, parsers: Parsers,
                             createdAt: string, timestamp: string, saveOk: string -> bool, rooms: Fields)
    requires HandlePost("/save_rooms", body, loaded, parsers, createdAt, timestamp, saveOk).reply.Ok?
    requires loaded.Success? && loaded.value.JObject? && Lookup(loaded.value.fields, "rooms") == Some(JObject(rooms))
    requires body.Decoded? && body.value.JObject? && UniqueKeys(body.value.fields)
    ensures forall w | w in HandlePost("/save_rooms", body, loaded, parsers, createdAt, timestamp, saveOk).writes ::
      RoomsMerged(w.1, rooms, body.value.fields, parsers) &&
      forall k :: k != "rooms" && k != "last_updated" && k != "last_modified_by" ==>
        Lookup(w.1.fields, k) == Lookup(loaded.value.fields, k)
  {
    var h := HandlePost("/save_rooms", body, loaded, parsers, createdAt, timestamp, saveOk);
    assert h == SaveRequest("/save_rooms", body, loaded, parsers, timestamp, saveOk);
    assert h.writes != [];
    assert ApplyUpdate("/save_rooms", loaded.value, body.value, parsers) ==
           MergeEntries(loaded.value, body.value.fields, parsers);
    StampKeepsMerge(loaded.value, rooms, body.value.fields, parsers, timestamp);
  }

  /**
   * `/save_rooms` with a body that is not a dict fails in the merge loop
   * (`data.items()`) before validation runs, so the reply is a 500 and not the
   * validator's 400 "Room data must be a dictionary"; nothing is written.
   */
  lemma SaveRoomsNonDictIsServerError(data: Json, doc: Json, parsers: Parsers,
                                      createdAt: string, timestamp: string, saveOk: string -> bool)
    requires !data.JObject?
    ensures HandlePost("/save_rooms", Decoded(data), Success(doc), parsers, createdAt, timestamp, saveOk) ==
      Handled(HttpError(500, ServerError(AttributeError("'" + TypeName(data) + "' object has no attribute 'items'"))), [])
  {
  }

  /**
   * `/save` with a body that is not a dict is refused by validation after the update,
   * with the validator's message, and nothing is written.
   */
  lemma SaveNonDictIsRefused(data: Json, doc: Json, parsers: Parsers,
                             createdAt: string, timestamp: string, saveOk: string -> bool)
    requires !data.JObject?
    requires doc.JObject? && Lookup(doc.fields, "general_considerations").Some?
    requires Lookup(doc.fields, "general_considerations").value.JObject?
    ensures HandlePost("/save", Decoded(data), Success(doc), parsers, createdAt, timestamp, saveOk) ==
      Handled(HttpError(400, Text("Building management data must be a dictionary")), [])
  {
  }

  /**
   * `/add_project` naming a room the document lacks is a 400 naming that room, and
   * nothing is written.
   */
  lemma AddProjectUnknownRoomWritesNothing(data: Json, doc: Json, parsers: Parsers, createdAt: string,
                                           timestamp: string, saveOk: string -> bool, rooms: Fields, name: string)
    requires doc.JObject? && Lookup(doc.fields, "rooms") == Some(JObject(rooms))
    requires data.JObject? && Lookup(data.fields, "room_name") == Some(JStr(name)) && name !in Keys(rooms)
    requires forall f :: f in ProjectFields ==> f in Keys(data.fields)
    ensures HandlePost("/add_project", Decoded(data), Success(doc), parsers, createdAt, timestamp, saveOk) ==
      Handled(HttpError(400, RoomMissing(JStr(name))), [])
  {
    AddProjectOnDict(data);
    AddProjectUnknownRoom(doc, data, createdAt, parsers, rooms, name);
  }
  /**
   * A `/save` of a dict onto a document whose `general_considerations` is a dict
   * succeeds exactly when both files can be written.
   */
  lemma SaveSucceeds(data: Json, doc: Json, parsers: Parsers, createdAt: string, timestamp: string,
                     saveOk: string -> bool)
    requires data.JObject?
    requires doc.JObject? && "general_considerations" in Keys(doc.fields)
    requires Lookup(doc.fields, "general_considerations").value.JObject?
    ensures HandlePost("/save", Decoded(data), Success(doc), parsers, createdAt, timestamp, saveOk).reply.Ok? <==>
      saveOk(VersionFile(timestamp)) && saveOk(CurrentFile)
  {
    var updated := ApplyUpdate("/save", doc, data, parsers);
    assert updated.Success? && updated.value.JObject?;
    assert Stamp(updated.value, timestamp).Success?;
  }

  /**
   * A `/save_rooms` of a dict of dicts onto a document whose `rooms` is a dict succeeds
   * exactly when every posted room the document has can be merged and both files can
   * be written.
   */
  lemma SaveRoomsSucceeds(data: Json, doc: Json, rooms: Fields, parsers: Parsers, createdAt: string,
                          timestamp: string, saveOk: string -> bool)
    requires data.JObject? && UniqueKeys(data.fields)
    requires forall i :: 0 <= i < |data.fields| ==> data.fields[i].1.JObject?
    requires doc.JObject? && Lookup(doc.fields, "rooms") == Some(JObject(rooms))
    ensures HandlePost("/save_rooms", Decoded(data), Success(doc), parsers, createdAt, timestamp, saveOk).reply.Ok? <==>
      (forall i :: 0 <= i < |data.fields| && data.fields[i].0 in Keys(rooms) ==>
         MergeRoom(Lookup(rooms, data.fields[i].0).value, data.fields[i].1, parsers).Success?) &&
      saveOk(VersionFile(timestamp)) && saveOk(CurrentFile)
  {
    MergeEntriesEffect(doc, rooms, data.fields, parsers);
    var updated := ApplyUpdate("/save_rooms", doc, data, parsers);
    assert updated == MergeEntries(doc, data.fields, parsers);
    assert ValidateSaveData(data, "/save_rooms").Valid?;
    if updated.Success? {
      assert Stamp(updated.value, timestamp).Success?;
    }
  }

  /**
   * A `/save_rooms` whose every posted room the document has meets `RoomMergeable`
   * succeeds when both files can be written.
   */
  lemma SaveRoomsSucceedsWhenMergeable(data: Json, doc: Json, rooms: Fields, parsers: Parsers, createdAt: string,
                                       timestamp: string, saveOk: string -> bool)
    requires data.JObject? && UniqueKeys(data.fields)
    requires forall i :: 0 <= i < |data.fields| ==> data.fields[i].1.JObject?
    requires doc.JObject? && Lookup(doc.fields, "rooms") == Some(JObject(rooms))
    requires forall i :: 0 <= i < |data.fields| && data.fields[i].0 in Keys(rooms) ==>
      RoomMergeable(Lookup(rooms, data.fields[i].0).value, data.fields[i].1, parsers)
    requires saveOk(VersionFile(timestamp)) && saveOk(CurrentFile)
    ensures HandlePost("/save_rooms", Decoded(data), Success(doc), parsers, createdAt, timestamp, saveOk).reply.Ok?
  {
    forall i | 0 <= i < |data.fields| && data.fields[i].0 in Keys(rooms)
      ensures MergeRoom(Lookup(rooms, data.fields[i].0).value, data.fields[i].1, parsers).Success?
    {
      MergeRoomSucceedsWhen(Lookup(rooms, data.fields[i].0).value, data.fields[i].1, parsers);
    }
    SaveRoomsSucceeds(data, doc, rooms, parsers, createdAt, timestamp, saveOk);
  }

  /**
   * An `/add_project` naming a dict room the document has, with every field present,
   * a budget `float()` accepts and a `projects` list (or none) in the room, succeeds
   * when the current file can be written; the one file written holds the document
   * with exactly the new project appended to that room.
   */
  lemma AddProjectSucceeds(data: Json, doc: Json, parsers: Parsers, createdAt: string, timestamp: string,
                           saveOk: string -> bool, rooms: Fields, name: string, room: Fields)
    requires doc.JObject? && Lookup(doc.fields, "rooms") == Some(JObject(rooms))
    requires data.JObject? && Lookup(data.fields, "room_name") == Some(JStr(name))
    requires Lookup(rooms, name) == Some(JObject(room))
    requires "title" in Keys(data.fields) && "description" in Keys(data.fields)
    requires "budget" in Keys(data.fields) && "priority" in Keys(data.fields)
    requires Float(Lookup(data.fields, "budget").value, parsers).Success?
    requires "projects" in Keys(room) ==> Lookup(room, "projects").value.JArray?
    requires saveOk(CurrentFile)
    ensures var h := HandlePost("/add_project", Decoded(data), Success(doc), parsers, createdAt, timestamp, saveOk);
      h.reply.Ok? && |h.writes| == 1 && h.writes[0].0 == CurrentFile && h.writes[0].1.JObject? &&
      ProjectAdded(rooms, h.writes[0].1.fields, name,
                   ProjectRecord(Lookup(data.fields, "title").value, Lookup(data.fields, "description").value,
                                 Float(Lookup(data.fields, "budget").value, parsers).value,
                                 Lookup(data.fields, "priority").value, createdAt))
  {
    AddProjectToKnownRoom(doc, data, createdAt, parsers, rooms, name, room);
    var added := AddProject(doc, data, createdAt, parsers).value;
    assert "room_name" in Keys(data.fields);
    assert forall f :: f in ProjectFields ==> f in Keys(data.fields);
    AddProjectOnDict(data);
    AddProjectWritesUpdate(data, doc, parsers, createdAt, timestamp, saveOk);
    var h := HandlePost("/add_project", Decoded(data), Success(doc), parsers, createdAt, timestamp, saveOk);
    assert h.writes[0].1 == added;
  }

  /** A valid request whose add succeeds writes the updated document once, and only that. */
  lemma AddProjectWritesUpdate(data: Json, doc: Json, parsers: Parsers, createdAt: string, timestamp: string,
                               saveOk: string -> bool)
    requires ValidateSaveData(data, "/add_project").Valid?
    requires AddProject(doc, data, createdAt, parsers).Success? && saveOk(CurrentFile)
    ensures var h := HandlePost("/add_project", Decoded(data), Success(doc), parsers, createdAt, timestamp, saveOk);
      h.reply.Ok? && h.writes == [(CurrentFile, AddProject(doc, data, createdAt, parsers).value)]
  {
  }
}
