# Renovation manager: request validation, document updates and item lists

This project models the core of a small apartment-renovation manager.

The renovation data is one JSON document. It has a `rooms` dictionary, per-room
`priority`, `budget`, `square_footage`, `painting` and `projects`, and a
`general_considerations.building_management` section. A small HTTP server
(`building_management_server.py`) reads and writes that document. An older console
program (`oldmain.py`) keeps a separate list of miscellaneous items.

What is modelled:

- **JSON values and Python dictionaries** (`json.dfy`, `pyops.dfy`).
  - A dictionary is an ordered list of fields.
  - `d[k] = v` is `JsonValues.Put` and `d.get(k)` is `JsonValues.Lookup`.
  - The Python operations the handlers use are functions that return either a value
    or the exception CPython raises: `in`, `[]`, `[]=`, `append`, `update`, `float()`
    and `int()`.
- **The validators `validate_save_data` and `validate_json_structure`**
  (`validation.dfy`). Each returns a verdict: valid, or invalid with the exact message
  text the server produces. Both are characterised by predicates, and lemmas pin down
  which message the first offending field or room produces.
- **Choosing files** (`file_selection.dfy`).
  - The latest version file is the greatest `.json` name under Python's string order.
  - The latest backup is the greatest `<basename>.*.bak` name.
  - Python's string order is proved to be a strict total order, and the greatest name
    is proved to be unique.
- **Response chunking** (`chunking.dfy`). A loop splits the reply text into 8192-character
  chunks that concatenate back to the text.
- **The document updates of `do_POST`** (`updates.dfy`):
  - appending a project to a room for `/add_project`;
  - replacing `building_management` for `/save`;
  - merging posted rooms for `/save_rooms`: priority, budget amount and notes, square
    footage and the painting walls. The merge loop is a method proved equal to a
    recursive specification, and lemmas state what the merged document holds;
  - stamping `last_updated` and `last_modified_by`.
- **`do_POST` as a whole for the JSON paths** (`post_handler.dfy`). Given the outcome of
  decoding the body, the loaded document, the clock and which saves succeed, it gives
  the reply status and message and the files written, in order. Lemmas state when a
  request succeeds as well as what a success implies.
- **The miscellaneous-items manager of `oldmain.py`** (`misc_items.dfy`).
  - A class holds the item list. Its methods add, edit and remove items (by 1-based
    number) and total the costs, each proved against a specification of the new list;
    adding and removing are also proved to change the total by the item's cost.
  - The list starts empty when `misc_items.json` is missing.
  - The room prompt of the main menu is also modelled.

Behaviour of the code worth noting:

- On `/save` and `/save_rooms` the server applies the update before it validates the
  posted data. A non-dictionary `/save_rooms` body therefore fails in `data.items()`
  with a 500 "Internal server error", not the validator's 400
  (`PostHandler.SaveRoomsNonDictIsServerError`). A non-dictionary `/save` body is
  stored and then refused with 400; nothing is written in either case.
- An undecodable `/add_project` body is not answered with "Invalid JSON data". The
  decoder's exception reaches the outer handler, which answers 500.
- On the other paths only a JSON syntax error gets 400 "Invalid JSON data". A body
  that is not UTF-8 raises `UnicodeDecodeError`, which that handler does not catch, so
  the reply is 500.
- Any other path (neither `/upload`, `/add_project`, `/save` nor `/save_rooms`) is
  not refused: the document is stamped and saved as a new version anyway.

## Model

| member | source | states |
|---|---|---|
| JsonValues.Lookup | building_management_server.py:548 | `d.get(k)` finds a value exactly when `k` is a key, and that value is stored under `k` |
| JsonValues.Put | building_management_server.py:314 | `d[k] = v`: a new key goes at the end, an existing key keeps its place; afterwards `k` maps to `v` and every other key maps to what it did before |
| JsonValues.PutKeepsKeysUnique | building_management_server.py:360 | assigning into a dictionary never creates a duplicate key |
| JsonValues.PutKeepsWellFormed | building_management_server.py:360 | assigning a well-formed value into a well-formed dictionary keeps every nested dictionary duplicate-free |
| JsonValues.PutTwice | building_management_server.py:313-327 | assigning the same key twice leaves the dictionary as the last assignment alone would, as creating `projects` and then appending to it does |
| JsonValues.LookupOfUnique | building_management_server.py:365-368 | in a duplicate-free dictionary, looking up the key of entry `i` yields entry `i`'s value |
| PyOps.Contains | building_management_server.py:168 | `key in dict` on a dictionary and a string is key membership; any failure is a TypeError |
| PyOps.GetItem | building_management_server.py:307 | `dict[key]` succeeds exactly for a present key and returns its value; a string key succeeds only on a dictionary |
| PyOps.SetItem | building_management_server.py:314 | `x[key] = v` succeeds exactly on a dictionary and stores `v` under `key` |
| PyOps.SetNested | building_management_server.py:376-377 | `x[k1][k2] = v` succeeds exactly when `x` is a dictionary whose `x[k1]` is a dictionary; it updates that inner dictionary and leaves the rest alone |
| PyOps.Append | building_management_server.py:327 | `lst.append(v)` succeeds exactly on a list and adds `v` at its end |
| PyOps.Update | building_management_server.py:391 | `d.update(other)` succeeds only on a dictionary; with a dictionary argument it stores the argument's entries in order |
| PyOps.UpdateFromDictMerges | building_management_server.py:391 | after `d.update(other)`, keys of `other` map to `other`'s values and all other keys to `d`'s |
| PyOps.Truncate | building_management_server.py:382 | `int()` of a float truncates toward zero |
| PyOps.Float | building_management_server.py:320 | `float()` keeps an int's or float's value, maps `True`/`False` to 1.0/0.0, returns the parsed value of a string that parses and raises ValueError for one that does not, and raises TypeError for None, lists and dictionaries |
| PyOps.Int | building_management_server.py:382 | `int()` keeps an int, truncates a float, maps `True`/`False` to 1/0, returns the parsed value of a string that parses and raises ValueError for one that does not, and raises TypeError for None, lists and dictionaries |
| Validation.FirstMissingFrom | building_management_server.py:166-170 | finds the first required field that is absent or whose test raised; every field before it is present |
| Validation.FirstNonDictFrom | building_management_server.py:161-164 | finds the first posted room whose data is not a dictionary; every room before it is one |
| Validation.ValidateSaveData | building_management_server.py:149-175 | `/save` accepts exactly dictionaries; `/save_rooms` accepts exactly dictionaries of dictionaries; `/add_project` accepts exactly data containing all five project fields; other paths are accepted |
| Validation.SaveRoomsNamesFirstBadRoom | building_management_server.py:157-164 | the `/save_rooms` message names the first room whose data is not a dictionary |
| Validation.AddProjectOnDict | building_management_server.py:165-172 | for a dictionary, `/add_project` data is valid exactly when every required field is a key |
| Validation.AddProjectNamesFirstMissing | building_management_server.py:165-170 | the `/add_project` message names the first required field, in the listed order, that is missing |
| Validation.FirstBadRoomFrom | building_management_server.py:553-564 | finds the first room that is not a dictionary or lacks `priority` or `budget`, and which field it lacks first |
| Validation.ValidateJsonStructure | building_management_server.py:536-571 | a document is valid exactly when it has the four top-level fields, `rooms` is a dictionary and every room is a dictionary with `priority` and `budget` |
| Validation.RoomsVerdict | building_management_server.py:552-564 | the rooms part accepts exactly the rooms that are all well-formed |
| Validation.StructureNamesFirstMissingField | building_management_server.py:541-545 | the message names the first missing top-level field |
| Validation.StructureRejectsNonDictRooms | building_management_server.py:548-550 | with all fields present, a non-dictionary `rooms` gives "Rooms must be a dictionary" |
| Validation.StructureDefersToRooms | building_management_server.py:548-567 | once `rooms` is a dictionary, the verdict is the rooms' verdict |
| Validation.RoomsVerdictNamesFirstBadRoom | building_management_server.py:553-564 | the message names the first bad room and whether it is not a dictionary or lacks `priority` or `budget` (priority is checked first) |
| FileSelection.StrLessIrreflexive | building_management_server.py:42 | no name sorts before itself |
| FileSelection.StrLessTransitive | building_management_server.py:42 | Python's string order is transitive |
| FileSelection.StrLessTotal | building_management_server.py:42 | any two different names are ordered one way or the other |
| FileSelection.Greatest | building_management_server.py:42 | `sorted(names)[-1]` is absent exactly for an empty list and is otherwise a listed name that no other name exceeds |
| FileSelection.GreatestExtends | building_management_server.py:42 | a name greater than the greatest of a list is the greatest once appended |
| FileSelection.GreatestIsUnique | building_management_server.py:42 | any name that no other listed name exceeds is the one the selection returns |
| FileSelection.JsonFiles | building_management_server.py:38 | keeps exactly the listed names that end in `.json` |
| FileSelection.LatestVersion | building_management_server.py:30-43 | there is a latest version exactly when the directory exists and lists a `.json` name; it is `versions/` joined with the greatest such name |
| FileSelection.Basename | building_management_server.py:58 | the basename is the part of the path after its last `/` |
| FileSelection.BackupFiles | building_management_server.py:58 | keeps exactly the names that start with `<basename>.` and end in `.bak` |
| FileSelection.LatestBackup | building_management_server.py:56-60 | there is a backup to recover from exactly when one such name is listed, and it is the greatest of them |
| Chunking.Slice | building_management_server.py:191 | `s[i:i + n]` clamps to the text's end |
| Chunking.SplitIntoChunks | building_management_server.py:186-193 | the chunks concatenate back to the reply text; every chunk holds 1 to 8192 characters and all but the last exactly 8192; the empty text gives no chunk |
| DocumentUpdates.ProjectRecordIsPlanned | building_management_server.py:317-325 | a new project has status `planned`, no attachments, the budget as a float and the posted title |
| DocumentUpdates.EnsureProjects | building_management_server.py:312-314 | a dict room without `projects` gets exactly an empty list under that key; a room that has one is untouched; no other key changes |
| DocumentUpdates.AppendProject | building_management_server.py:327 | appending succeeds exactly when the room's `projects` is a list, and adds the project at its end |
| DocumentUpdates.AddToRoomAppends | building_management_server.py:312-327 | a room's projects become its existing projects (none if it had none) followed by the new one |
| DocumentUpdates.AppendToNewProjects | building_management_server.py:312-327 | a room without projects ends with exactly the new project |
| DocumentUpdates.AddProject | building_management_server.py:307-327 | a successful add keeps the document's keys and changes nothing but `rooms` |
| DocumentUpdates.LocateRoom | building_management_server.py:307-310 | a located room is `rooms[room_name]`: `rooms` is the document's entry, the name is the request's `room_name`, and for a dict `rooms` the name is a string key that maps to the returned room |
| DocumentUpdates.LocateKnownRoom | building_management_server.py:307-310 | a named room that exists is found, with its current data |
| DocumentUpdates.AddProjectUnknownRoom | building_management_server.py:307-310 | an unknown room name gives "room not found" naming that room |
| DocumentUpdates.AddProjectToKnownRoom | building_management_server.py:307-327 | for a known room and a parseable budget the add succeeds; the room's projects gain exactly the new record at their end and every other room and key is unchanged |
| DocumentUpdates.AppendedProjectIsAdded | building_management_server.py:327 | writing the extended room back into `rooms` adds the project to that room only |
| DocumentUpdates.ProjectsAppended | building_management_server.py:327 | the extended project list is the old list plus the new project |
| DocumentUpdates.RoomWrittenBack | building_management_server.py:327 | writing a room back changes that room only |
| DocumentUpdates.NewProjectFromRequest | building_management_server.py:317-325 | the project record takes the posted title, description, priority and `float(budget)`, with the creation time |
| DocumentUpdates.AddProjectLocatesRoom | building_management_server.py:307-327 | for a known room, the add is the located room with the new project added, written back under its name |
| DocumentUpdates.UpdatePriority | building_management_server.py:371 | `current_room['priority'] = room_data['priority']` succeeds exactly when both are dictionaries and the posted room has a priority |
| DocumentUpdates.UpdateBudget | building_management_server.py:374-377 | succeeds exactly when no budget is posted, or a posted budget dict with `amount` (which `float()` accepts) and `notes` meets a room whose `budget` is a dict; without a posted budget the room is unchanged; with one the amount becomes `float(amount)` and the notes are copied, leaving other budget keys and other room keys alone |
| DocumentUpdates.UpdateSquareFootage | building_management_server.py:380-382 | succeeds exactly when no square footage is posted, or a posted dict with a `value` that `int()` accepts meets a room whose `square_footage` is a dict; without a posted square footage the room is unchanged; with one its value becomes `int(value)` and nothing else changes |
| DocumentUpdates.EnsureWalls | building_management_server.py:389-390 | succeeds exactly on a painting dict; one without `walls` gets exactly an empty dict under that key; one with `walls` is untouched; existing walls and other painting keys are kept |
| DocumentUpdates.PrepareWalls | building_management_server.py:387-390 | succeeds exactly when the room has no `painting` or a dict there; the room then ends with a painting dictionary that has `walls`, keeps existing walls and painting keys, and changes no other room key |
| DocumentUpdates.MergeWalls | building_management_server.py:385-391 | without a posted painting, or with one for which `'walls' in painting` is false, the room is unchanged; if that test raises, the merge fails; posted walls given as a dict merge exactly when the room's painting is absent or a dict whose `walls` is absent or a dict, and the room's walls become the old walls updated by the posted ones; no other room key changes |
| DocumentUpdates.WallsMergeStep | building_management_server.py:391 | the walls `update` leaves the room's walls merged with the posted ones |
| DocumentUpdates.MergeRoomOverwrites | building_management_server.py:370-371 | a merged room takes the posted priority; keys other than the four updated ones keep their values |
| DocumentUpdates.MergeRoomKeepsBudget | building_management_server.py:375 | a room posted without `budget` keeps its budget |
| DocumentUpdates.MergeRoomKeepsSquareFootage | building_management_server.py:381 | a room posted without `square_footage` keeps it |
| DocumentUpdates.MergeRoomKeepsPainting | building_management_server.py:386 | a room posted without `painting` keeps its painting |
| DocumentUpdates.MergeRoomCopiesBudget | building_management_server.py:375-377 | a posted budget sets the amount to the float value and copies the notes |
| DocumentUpdates.MergeRoomCopiesSquareFootage | building_management_server.py:381-382 | a posted square footage sets its value to the integer value |
| DocumentUpdates.MergeRoomMergesWalls | building_management_server.py:386-391 | posted walls are merged into the room's walls |
| DocumentUpdates.MergeRoomSucceedsWhen | building_management_server.py:370-391 | a posted room merges whenever it has a priority, its budget and square footage can be merged, and its walls, if posted as a dict, fit the room's painting |
| DocumentUpdates.MergeRoomSucceedsOnly | building_management_server.py:370-391 | a posted room that merges had dicts on both sides, a priority, a mergeable budget and square footage, and, for walls posted as a dict, a painting that can take them |
| DocumentUpdates.MergeRoomSucceeds | building_management_server.py:370-391 | for a posted room with no painting or with dict walls, the merge succeeds exactly when those conditions hold |
| DocumentUpdates.MergeStepKnown | building_management_server.py:365-368 | a posted room that exists is merged and written back under its name |
| DocumentUpdates.MergeRooms | building_management_server.py:365-391 | the loop over the posted rooms gives what the recursive specification gives, failing with the first exception; a non-dictionary body fails in `.items()` |
| DocumentUpdates.MergeEntriesEffect | building_management_server.py:365-391 | the merge succeeds exactly when every posted room that exists merges; afterwards only `rooms` differs, every posted existing room is its merged form and every other room is unchanged |
| DocumentUpdates.FirstEntry | building_management_server.py:365 | in a duplicate-free body, the first room does not reappear and the rest is duplicate-free |
| DocumentUpdates.RoomsMergedStep | building_management_server.py:365-391 | merging the first room and then the rest gives the merged state for all of them |
| DocumentUpdates.MergeEntriesIff | building_management_server.py:365-391 | every room merges exactly when the first room merges and every later one merges |
| DocumentUpdates.SaveBuildingManagement | building_management_server.py:358-360 | succeeds exactly when `general_considerations` is a dictionary; sets its `building_management` to the posted data and changes nothing else |
| DocumentUpdates.Stamp | building_management_server.py:405-407 | sets `last_updated` to the timestamp and `last_modified_by` to `user`; nothing else changes |
| PostHandler.ApplyUpdate | building_management_server.py:358-392 | `/save` succeeds exactly when `general_considerations` is a dict, and then holds the posted data as `building_management`; a non-dict `/save_rooms` body fails in `.items()`; any other path keeps the loaded document |
| PostHandler.AddProjectRequest | building_management_server.py:289-337 | an undecodable body gives 500 and invalid data 400; a failed load gives 500 "Error loading data: ..."; an unknown room gives 400 naming it and any other failure of the add 500, all without a write; after a successful add the reply is a success exactly when the current file can be saved, and then exactly the updated document is written to `converted_source.json`; otherwise 500 "Failed to save updated data" |
| PostHandler.SaveRequest | building_management_server.py:339-427 | a body that is not JSON gives 400 "Invalid JSON data" but one that is not UTF-8 gives 500; a failed load gives 500; a failed update gives 500 with its exception; invalid data after a successful update gives 400 with the validator's message; with valid data and a stampable document the reply is a success exactly when both files can be saved; every write is the stamped document, the version file first |
| PostHandler.SaveUpdated | building_management_server.py:394-427 | invalid data gives 400 with the validator's message; a document that cannot be stamped gives 500 without a write; otherwise the reply is a success exactly when both files can be saved, and the writes are the stamped document, version file first |
| PostHandler.SaveVersions | building_management_server.py:409-427 | the reply is a success exactly when both saves succeed; a failed version save gives 500 "Failed to save version file" and writes nothing; a failed current save gives 500 "Failed to update current version" after writing only the version file; a success reports the timestamp and writes the version file, then the current file |
| PostHandler.HandlePost | building_management_server.py:260-431 | `/add_project` is handled by the add-project branch and every other path by the save branch; a success always means `converted_source.json` was saved last; an undecodable body or a failed load never writes |
| PostHandler.SaveStampsEveryWrite | building_management_server.py:401-421 | every file a save request writes carries the request's timestamp and `last_modified_by` `user` |
| PostHandler.SaveSetsSection | building_management_server.py:358-360 | `/save` leaves `building_management` set to the posted data and every other key as loaded |
| PostHandler.SaveSetsSectionEntries | building_management_server.py:360 | after `/save` the section holds the posted data under `building_management` and keeps its other entries |
| PostHandler.SaveKeepsTopLevel | building_management_server.py:360 | the `/save` assignment changes no top-level key but `general_considerations` |
| PostHandler.StampKeepsSection | building_management_server.py:405-407 | stamping keeps the replaced building-management section |
| PostHandler.SaveReplacesBuildingManagement | building_management_server.py:358-427 | a successful `/save` writes documents whose building-management section is the posted data, with the rest of the document as loaded |
| PostHandler.StampKeepsMerge | building_management_server.py:405-407 | stamping keeps the merged rooms |
| PostHandler.SaveRoomsWritesMerge | building_management_server.py:362-427 | a successful `/save_rooms` writes documents whose existing posted rooms are merged and whose other rooms are unchanged |
| PostHandler.SaveRoomsNonDictIsServerError | building_management_server.py:362-365 | a non-dictionary `/save_rooms` body fails in `.items()` with a 500 and nothing is written |
| PostHandler.SaveNonDictIsRefused | building_management_server.py:394-399 | a non-dictionary `/save` body is refused with 400 "Building management data must be a dictionary" and nothing is written |
| PostHandler.AddProjectUnknownRoomWritesNothing | building_management_server.py:307-310 | a project for an unknown room gives 400 naming the room and nothing is written |
| PostHandler.SaveSucceeds | building_management_server.py:358-427 | a `/save` of a dict onto a document whose `general_considerations` is a dict succeeds exactly when both files can be saved |
| PostHandler.SaveRoomsSucceeds | building_management_server.py:362-427 | a `/save_rooms` of a dict of dicts onto a document with a `rooms` dict succeeds exactly when every posted room the document has merges and both files can be saved |
| PostHandler.SaveRoomsSucceedsWhenMergeable | building_management_server.py:362-427 | a `/save_rooms` of a dict of dicts whose every posted room the document has meets those merge conditions succeeds when both files can be saved |
| PostHandler.AddProjectSucceeds | building_management_server.py:289-337 | a complete `/add_project` request for an existing dict room with a budget `float()` accepts succeeds when the current file can be saved, and writes once: the document with exactly the new project appended to that room |
| PostHandler.AddProjectWritesUpdate | building_management_server.py:327-337 | a valid request whose add succeeds and whose save succeeds replies with success and writes exactly the updated document |
| MiscItems.NewItem | oldmain.py:50-61 | a new item takes the answers as given, the parsed cost or 0.0 when it does not parse, and always stores the notes |
| MiscItems.EditWithBlanksKeepsItem | oldmain.py:82-103 | blank answers everywhere (or an unparseable cost) leave the item unchanged |
| MiscItems.EditedFields | oldmain.py:82-103 | each edited field is the new answer when it is non-blank and the old value otherwise; the cost changes only when the answer parses |
| MiscItems.RemoveAt | oldmain.py:123 | `pop(i)` keeps every other item in its order |
| MiscItems.TotalOfAppend | oldmain.py:21-28 | appending an item raises the total by exactly its cost |
| MiscItems.TotalOfConcat | oldmain.py:21-28 | the total of two lists joined is the sum of their totals |
| MiscItems.TotalOfRemoveAt | oldmain.py:123 | removing an item lowers the total by exactly its cost |
| MiscItems.MiscItemList.constructor | oldmain.py:6-10 | the loaded list, or an empty one when the file is missing |
| MiscItems.MiscItemList.Add | oldmain.py:50-63 | the list gains the new item at its end and the total rises by its cost |
| MiscItems.MiscItemList.Edit | oldmain.py:70-113 | with no items, with a non-number or with a number outside 1..n nothing changes; otherwise exactly item `n` is replaced by its edited form |
| MiscItems.MiscItemList.Remove | oldmain.py:115-132 | the same guards as editing; on success item `n` is removed and returned, the others keep their order and the total drops by its cost |
| MiscItems.MiscItemList.TotalCost | oldmain.py:21-29 | the running total is the sum of all costs |
| MiscItems.ChooseRoom | oldmain.py:174-190 | `0` goes back; a non-number is rejected; a number in 1..n selects room `n`, any other number is out of range |

## Left out

- `/upload` (multipart parsing, `save_uploaded_file`, `get_file_type`, uuid and mimetypes) is not modelled.
- PostHandler.HandlePost: requires the path not to be `/upload`, because that branch is left out.
- HTTP plumbing is not modelled: headers, `Content-Length`, `send_error`, CORS, `do_GET`, `do_OPTIONS` and the server loop. Only the chunk split of `send_json_response` is modelled, not the writes or the connection errors.
- File I/O is not modelled: `load_json_file`, `save_json_file`, `create_backup` and `ensure_directory`.
  - The loaded document or its error text, and whether each save succeeds, are parameters.
  - Only the choice of the latest version and of the latest backup is modelled, not the recursive reload from the backup.
  - The `misc_items.json` writes after each change in `oldmain.py` are not modelled.
- `json.loads`/`json.dumps` text is not modelled: a body arrives decoded, or as the kind of decoding error it raised (not UTF-8, not JSON), and the reply is plain text to be chunked. The decoder's message inside the 500 reply is the constructor `UndecodableBody`.
- Exception messages are modelled as the exception value, not as the text of `str(e)`. The formatting of the `Room ... not found` and `Internal server error: ...` messages is left to those constructors.
- `datetime.now()` is not modelled: the creation time and the timestamp are parameters.
- Logging is not modelled.
- Floating point is modelled as reals: no rounding, infinities or NaN. The `float()` and `int()` parsing of text is an abstract parser passed as a parameter.
- PyOps.Update: `dict.update` with an argument whose keys are not strings gives `OutsideModel`, because JSON objects only have string keys.
- Documents are values: the in-place mutation of `full_data` and the aliasing of `current_room` with the stored room are modelled by returning updated copies.
- DocumentUpdates.MergeWalls: the walls merge is characterised only for posted walls given as a dictionary. The list-of-pairs form that `update` also accepts is computed by `PyOps.Update` but not characterised.
- DocumentUpdates.MergeRoomSucceeds: the success condition is exact only when the posted room sends no painting or sends its walls as a dictionary. A posted painting without walls is covered in one direction by `MergeRoomSucceedsWhen`. Success with walls posted as a list of pairs is not characterised.
- File paths use the POSIX separator `/` only: `os.path.join` and `os.path.basename` on Windows-style `\` paths are not modelled.
- DocumentUpdates.MergeRoomMergesWalls: states the merge only for posted walls given as a dictionary. The list-of-pairs form that `update` also accepts is computed by `PyOps.Update` but not characterised.
- PostHandler.SaveRoomsWritesMerge: assumes the posted rooms are duplicate-free, as `json.loads` produces them.
- MiscItems.MiscItemList: items are assumed to carry their fields. The `KeyError` a stored item without `description`, `room` or `cost` would raise while listing is not modelled.
- The console menus, prompts, printing and the outer `while True` loops of `oldmain.py` are not modelled. Their choices arrive as parameters.
- `load_json`, `save_json`, `display_rooms`, `display_all_room_costs`, `edit_room_items` and `manage_contractors` are not part of this model.
- The document navigator and the report generator of the larger console program are not part of this model.
