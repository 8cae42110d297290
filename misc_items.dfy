/**
 * The miscellaneous-items manager of the console renovation manager: a list of item
 * records that the user adds to, edits by number, removes by number and totals.
 * Console input becomes parameters; `float(text)` is the abstract parser `parseFloat`
 * and `int(text)` of an entered number arrives already parsed (None when `int()`
 * raises ValueError).
 */
module MiscItems {
  import opened Wrappers

  /** One entry of `misc_items`.  `notes` is None for an item read from a file without that key. */
  datatype Item = Item(description: string, room: string, cost: real,
                       estimatedCompletion: string, notes: Option<string>)

  /** What an edit or removal request came to, as the messages the manager prints tell apart. */
  datatype Outcome = NoItems | InvalidInput | InvalidNumber | Done

  /** Sum of the costs, in list order: the figure shown as the total. */
  function TotalOf(items: seq<Item>): real {
    if |items| == 0 then 0.0 else TotalOf(items[..|items| - 1]) + items[|items| - 1].cost
  }

  /** The cost stored by an add: the parsed text, or 0.0 when it does not parse. */
  function CostOrZero(text: string, parseFloat: string -> Option<real>): real {
    match parseFloat(text)
    case Some(v) => v
    case None => 0.0
  }

  /** A new item as an add builds it; notes are always stored, even when blank. */
  function NewItem(description: string, room: string, costText: string, completion: string,
                   notes: string, parseFloat: string -> Option<real>): (it: Item)
    ensures it.description == description && it.room == room && it.estimatedCompletion == completion
    ensures it.notes == Some(notes)
    ensures parseFloat(costText).Some? ==> it.cost == parseFloat(costText).value
    ensures parseFloat(costText).None? ==> it.cost == 0.0
  {
    Item(description, room, CostOrZero(costText, parseFloat), completion, Some(notes))
  }

  /** `if new_text: field = new_text`: blank input keeps the current value. */
  function Keep(current: string, input: string): string {
    if input != "" then input else current
  }

  /**
   * An item after an edit: each text field takes its input when the input is not
   * blank; the cost takes a non-blank input only when it parses.
   */
  function Edited(it: Item, desc: string, room: string, costText: string, completion: string,
                  notes: string, parseFloat: string -> Option<real>): Item
  {
    var cost := if costText != "" && parseFloat(costText).Some? then parseFloat(costText).value else it.cost;
    Item(Keep(it.description, desc), Keep(it.room, room), cost, Keep(it.estimatedCompletion, completion),
         if notes != "" then Some(notes) else it.notes)
  }

  /** Blank input everywhere leaves the item exactly as it was. */
  lemma EditWithBlanksKeepsItem(it: Item, costText: string, parseFloat: string -> Option<real>)
    requires costText == "" || parseFloat(costText).None?
    ensures Edited(it, "", "", costText, "", "", parseFloat) == it
  {
  }

  /** Each field of an edited item is the new input when that is non-blank, the old value otherwise. */
  lemma EditedFields(it: Item, desc: string, room: string, costText: string, completion: string,
                     notes: string, parseFloat: string -> Option<real>)
    ensures var e := Edited(it, desc, room, costText, completion, notes, parseFloat);
      (e.description == if desc == "" then it.description else desc) &&
      (e.room == if room == "" then it.room else room) &&
      (e.estimatedCompletion == if completion == "" then it.estimatedCompletion else completion) &&
      (e.notes == if notes == "" then it.notes else Some(notes)) &&
      (e.cost == if costText != "" && parseFloat(costText).Some? then parseFloat(costText).value else it.cost)
  {
  }

  /** Dropping entry `i` keeps the others in their order. */
  function RemoveAt(items: seq<Item>, i: nat): (r: seq<Item>)
    requires i < |items|
    ensures |r| == |items| - 1
    ensures forall j :: 0 <= j < i ==> r[j] == items[j]
    ensures forall j :: i <= j < |r| ==> r[j] == items[j + 1]
  {
    items[..i] + items[i + 1..]
  }

  /** Appending an item raises the total by exactly its cost. */
  lemma TotalOfAppend(items: seq<Item>, it: Item)
    ensures TotalOf(items + [it]) == TotalOf(items) + it.cost
  {
    assert (items + [it])[..|items|] == items;
  }

  /** The total splits over a concatenation. */
  lemma {:induction false} TotalOfConcat(a: seq<Item>, b: seq<Item>)
    ensures TotalOf(a + b) == TotalOf(a) + TotalOf(b)
    decreases |b|
  {
    if |b| == 0 {
      assert a + b == a;
    } else {
      var init := b[..|b| - 1];
      assert (a + b)[..|a + b| - 1] == a + init;
      TotalOfConcat(a, init);
    }
  }

  /** Removing entry `i` lowers the total by exactly that entry's cost. */
  lemma TotalOfRemoveAt(items: seq<Item>, i: nat)
    requires i < |items|
    ensures TotalOf(RemoveAt(items, i)) == TotalOf(items) - items[i].cost
  {
    var pre, mid, post := items[..i], [items[i]], items[i + 1..];
    assert items == (pre + mid) + post;
    assert RemoveAt(items, i) == pre + post;
    TotalOfConcat(pre + mid, post);
    TotalOfConcat(pre, mid);
    TotalOfConcat(pre, post);
    TotalOfAppend([], items[i]);
    assert [] + [items[i]] == mid;
  }

  /** The list `misc_data["misc_items"]` the manager works on. */
  class MiscItemList {
    var items: seq<Item>

    /** Loading: the stored list, or an empty one when `misc_items.json` does not exist. */
    constructor (stored: Option<seq<Item>>)
      ensures stored.None? ==> items == []
      ensures stored.Some? ==> items == stored.value
    {
      items := if stored.Some? then stored.value else [];
    }

    /** Option 1: build the item from the answers and append it. */
    method Add(description: string, room: string, costText: string, completion: string, notes: string,
               parseFloat: string -> Option<real>)
      modifies this
      ensures items == old(items) + [NewItem(description, room, costText, completion, notes, parseFloat)]
      ensures TotalOf(items) == old(TotalOf(items)) + CostOrZero(costText, parseFloat)
    {
      var cost := 0.0;
      match parseFloat(costText) {
        case Some(v) => cost := v;
        case None => cost := 0.0;
      }
      var it := Item(description, room, cost, completion, Some(notes));
      TotalOfAppend(items, it);
      items := items + [it];
    }

    /**
     * Option 2: with items present and `n` in 1..|items|, overwrite the fields of item
     * `n - 1` whose inputs are non-blank; otherwise nothing changes.
     */
    method Edit(n: Option<int>, desc: string, room: string, costText: string, completion: string,
                notes: string, parseFloat: string -> Option<real>) returns (outcome: Outcome)
      modifies this
      ensures old(items) == [] ==> outcome == NoItems
      ensures old(items) != [] && n.None? ==> outcome == InvalidInput
      ensures old(items) != [] && n.Some? ==> (outcome == Done <==> 1 <= n.value <= |old(items)|)
      ensures outcome != Done ==> items == old(items)
      ensures outcome == Done ==>
        n.Some? && 1 <= n.value <= |old(items)| &&
        items == old(items)[n.value - 1 := Edited(old(items)[n.value - 1], desc, room, costText, completion,
                                                   notes, parseFloat)]
    {
      if items == [] {
        return NoItems;
      }
      if n.None? {
        return InvalidInput;
      }
      var idx := n.value - 1;
      if !(0 <= idx < |items|) {
        return InvalidNumber;
      }
      var it := items[idx];
      if desc != "" {
        it := it.(description := desc);
      }
      if room != "" {
        it := it.(room := room);
      }
      if costText != "" {
        match parseFloat(costText) {
          case Some(v) => it := it.(cost := v);
          case None =>
        }
      }
      if completion != "" {
        it := it.(estimatedCompletion := completion);
      }
      if notes != "" {
        it := it.(notes := Some(notes));
      }
      items := items[idx := it];
      outcome := Done;
    }

    /**
     * Option 3: with items present and `n` in 1..|items|, pop item `n - 1` and return
     * it; otherwise nothing changes.
     */
    method Remove(n: Option<int>) returns (outcome: Outcome, removed: Option<Item>)
      modifies this
      ensures old(items) == [] ==> outcome == NoItems
      ensures old(items) != [] && n.None? ==> outcome == InvalidInput
      ensures old(items) != [] && n.Some? ==> (outcome == Done <==> 1 <= n.value <= |old(items)|)
      ensures outcome != Done ==> items == old(items) && removed.None?
      ensures outcome == Done ==>
        n.Some? && 1 <= n.value <= |old(items)| &&
        removed == Some(old(items)[n.value - 1]) &&
        items == RemoveAt(old(items), n.value - 1) &&
        TotalOf(items) == old(TotalOf(items)) - removed.value.cost
    {
      removed := None;
      if items == [] {
        return NoItems, None;
      }
      if n.None? {
        return InvalidInput, None;
      }
      var idx := n.value - 1;
      if !(0 <= idx < |items|) {
        return InvalidNumber, None;
      }
      removed := Some(items[idx]);
      TotalOfRemoveAt(items, idx);
      items := items[..idx] + items[idx + 1..];
      outcome := Done;
    }

    /** The running `total_cost` of the listing: the sum of all item costs. */
    method TotalCost() returns (total: real)
      ensures total == TotalOf(items)
    {
      total := 0.0;
      var i := 0;
      while i < |items|
        invariant 0 <= i <= |items|
        invariant total == TotalOf(items[..i])
      {
        assert items[..i + 1][..i] == items[..i];
        total := total + items[i].cost;
        i := i + 1;
      }
      assert items[..i] == items;
    }
  }

  /** What the room prompt of the main menu does with the text entered. */
  datatype RoomChoice = Back | Room(name: string) | OutOfRange | NotANumber

  /**
   * `'0'` goes back (compared as text, before any parsing); otherwise `int()` of the
   * text selects `rooms[n - 1]` when `1 <= n <= len(rooms)`.
   */
  function ChooseRoom(choice: string, parseInt: string -> Option<int>, rooms: seq<string>): (r: RoomChoice)
    ensures r.Back? <==> choice == "0"
    ensures r.NotANumber? <==> choice != "0" && parseInt(choice).None?
    ensures r.Room? <==>
      choice != "0" && parseInt(choice).Some? && 1 <= parseInt(choice).value <= |rooms|
    ensures r.Room? ==> r.name == rooms[parseInt(choice).value - 1]
  {
    if choice == "0" then Back
    else
      match parseInt(choice)
      case None => NotANumber
      case Some(n) => if 1 <= n <= |rooms| then Room(rooms[n - 1]) else OutOfRange
  }
}
