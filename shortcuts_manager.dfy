/**
 * The user's quick-link shortcuts: a published list kept in step with a
 * copy persisted in the user defaults under one key. The defaults store is
 * a map from keys to stored values; JSON encoding is abstracted to a value
 * constructor, so encoding is injective and every encoded list decodes.
 */
module Shortcuts {
  import opened Wrappers
  import opened TornModels

  const StorageKey := "customShortcuts"

  /** A value in the defaults store: a list this app encoded, or bytes the decoder rejects. */
  datatype Blob = Encoded(list: seq<KeyboardShortcut>) | Foreign(bytes: seq<int>)

  function Encode(list: seq<KeyboardShortcut>): (b: Blob)
    ensures Decode(b) == Some(list)
  {
    Encoded(list)
  }

  function Decode(b: Blob): (r: Option<seq<KeyboardShortcut>>)
    ensures r.Some? <==> b.Encoded?
  {
    match b
    case Encoded(list) => Some(list)
    case Foreign(_) => None
  }

  /** The list stored under the key, if one is there and decodes. */
  function Saved(store: map<string, Blob>): (r: Option<seq<KeyboardShortcut>>)
    ensures r.Some? <==> StorageKey in store && store[StorageKey].Encoded?
    ensures r.Some? ==> store[StorageKey] == Encode(r.value)
  {
    if StorageKey in store then Decode(store[StorageKey]) else None
  }

  /** What `loadShortcuts` publishes: the saved list, else the defaults. */
  function Loaded(store: map<string, Blob>): (list: seq<KeyboardShortcut>)
    ensures Saved(store).Some? ==> list == Saved(store).value
    ensures Saved(store).None? ==> list == Defaults
  {
    match Saved(store)
    case Some(list) => list
    case None => Defaults
  }

  /** The store after `loadShortcuts`: the defaults are written back when nothing usable was saved. */
  function StoreAfterLoad(store: map<string, Blob>): (st: map<string, Blob>)
    ensures Saved(st) == Some(Loaded(store))
    ensures forall k :: k in store && k != StorageKey ==> k in st && st[k] == store[k]
    ensures st.Keys == store.Keys + {StorageKey}
  {
    if Saved(store).Some? then store else store[StorageKey := Encode(Defaults)]
  }

  /** Saving and then loading gives back the saved list. */
  lemma LoadAfterSave(store: map<string, Blob>, list: seq<KeyboardShortcut>)
    ensures Loaded(store[StorageKey := Encode(list)]) == list
    ensures StoreAfterLoad(store[StorageKey := Encode(list)]) == store[StorageKey := Encode(list)]
  {
  }

  /** Loading twice is loading once. */
  lemma LoadIdempotent(store: map<string, Blob>)
    ensures Loaded(StoreAfterLoad(store)) == Loaded(store)
    ensures StoreAfterLoad(StoreAfterLoad(store)) == StoreAfterLoad(store)
  {
  }

  /** `firstIndex(where: { $0.id == id })`. */
  function FirstIndexOf(list: seq<KeyboardShortcut>, id: string): (r: Option<nat>)
    ensures r.Some? ==> r.value < |list| && list[r.value].id == id
    ensures r.Some? ==> forall j :: 0 <= j < r.value ==> list[j].id != id
    ensures r.None? ==> forall j :: 0 <= j < |list| ==> list[j].id != id
    decreases |list|
  {
    if list == [] then None
    else if list[0].id == id then Some(0)
    else
      match FirstIndexOf(list[1..], id)
      case None => None
      case Some(i) => Some(i + 1)
  }

  /** A list whose first entry with `id` sits at `i` has that first index. */
  lemma {:induction false} FirstIndexAt(list: seq<KeyboardShortcut>, id: string, i: nat)
    requires i < |list| && list[i].id == id
    requires forall j :: 0 <= j < i ==> list[j].id != id
    ensures FirstIndexOf(list, id) == Some(i)
    decreases i
  {
    if i > 0 {
      FirstIndexAt(list[1..], id, i - 1);
    }
  }

  /** The list `updateShortcut` leaves: the first entry with the same id replaced. */
  function Updated(list: seq<KeyboardShortcut>, shortcut: KeyboardShortcut): (r: seq<KeyboardShortcut>)
    ensures |r| == |list|
    ensures shortcut in r <==> shortcut in list || FirstIndexOf(list, shortcut.id).Some?
  {
    match FirstIndexOf(list, shortcut.id)
    case Some(i) =>
      assert list[i := shortcut][i] == shortcut;
      list[i := shortcut]
    case None => list
  }

  /**
   * An update keeps the length, puts the new entry where the first entry
   * with its id was (so it is now the first with that id) and leaves every
   * other entry alone; with the id absent nothing changes. Repeating the
   * update changes nothing more.
   */
  lemma UpdateReplacesFirst(list: seq<KeyboardShortcut>, shortcut: KeyboardShortcut)
    ensures |Updated(list, shortcut)| == |list|
    ensures FirstIndexOf(Updated(list, shortcut), shortcut.id) == FirstIndexOf(list, shortcut.id)
    ensures FirstIndexOf(list, shortcut.id).Some? ==>
      var i := FirstIndexOf(list, shortcut.id).value;
      && Updated(list, shortcut)[i] == shortcut
      && forall j :: 0 <= j < |list| && j != i ==> Updated(list, shortcut)[j] == list[j]
    ensures FirstIndexOf(list, shortcut.id).None? ==> Updated(list, shortcut) == list
    ensures Updated(Updated(list, shortcut), shortcut) == Updated(list, shortcut)
  {
    match FirstIndexOf(list, shortcut.id)
    case Some(i) =>
      FirstIndexAt(list[i := shortcut], shortcut.id, i);
    case None =>
  }

  class ShortcutsManager {
    var shortcuts: seq<KeyboardShortcut>
    var store: map<string, Blob>

    /** `init()` loads the shortcuts from the store it is given. */
    constructor (defaults: map<string, Blob>)
      ensures shortcuts == Loaded(defaults) && store == StoreAfterLoad(defaults)
    {
      shortcuts := [];
      store := defaults;
      new;
      LoadShortcuts();
    }

    method LoadShortcuts()
      modifies this
      ensures shortcuts == Loaded(old(store))
      ensures store == StoreAfterLoad(old(store))
    {
      if StorageKey in store && Decode(store[StorageKey]).Some? {
        shortcuts := Decode(store[StorageKey]).value;
      } else {
        shortcuts := Defaults;
        SaveShortcuts();
      }
    }

    method SaveShortcuts()
      modifies this`store
      ensures store == old(store)[StorageKey := Encode(shortcuts)]
      ensures Saved(store) == Some(shortcuts)
    {
      store := store[StorageKey := Encode(shortcuts)];
    }

    /**
     * Replaces the first shortcut with the same id and persists the list;
     * with no such id, changes nothing.
     */
    method UpdateShortcut(shortcut: KeyboardShortcut)
      modifies this
      ensures shortcuts == Updated(old(shortcuts), shortcut)
      ensures FirstIndexOf(old(shortcuts), shortcut.id).Some? ==> store == old(store)[StorageKey := Encode(shortcuts)]
      ensures FirstIndexOf(old(shortcuts), shortcut.id).None? ==> shortcuts == old(shortcuts) && store == old(store)
    {
      match FirstIndexOf(shortcuts, shortcut.id)
      case Some(i) =>
        shortcuts := shortcuts[i := shortcut];
        SaveShortcuts();
      case None =>
    }

    method ResetToDefaults()
      modifies this
      ensures shortcuts == Defaults
      ensures store == old(store)[StorageKey := Encode(Defaults)]
    {
      shortcuts := Defaults;
      SaveShortcuts();
    }
  }
}
