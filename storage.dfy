/** The browser's `localStorage` as the archive code uses it: four kinds of slot, each
    holding serialized JSON text. Serialization is not modelled; each slot holds the value
    the text decodes to, or says that it does not decode. */
module Storage {
  import opened ArchiveStore

  /** The `echo_archives` slot: missing, holding text that `JSON.parse` rejects, or holding
      an archive map. */
  datatype Slot = Absent | Unparsable | Stored(store: Store)

  /** `JSON.parse(localStorage.getItem('echo_archives') || '{}')`: a missing slot reads as an
      empty map and unparsable text as a failure (`None`). */
  function Parse(slot: Slot): Option<Store> {
    match slot
    case Absent => Some(Empty)
    case Unparsable => None
    case Stored(s) => Some(s)
  }

  /** `JSON.parse(slot || '{}')[k]` for a slot that parses; `None` for `undefined`. */
  function LookupSlot(slot: Slot, k: string): Option<Entry> {
    match slot
    case Stored(s) => Lookup(s, k)
    case _ => None
  }

  /** `!!JSON.parse(slot || '{}')[k]` for a slot that parses. */
  predicate HasSlot(slot: Slot, k: string) {
    slot.Stored? && Has(slot.store, k)
  }

  /** `archives[k] = e` on the parsed map, then `setItem`: the slot holds a map in which `k`
      reads `e` and every other key reads as before. */
  function WriteSlot(slot: Slot, k: string, e: Entry): (r: Slot)
    requires slot != Unparsable && (slot.Stored? ==> Wf(slot.store))
    ensures r.Stored? && Wf(r.store)
    ensures LookupSlot(r, k) == Some(e)
    ensures forall j :: j != k ==> LookupSlot(r, j) == LookupSlot(slot, j)
  {
    Stored(Put(Parse(slot).value, k, e))
  }

  /** One message of the chat view; its `timestamp` is not modelled. */
  datatype ChatMessage = ChatMessage(id: int, role: Role, content: string)

  /** A `chat_history_<date>` slot: text `JSON.parse` rejects, or a saved message list. */
  datatype History = Garbled | Saved(messages: seq<ChatMessage>)

  /** Everything the archive code keeps in `localStorage`, as one value. */
  datatype Persisted = Persisted(
    archives: Slot,                  // echo_archives
    backup: Option<Store>,           // echo_archives_backup
    lastDate: Option<string>,        // last_conversation_date
    history: map<string, History>)   // chat_history_<date>, by date

  ghost predicate ValidPersisted(p: Persisted) {
    && (p.archives.Stored? ==> Wf(p.archives.store))
    && (p.backup.Some? ==> Wf(p.backup.value))
  }

  class LocalStorage {
    var archives: Slot
    var backup: Option<Store>
    var lastDate: Option<string>
    var history: map<string, History>

    function Value(): Persisted
      reads this
    {
      Persisted(archives, backup, lastDate, history)
    }

    /** Every stored archive map has distinct keys, as a decoded JSON object does. */
    ghost predicate Valid()
      reads this
    {
      ValidPersisted(Value())
    }

    /** A browser profile with nothing stored. */
    constructor ()
      ensures Valid()
      ensures Value() == Persisted(Absent, None, None, map[])
    {
      archives := Absent;
      backup := None;
      lastDate := None;
      history := map[];
    }

    /** The settings menu's "clear all data" (`localStorage.clear()`): every slot is emptied,
        archives included, and nothing else is kept. */
    method Clear()
      modifies this
      ensures Valid()
      ensures Value() == Persisted(Absent, None, None, map[])
    {
      archives := Absent;
      backup := None;
      lastDate := None;
      history := map[];
    }
  }
}
