/** `src/utils/globalStateManager.ts`: one shared registry that caches the archive list read
    from `echo_archives`, purges the records of 2024 on every load, and pushes the list to
    its subscribers. A listener is a value standing for a callback: its `id` stands for the
    function's identity (`!==` compares it) and `throws` says whether calling it raises.
    The calls made to listeners are kept, in order, as the manager's delivery log. */
module StateManager {
  import opened Strings
  import opened ArchiveStore
  import opened Storage
  import Startup

  const OldPrefix: string := "2024-"

  /** `key.startsWith('2024-')` */
  predicate IsOld(k: string) {
    StartsWith(k, OldPrefix)
  }

  /** `dateKeys.some(key => key.startsWith('2024-'))` */
  function HasOldData(keys: seq<string>): (b: bool)
    ensures b <==> exists i :: 0 <= i < |keys| && IsOld(keys[i])
  {
    if keys == [] then false
    else if IsOld(keys[0]) then true
    else
      var rest := HasOldData(keys[1..]);
      assert rest ==> exists i :: 0 <= i < |keys| && IsOld(keys[i]) by {
        if rest {
          var j :| 0 <= j < |keys[1..]| && IsOld(keys[1..][j]);
          assert keys[j + 1] == keys[1..][j];
        }
      }
      assert (exists i :: 0 <= i < |keys| && IsOld(keys[i])) ==> rest by {
        if exists i :: 0 <= i < |keys| && IsOld(keys[i]) {
          var i :| 0 <= i < |keys| && IsOld(keys[i]);
          assert i != 0;
          assert keys[1..][i - 1] == keys[i];
        }
      }
      rest
  }

  /** The map a load ends with: the stored map without its 2024 keys when it has any, the
      stored map itself otherwise, and nothing when the slot does not parse. */
  function Loaded(slot: Slot): (r: Option<Store>)
    requires ValidPersisted(Persisted(slot, None, None, map[]))
    ensures r.None? <==> slot.Unparsable?
    ensures r.Some? ==> Wf(r.value) && forall k :: k in r.value.keys ==> !IsOld(k)
  {
    match Parse(slot)
    case None => None
    case Some(s) =>
      if HasOldData(s.keys) then Some(Restrict(s, (k: string, e: Entry) => !IsOld(k))) else Some(s)
  }

  /** What a load leaves in the `echo_archives` slot: the purged map is written back only when
      something was purged. */
  function WrittenBack(slot: Slot): (r: Slot)
    requires ValidPersisted(Persisted(slot, None, None, map[]))
    ensures r == slot || (Loaded(slot).Some? && r == Stored(Loaded(slot).value))
    ensures Loaded(slot).Some? ==> Parse(r) == Loaded(slot)
  {
    match Parse(slot)
    case Some(s) => if HasOldData(s.keys) then Stored(Restrict(s, (k: string, e: Entry) => !IsOld(k))) else slot
    case None => slot
  }

  /** A successful load keeps exactly the stored keys that do not start with "2024-", with
      their values; a load of a slot that does not parse yields nothing. */
  lemma LoadedPurgesOldKeys(slot: Slot)
    requires ValidPersisted(Persisted(slot, None, None, map[]))
    ensures Loaded(slot).None? <==> slot.Unparsable?
    ensures Loaded(slot).Some? ==>
      var r := Loaded(slot).value;
      var s := Parse(slot).value;
      && Wf(r)
      && (forall k :: k in r.vals <==> k in s.vals && !IsOld(k))
      && (forall k :: k in r.vals ==> r.vals[k] == s.vals[k])
      && (forall i :: 0 <= i < |r.keys| ==> !IsOld(r.keys[i]))
  {
    if Loaded(slot).Some? {
      var s := Parse(slot).value;
      var r := Loaded(slot).value;
      if !HasOldData(s.keys) {
        assert r == s;
        forall k | k in s.vals ensures !IsOld(k) {
          var i :| 0 <= i < |s.keys| && s.keys[i] == k;
        }
      }
      forall i | 0 <= i < |r.keys| ensures !IsOld(r.keys[i]) {
        assert r.keys[i] in r.vals;
      }
    }
  }

  /** The slot is written only when it held 2024 keys, and then with the purged map. */
  lemma WrittenBackOnlyWhenOld(slot: Slot)
    requires ValidPersisted(Persisted(slot, None, None, map[]))
    ensures WrittenBack(slot) != slot <==> slot.Stored? && HasOldData(slot.store.keys)
    ensures WrittenBack(slot) != slot ==> WrittenBack(slot) == Stored(Loaded(slot).value)
  {
    if slot.Stored? && HasOldData(slot.store.keys) {
      var s := slot.store;
      var i :| 0 <= i < |s.keys| && IsOld(s.keys[i]);
      var r := Restrict(s, (k: string, e: Entry) => !IsOld(k));
      assert s.keys[i] in s.vals && s.keys[i] !in r.vals;
    }
  }

  /** A key starting with "2024-" is one the startup cleanup flags. */
  lemma OldKeyIsFlagged(k: string)
    ensures IsOld(k) ==> Startup.IsFlaggedKey(k)
  {
    assert IsOld(k) ==> k[..4] == OldPrefix[..4] == "2024";
    assert IsOld(k) ==> StartsWith(k, "2024");
  }

  /** After the startup cleanup the purge has nothing left to do: the slot holds no 2024 key,
      so a load writes nothing back. */
  lemma PurgeAfterStartupIsNoOp(slot: Slot)
    requires ValidPersisted(Persisted(slot, None, None, map[]))
    ensures ValidPersisted(Persisted(Startup.CleanedSlot(slot), None, None, map[]))
    ensures WrittenBack(Startup.CleanedSlot(slot)) == Startup.CleanedSlot(slot)
  {
    var c := Startup.CleanedSlot(slot);
    if c.Stored? {
      var ks := c.store.keys;
      forall i | 0 <= i < |ks| ensures !IsOld(ks[i]) {
        OldKeyIsFlagged(ks[i]);
      }
    }
  }

  /** A subscriber callback. */
  datatype Listener = Listener(id: nat, throws: bool)

  /** One call of a listener with the archive list it was given. */
  datatype Delivery = Delivery(listener: Listener, archives: seq<Entry>)

  /** The calls `notifyListeners` makes: every registered listener, in order, with the same
      list. */
  function Notifications(ls: seq<Listener>, archives: seq<Entry>): (r: seq<Delivery>)
    ensures |r| == |ls|
    ensures forall i :: 0 <= i < |r| ==> r[i].listener == ls[i] && r[i].archives == archives
  {
    seq(|ls|, i requires 0 <= i < |ls| => Delivery(ls[i], archives))
  }

  /** `listeners.filter(l => l !== listener)` */
  function Without(ls: seq<Listener>, l: Listener): (r: seq<Listener>)
    ensures multiset(r) == multiset(ls)[l := 0]
  {
    if ls == [] then []
    else
      var front := ls[..|ls| - 1];
      var last := ls[|ls| - 1];
      assert ls == front + [last];
      Without(front, l) + (if last != l then [last] else [])
  }

  /** Filtering a list with one more element at the end filters that element last. */
  lemma WithoutSnoc(ls: seq<Listener>, x: Listener, l: Listener)
    ensures Without(ls + [x], l) == Without(ls, l) + (if x != l then [x] else [])
  {
    assert (ls + [x])[..|ls|] == ls;
  }

  /** The filter works element by element, so it keeps the others in their order. */
  lemma {:induction false} WithoutConcat(a: seq<Listener>, b: seq<Listener>, l: Listener)
    ensures Without(a + b, l) == Without(a, l) + Without(b, l)
    decreases |b|
  {
    if b == [] {
      assert a + b == a;
    } else {
      var front := b[..|b| - 1];
      var last := b[|b| - 1];
      var tail := if last != l then [last] else [];
      assert Without(a + b, l) == Without(a + front, l) + tail by {
        assert a + b == (a + front) + [last];
        WithoutSnoc(a + front, last, l);
      }
      assert Without(b, l) == Without(front, l) + tail by {
        assert b == front + [last];
        WithoutSnoc(front, last, l);
      }
      WithoutConcat(a, front, l);
    }
  }

  /** Removing a listener keeps the others in their order: a list without `l` is unchanged. */
  lemma {:induction false} WithoutAbsent(ls: seq<Listener>, l: Listener)
    requires l !in ls
    ensures Without(ls, l) == ls
    decreases |ls|
  {
    if ls != [] {
      var front := ls[..|ls| - 1];
      WithoutAbsent(front, l);
      assert front + [ls[|ls| - 1]] == ls;
    }
  }

  /** Unsubscribing right after a first subscription gives back the list as it was. */
  lemma SubscribeThenUnsubscribe(ls: seq<Listener>, l: Listener)
    requires l !in ls
    ensures Without(ls + [l], l) == ls
  {
    assert (ls + [l])[..|ls|] == ls;
    WithoutAbsent(ls, l);
  }

  /** The registry itself. */
  class GlobalStateManager {
    var listeners: seq<Listener>
    var currentArchives: seq<Entry>
    var deliveries: seq<Delivery>
    const storage: LocalStorage

    ghost predicate Valid()
      reads this, storage
    {
      storage.Valid()
    }

    /** The private constructor: an empty registry that loads at once (the `storage` event
        listener it adds is not modelled). */
    constructor (ls: LocalStorage)
      requires ls.Valid()
      modifies ls
      ensures Valid() && storage == ls
      ensures listeners == [] && deliveries == []
      ensures ls.Value() == old(ls.Value()).(archives := WrittenBack(old(ls.archives)))
      ensures currentArchives == if Loaded(old(ls.archives)).Some? then Values(Loaded(old(ls.archives)).value) else []
    {
      storage := ls;
      listeners := [];
      currentArchives := [];
      deliveries := [];
      new;
      LoadFromStorage();
    }

    /** `loadFromStorage`: a slot that does not parse changes nothing and notifies no one (the
        error is caught); otherwise the 2024 keys are purged (and the purged map written back
        when there were any), the cached list becomes the values of the remaining keys in
        key order, and every listener is notified with it. */
    method LoadFromStorage()
      requires Valid()
      modifies this, storage
      ensures Valid()
      ensures listeners == old(listeners)
      ensures storage.Value() == old(storage.Value()).(archives := WrittenBack(old(storage.archives)))
      ensures Loaded(old(storage.archives)).None? ==>
        currentArchives == old(currentArchives) && deliveries == old(deliveries)
      ensures Loaded(old(storage.archives)).Some? ==>
        && currentArchives == Values(Loaded(old(storage.archives)).value)
        && deliveries == old(deliveries) + Notifications(listeners, currentArchives)
    {
      var slot := storage.archives;
      match Parse(slot)
      case None =>
      case Some(s) =>
        if HasOldData(s.keys) {
          var kept := Filter(s, (k: string, e: Entry) => !IsOld(k));
          storage.archives := Stored(kept);
          currentArchives := Values(kept);
        } else {
          currentArchives := Values(s);
        }
        NotifyListeners();
    }

    /** `notifyListeners`: each listener, in registration order, is called with the cached list;
        one that throws is caught and the rest are still called. */
    method NotifyListeners()
      modifies this
      ensures listeners == old(listeners) && currentArchives == old(currentArchives)
      ensures deliveries == old(deliveries) + Notifications(listeners, currentArchives)
    {
      var i := 0;
      while i < |listeners|
        invariant 0 <= i <= |listeners|
        invariant listeners == old(listeners) && currentArchives == old(currentArchives)
        invariant deliveries == old(deliveries) + Notifications(listeners[..i], currentArchives)
      {
        // Whether the call throws or not, it was made, and the loop goes on.
        deliveries := deliveries + [Delivery(listeners[i], currentArchives)];
        i := i + 1;
        assert Notifications(listeners[..i], currentArchives)
            == Notifications(listeners[..i - 1], currentArchives) + [Delivery(listeners[i - 1], currentArchives)];
      }
      assert listeners[..i] == listeners;
    }

    /** `subscribe`: the listener is appended and called once with the cached list. When that
        call throws, the error reaches the caller (`raised`), and the listener stays
        registered. */
    method Subscribe(l: Listener) returns (raised: bool)
      modifies this
      ensures listeners == old(listeners) + [l]
      ensures currentArchives == old(currentArchives)
      ensures deliveries == old(deliveries) + [Delivery(l, currentArchives)]
      ensures raised == l.throws
    {
      listeners := listeners + [l];
      deliveries := deliveries + [Delivery(l, currentArchives)];
      raised := l.throws;
    }

    /** The function `subscribe` returns: every registration of `l` is removed, the others kept
        in order. */
    method Unsubscribe(l: Listener)
      modifies this
      ensures listeners == Without(old(listeners), l)
      ensures currentArchives == old(currentArchives) && deliveries == old(deliveries)
    {
      listeners := Without(listeners, l);
    }

    /** `getArchives` */
    method GetArchives() returns (archives: seq<Entry>)
      ensures archives == currentArchives
    {
      archives := currentArchives;
    }

    /** `forceRefresh`: one more load. */
    method ForceRefresh()
      requires Valid()
      modifies this, storage
      ensures Valid()
      ensures listeners == old(listeners)
      ensures storage.Value() == old(storage.Value()).(archives := WrittenBack(old(storage.archives)))
      ensures Loaded(old(storage.archives)).None? ==>
        currentArchives == old(currentArchives) && deliveries == old(deliveries)
      ensures Loaded(old(storage.archives)).Some? ==>
        && currentArchives == Values(Loaded(old(storage.archives)).value)
        && deliveries == old(deliveries) + Notifications(listeners, currentArchives)
    {
      LoadFromStorage();
    }

    /** `updateArchives`: the immediate reload (the second one, 50 ms later when a new archive
        is passed, is not modelled). */
    method UpdateArchives()
      requires Valid()
      modifies this, storage
      ensures Valid()
      ensures listeners == old(listeners)
      ensures storage.Value() == old(storage.Value()).(archives := WrittenBack(old(storage.archives)))
      ensures Loaded(old(storage.archives)).None? ==>
        currentArchives == old(currentArchives) && deliveries == old(deliveries)
      ensures Loaded(old(storage.archives)).Some? ==>
        && currentArchives == Values(Loaded(old(storage.archives)).value)
        && deliveries == old(deliveries) + Notifications(listeners, currentArchives)
    {
      LoadFromStorage();
    }
  }

  /** The page's global context: the static `instance` field and the browser storage. */
  class Runtime {
    var instance: GlobalStateManager?
    const storage: LocalStorage

    ghost predicate Valid()
      reads this, storage
    {
      && storage.Valid()
      && (instance != null ==> instance.storage == storage)
    }

    constructor (ls: LocalStorage)
      requires ls.Valid()
      ensures Valid() && storage == ls && instance == null
    {
      storage := ls;
      instance := null;
    }

    /** `getInstance`: the first call creates the manager (which loads at once); every later call
        returns that same manager and changes nothing. */
    method GetInstance() returns (m: GlobalStateManager)
      requires Valid()
      modifies this, storage
      ensures Valid()
      ensures instance == m && m.storage == storage
      ensures old(instance) != null ==> m == old(instance) && unchanged(storage)
      ensures old(instance) == null ==>
        && fresh(m) && m.listeners == [] && m.deliveries == []
        && storage.Value() == old(storage.Value()).(archives := WrittenBack(old(storage.archives)))
        && m.currentArchives
           == if Loaded(old(storage.archives)).Some? then Values(Loaded(old(storage.archives)).value) else []
    {
      if instance == null {
        m := new GlobalStateManager(storage);
        instance := m;
      } else {
        m := instance;
      }
    }

    /** Two calls in a row return the same manager. */
    method GetInstanceTwice() returns (a: GlobalStateManager, b: GlobalStateManager)
      requires Valid()
      modifies this, storage
      ensures a == b
    {
      a := GetInstance();
      b := GetInstance();
    }
  }
}
