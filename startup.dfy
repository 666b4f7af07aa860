/** The cleanup `src/App.tsx` runs once when the application starts: if any key of the
    archive map looks invalid, the whole `echo_archives` slot is removed. */
module Startup {
  import opened Strings
  import opened Dates
  import opened ArchiveStore
  import opened Storage

  /** A key the cleanup treats as invalid: it contains "0", "1" or "2024". */
  predicate IsFlaggedKey(k: string) {
    Contains(k, "0") || Contains(k, "1") || Contains(k, "2024")
  }

  /** `dateKeys.some(...)`, scanning the keys in order. */
  function HasInvalidData(keys: seq<string>): (b: bool)
    ensures b <==> exists i :: 0 <= i < |keys| && IsFlaggedKey(keys[i])
  {
    if keys == [] then false
    else if IsFlaggedKey(keys[0]) then true
    else
      var rest := HasInvalidData(keys[1..]);
      assert forall i :: 1 <= i < |keys| ==> keys[i] == keys[1..][i - 1];
      assert rest ==> exists i :: 0 <= i < |keys| && IsFlaggedKey(keys[i]) by {
        if rest {
          var j :| 0 <= j < |keys[1..]| && IsFlaggedKey(keys[1..][j]);
          assert IsFlaggedKey(keys[j + 1]);
        }
      }
      rest
  }

  /** The check for "2024" adds nothing: a key containing "2024" contains "0". */
  lemma YearCheckSubsumed(k: string)
    requires Contains(k, "2024")
    ensures Contains(k, "0")
  {
    var i := ContainsWitness(k, "2024");
    assert k[i + 1] == k[i..i + 4][1] == '0';
    assert k[i + 1..i + 2] == "0";
    ContainsAt(k, "0", i + 1);
  }

  /** Every well-formed `YYYY-MM-DD` key is flagged: a month from 01 to 12 starts with the
      digit 0 or 1. */
  lemma WellFormedKeyIsFlagged(k: string)
    requires WellFormedDateKey(k)
    ensures IsFlaggedKey(k)
  {
    if k[5] == '0' {
      assert k[5..6] == "0";
      ContainsAt(k, "0", 5);
    } else {
      assert k[5] == '1';
      assert k[5..6] == "1";
      ContainsAt(k, "1", 5);
    }
  }

  /** The keys the application itself writes are all flagged. */
  lemma FormattedKeyIsFlagged(y: nat, m: nat, d: nat)
    requires ValidYear(y) && 1 <= m <= 12 && 1 <= d <= 31
    ensures IsFlaggedKey(FormatDateKey(y, m, d))
  {
    WellFormedKeyIsFlagged(FormatDateKey(y, m, d));
  }

  /** The slot the startup cleanup leaves behind: a slot that does not parse is left alone (the
      error is caught), a map with a flagged key is removed whole, any other map is kept. */
  function CleanedSlot(slot: Slot): (r: Slot)
    ensures r == Absent || r == slot
    ensures r == Absent && slot != Absent <==> slot.Stored? && HasInvalidData(slot.store.keys)
  {
    match slot
    case Stored(s) => if HasInvalidData(s.keys) then Absent else slot
    case _ => slot
  }

  /** A map that holds any well-formed date key does not survive startup, whatever else it
      holds. */
  lemma WellFormedStoreIsWiped(s: Store, i: nat)
    requires i < |s.keys| && WellFormedDateKey(s.keys[i])
    ensures CleanedSlot(Stored(s)) == Absent
  {
    WellFormedKeyIsFlagged(s.keys[i]);
  }

  /** The `useEffect` of `App`: only the `echo_archives` slot may change, as `CleanedSlot`
      says. */
  method CleanupOnStartup(ls: LocalStorage)
    requires ls.Valid()
    modifies ls
    ensures ls.Valid()
    ensures ls.Value() == old(ls.Value()).(archives := CleanedSlot(old(ls.archives)))
  {
    match ls.archives
    case Stored(s) =>
      if HasInvalidData(s.keys) {
        ls.archives := Absent;
      }
    case _ =>
  }
}
