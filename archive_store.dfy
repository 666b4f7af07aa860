/** The archive map persisted under `echo_archives`: a JSON object from a date key to an
    archive record. A JavaScript object keeps its string keys in insertion order, and the
    views read the records back in that order, so a store is an ordered list of distinct
    keys together with the values they hold. */
module ArchiveStore {

  datatype Option<T> = None | Some(value: T)

  datatype Role = User | Assistant

  /** The `role` string written into transcripts. */
  function RoleName(r: Role): string {
    match r
    case User => "user"
    case Assistant => "assistant"
  }

  /** A `{role, content}` pair of an archived transcript. */
  datatype Message = Message(role: Role, content: string)

  /** The three fixed slots 今日习得 (learned), 逻辑突破 (breakthrough) and 改进点 (improvement).
      The empty string stands for a slot that is empty or absent: both are falsy. */
  datatype Records = Records(learned: string, breakthrough: string, improvement: string)

  /** A value stored under a key: `null`, or an archive object. The empty string stands for an
      absent `date`, `mood` or `导师建议` (`advice`); `keywords` is optional because an empty
      array is truthy while an absent one is not. */
  datatype Entry =
    | Null
    | Archive(date: string, mood: string, keywords: Option<seq<string>>, records: Records,
              messages: Option<seq<Message>>, advice: string, isSilent: bool)

  datatype Store = Store(keys: seq<string>, vals: map<string, Entry>)

  /** The keys are distinct and are exactly the keys of the value map. */
  ghost predicate Wf(s: Store) {
    && Distinct(s.keys)
    && (forall k :: k in s.vals <==> k in s.keys)
  }

  /** `{}` */
  const Empty: Store := Store([], map[])

  /** `store[k]`, with `None` for `undefined`. */
  function Lookup(s: Store, k: string): Option<Entry> {
    if k in s.vals then Some(s.vals[k]) else None
  }

  /** `!!store[k]`: the key holds an archive object. */
  predicate Has(s: Store, k: string) {
    k in s.vals && s.vals[k].Archive?
  }

  /** `store[k] = e`: reading `k` back gives `e`, every other key reads as before, the keys
      already present keep their places and a new key goes last. */
  function Put(s: Store, k: string, e: Entry): (r: Store)
    requires Wf(s)
    ensures Wf(r)
    ensures Lookup(r, k) == Some(e)
    ensures forall j :: j != k ==> Lookup(r, j) == Lookup(s, j)
    ensures |s.keys| <= |r.keys| <= |s.keys| + 1 && r.keys[..|s.keys|] == s.keys
  {
    if k in s.vals then Store(s.keys, s.vals[k := e])
    else Store(s.keys + [k], s.vals[k := e])
  }

  /** `Object.keys(store).map(k => store[k])`: the values in key order. */
  function Values(s: Store): (vs: seq<Entry>)
    requires Wf(s)
  {
    seq(|s.keys|, i requires 0 <= i < |s.keys| => s.vals[s.keys[i]])
  }

  predicate Distinct(ks: seq<string>) {
    forall i, j :: 0 <= i < j < |ks| ==> ks[i] != ks[j]
  }

  /** A list without repeats is as long as the set of its elements. */
  lemma {:induction false} DistinctCard(ks: seq<string>)
    requires Distinct(ks)
    ensures |set k | k in ks| == |ks|
    decreases |ks|
  {
    if ks != [] {
      var front := ks[..|ks| - 1];
      var last := ks[|ks| - 1];
      assert forall i :: 0 <= i < |front| ==> front[i] == ks[i];
      DistinctCard(front);
      assert last !in front;
      assert (set k | k in ks) == (set k | k in front) + {last};
    }
  }

  /** The keys of `keys` whose entry `keep` accepts, in their order: exactly the accepted
      keys, and distinct when `keys` is. */
  function KeepKeys(keys: seq<string>, vals: map<string, Entry>, keep: (string, Entry) -> bool): (r: seq<string>)
    requires forall k :: k in keys ==> k in vals
    ensures forall k :: k in r <==> k in keys && keep(k, vals[k])
    ensures Distinct(keys) ==> Distinct(r)
  {
    if keys == [] then []
    else
      var last := keys[|keys| - 1];
      var front := keys[..|keys| - 1];
      assert forall k :: k in keys <==> k in front || k == last;
      KeepKeys(front, vals, keep) + (if keep(last, vals[last]) then [last] else [])
  }

  /** The accepted entries of `s`, unchanged and in their order. */
  function Restrict(s: Store, keep: (string, Entry) -> bool): (r: Store)
    requires Wf(s)
    ensures Wf(r)
    ensures r.keys == KeepKeys(s.keys, s.vals, keep)
    ensures forall k :: k in r.vals <==> k in s.vals && keep(k, s.vals[k])
    ensures forall k :: k in r.vals ==> r.vals[k] == s.vals[k]
  {
    Store(KeepKeys(s.keys, s.vals, keep), map k | k in s.vals && keep(k, s.vals[k]) :: s.vals[k])
  }

  /** The `Object.keys(store).forEach(k => { if (...) result[k] = store[k]; })` loop that
      copies the accepted entries into a fresh object. */
  method Filter(s: Store, keep: (string, Entry) -> bool) returns (r: Store)
    requires Wf(s)
    ensures r == Restrict(s, keep)
  {
    var keys: seq<string> := [];
    var vals: map<string, Entry> := map[];
    var i := 0;
    while i < |s.keys|
      invariant 0 <= i <= |s.keys|
      invariant keys == KeepKeys(s.keys[..i], s.vals, keep)
      invariant forall k :: k in vals <==> k in keys
      invariant forall k :: k in vals ==> vals[k] == s.vals[k]
    {
      var k := s.keys[i];
      assert s.keys[..i + 1] == s.keys[..i] + [k];
      KeepKeysSnoc(s.keys[..i], k, s.vals, keep);
      if keep(k, s.vals[k]) {
        keys := keys + [k];
        vals := vals[k := s.vals[k]];
      }
      i := i + 1;
    }
    assert s.keys[..i] == s.keys;
    RestrictFrom(s, keep, keys, vals);
    r := Store(keys, vals);
  }

  /** The accepted keys, with the map that holds exactly those keys and their values, are the
      restricted object. */
  lemma RestrictFrom(s: Store, keep: (string, Entry) -> bool, keys: seq<string>, vals: map<string, Entry>)
    requires Wf(s) && keys == KeepKeys(s.keys, s.vals, keep)
    requires forall k :: k in vals <==> k in keys
    requires forall k :: k in vals ==> vals[k] == s.vals[k]
    ensures Store(keys, vals) == Restrict(s, keep)
  {
    var want := Restrict(s, keep);
    assert want.keys == keys;
    assert forall k :: k in vals <==> k in want.vals;
    assert forall k :: k in vals ==> vals[k] == want.vals[k];
  }

  /** Copying one more key appends it exactly when it is accepted. */
  lemma KeepKeysSnoc(keys: seq<string>, k: string, vals: map<string, Entry>, keep: (string, Entry) -> bool)
    requires forall j :: j in keys ==> j in vals
    requires k in vals
    ensures KeepKeys(keys + [k], vals, keep) == KeepKeys(keys, vals, keep) + (if keep(k, vals[k]) then [k] else [])
  {
    assert (keys + [k])[..|keys|] == keys;
  }

  /** The filter works key by key, so the kept keys stay in their original order. */
  lemma {:induction false} KeepKeysConcat(a: seq<string>, b: seq<string>, vals: map<string, Entry>,
                                           keep: (string, Entry) -> bool)
    requires forall k :: k in a ==> k in vals
    requires forall k :: k in b ==> k in vals
    ensures KeepKeys(a + b, vals, keep) == KeepKeys(a, vals, keep) + KeepKeys(b, vals, keep)
    decreases |b|
  {
    if b == [] {
      assert a + b == a;
    } else {
      var front := b[..|b| - 1];
      var last := b[|b| - 1];
      var tail := if keep(last, vals[last]) then [last] else [];
      assert (a + b)[..|a + b| - 1] == a + front && (a + b)[|a + b| - 1] == last;
      assert KeepKeys(a + b, vals, keep) == KeepKeys(a + front, vals, keep) + tail;
      assert KeepKeys(b, vals, keep) == KeepKeys(front, vals, keep) + tail;
      KeepKeysConcat(a, front, vals, keep);
    }
  }
}
