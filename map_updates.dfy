/**
 * Accumulating a Java HashMap through a sequence of put(key, value) and
 * putAll(entries) calls, the way the binding response builders accumulate
 * credentials and parameters. The lemmas say what the final map holds:
 * every key that was already there or that some call mentioned, each with
 * the value of the LAST call that mentioned it, and nothing else.
 */
module MapUpdates {
  import opened JavaLang

  /** One mutation of the map: put(key, value) or putAll(entries). */
  datatype Update<K, V> = Put(key: K, value: V) | PutAll(entries: map<K, V>)

  /** The map after one mutation. */
  function ApplyUpdate<K, V>(m: map<K, V>, u: Update<K, V>): map<K, V>
  {
    match u
    case Put(k, v) => m[k := v]
    case PutAll(entries) => m + entries
  }

  /** The map after the mutations of `us`, first to last. */
  function ApplyUpdates<K, V>(m: map<K, V>, us: seq<Update<K, V>>): map<K, V>
    decreases |us|
  {
    if us == [] then m else ApplyUpdates(ApplyUpdate(m, us[0]), us[1..])
  }

  /** The keys a single mutation writes. */
  function KeysOf<K, V>(u: Update<K, V>): set<K>
  {
    match u
    case Put(k, _) => {k}
    case PutAll(entries) => entries.Keys
  }

  /** Every key some mutation of `us` writes. */
  function MentionedKeys<K, V>(us: seq<Update<K, V>>): set<K>
    decreases |us|
  {
    if us == [] then {} else KeysOf(us[0]) + MentionedKeys(us[1..])
  }

  /** The value mutation `u` writes at `k`, if it writes `k` at all. */
  function Assigns<K, V>(u: Update<K, V>, k: K): Option<V>
  {
    match u
    case Put(k', v) => if k' == k then Some(v) else None
    case PutAll(entries) => if k in entries then Some(entries[k]) else None
  }

  /** The value written at `k` by the last mutation of `us` that writes `k`, found by scanning from the end. */
  function LastAssigned<K, V>(us: seq<Update<K, V>>, k: K): Option<V>
    decreases |us|
  {
    if us == [] then None
    else
      match Assigns(us[|us| - 1], k)
      case Some(v) => Some(v)
      case None => LastAssigned(us[..|us| - 1], k)
  }

  /** put(k, v) adds or overwrites exactly `k`: every other key keeps its presence and its value. */
  lemma PutChangesOnlyItsKey<K, V>(m: map<K, V>, k: K, v: V)
    ensures ApplyUpdate(m, Put(k, v)).Keys == m.Keys + {k}
    ensures ApplyUpdate(m, Put(k, v))[k] == v
    ensures forall j :: j in m && j != k ==> ApplyUpdate(m, Put(k, v))[j] == m[j]
  {
  }

  /** putAll(entries) merges every entry: a key present in both takes the new value, the others are unchanged. */
  lemma PutAllMerges<K, V>(m: map<K, V>, entries: map<K, V>)
    ensures ApplyUpdate(m, PutAll(entries)).Keys == m.Keys + entries.Keys
    ensures forall j :: j in entries ==> ApplyUpdate(m, PutAll(entries))[j] == entries[j]
    ensures forall j :: j in m && j !in entries ==> ApplyUpdate(m, PutAll(entries))[j] == m[j]
  {
  }

  /** Running the mutations of `us` and then `u` is running `us + [u]`. */
  lemma {:induction false} ApplyUpdatesSnoc<K, V>(m: map<K, V>, us: seq<Update<K, V>>, u: Update<K, V>)
    ensures ApplyUpdates(m, us + [u]) == ApplyUpdate(ApplyUpdates(m, us), u)
    decreases |us|
  {
    if us == [] {
      assert [u][1..] == [];
    } else {
      assert (us + [u])[1..] == us[1..] + [u];
      ApplyUpdatesSnoc(ApplyUpdate(m, us[0]), us[1..], u);
    }
  }

  /** The keys of the accumulated map are the original keys plus every key some call mentioned. */
  lemma {:induction false} ApplyUpdatesKeys<K, V>(m: map<K, V>, us: seq<Update<K, V>>)
    ensures ApplyUpdates(m, us).Keys == m.Keys + MentionedKeys(us)
    decreases |us|
  {
    if us != [] {
      ApplyUpdatesKeys(ApplyUpdate(m, us[0]), us[1..]);
    }
  }

  /**
   * Each key of the accumulated map holds the value of the last call that
   * wrote it; a key that no call wrote keeps its original value, and a key
   * that is neither original nor written is absent.
   */
  lemma {:induction false} ApplyUpdatesLookup<K, V>(m: map<K, V>, us: seq<Update<K, V>>, k: K)
    ensures k in ApplyUpdates(m, us) <==> k in m || LastAssigned(us, k).Some?
    ensures LastAssigned(us, k).Some? ==> k in ApplyUpdates(m, us) && ApplyUpdates(m, us)[k] == LastAssigned(us, k).value
    ensures LastAssigned(us, k).None? && k in m ==> ApplyUpdates(m, us)[k] == m[k]
    decreases |us|
  {
    if us != [] {
      var init, u := us[..|us| - 1], us[|us| - 1];
      assert us == init + [u];
      ApplyUpdatesSnoc(m, init, u);
      ApplyUpdatesLookup(m, init, k);
    }
  }

  /** A key is last-assigned by some call exactly when some call mentions it. */
  lemma {:induction false} LastAssignedIffMentioned<K, V>(us: seq<Update<K, V>>, k: K)
    ensures LastAssigned(us, k).Some? <==> k in MentionedKeys(us)
    decreases |us|
  {
    if us != [] {
      var init, u := us[..|us| - 1], us[|us| - 1];
      assert us == init + [u];
      MentionedKeysAppend(init, [u]);
      LastAssignedIffMentioned(init, k);
      assert [u][1..] == [];
    }
  }

  lemma {:induction false} MentionedKeysAppend<K, V>(us: seq<Update<K, V>>, vs: seq<Update<K, V>>)
    ensures MentionedKeys(us + vs) == MentionedKeys(us) + MentionedKeys(vs)
    decreases |us|
  {
    if us == [] {
      assert us + vs == vs;
    } else {
      assert (us + vs)[1..] == us[1..] + vs;
      MentionedKeysAppend(us[1..], vs);
    }
  }
}
