/**
 Small shared vocabulary: optional values, and dictionary lookup with a default.  The extensionality lemmas say that
 two dictionaries or sets with the same entries are equal; they are stated once for any key type and once for integer
 keys, where the verifier does not see it by itself.  Nothing in this module is particular to the game or the queue.
 */
module Common {

  datatype Option<+T> = None | Some(value: T)

  function GetOr<K, V>(m: map<K, V>, k: K, default: V): V { if k in m then m[k] else default }

  function Lookup<K, V>(m: map<K, V>, k: K): Option<V> { if k in m then Some(m[k]) else None }

  lemma SameMap<K, V>(m: map<K, V>, n: map<K, V>)
    requires forall k :: k in m <==> k in n
    requires forall k :: k in m ==> m[k] == n[k]
    ensures m == n
  {
  }

  /** Extensionality for dictionaries with integer keys. */
  lemma SameTable<V>(m: map<int, V>, n: map<int, V>)
    requires forall k: int :: k in m <==> k in n
    requires forall k: int :: k in m ==> m[k] == n[k]
    ensures m == n
  {
    forall k ensures k in m <==> k in n {
    }
    forall k | k in m ensures m[k] == n[k] {
    }
    SameMap(m, n);
  }

  lemma SameSet<K>(s: set<K>, t: set<K>)
    requires forall k :: k in s <==> k in t
    ensures s == t
  {
  }

  lemma SameIds(s: set<int>, t: set<int>)
    requires forall k: int :: k in s <==> k in t
    ensures s == t
  {
    forall k ensures k in s <==> k in t {
    }
    SameSet(s, t);
  }
}
