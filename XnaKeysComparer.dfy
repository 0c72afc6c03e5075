/**
 * The equality comparer for host keys (Helpers/XnaKeysComparer.cs), used by the
 * keyboard's hash set and held-time dictionary: two keys are equal when they are
 * the same enum value, and a key hashes to its integer value.
 */
module XnaKeysComparer {
  import opened Xna

  predicate Equals(x: Keys, y: Keys)
  {
    x == y
  }

  function GetHashCode(key: Keys): int
  {
    key as int
  }

  /** The comparer is consistent: equal keys hash alike, and the hash separates keys with different codes. */
  lemma HashMatchesEquality(x: Keys, y: Keys)
    ensures Equals(x, y) <==> GetHashCode(x) == GetHashCode(y)
    ensures Equals(x, y) <==> x as int == y as int
  {
  }

  /** The hash is the key's integer value, so it lies in the enum's 32-bit range whenever the key does. */
  lemma HashIsTheKeyCode(key: Keys)
    ensures GetHashCode(key) == key as int
    ensures -0x8000_0000 <= key as int < 0x8000_0000 ==> -0x8000_0000 <= GetHashCode(key) < 0x8000_0000
  {
  }
}
