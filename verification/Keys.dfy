/** Keys: byte strings in lexicographic order, and the prefixes that divide the space. */
module Keys {
  import opened Varint

  type Key = seq<Byte>

  const TXN_PREFIX: Key := [1]
  const USER_PREFIX: Key := [2]
  const END_PREFIX: Key := [3]

  /** bytes.Compare(a, b) < 0 */
  predicate Less(a: Key, b: Key) {
    && b != []
    && (a == [] || a[0] < b[0] || (a[0] == b[0] && Less(a[1..], b[1..])))
  }

  predicate Leq(a: Key, b: Key) {
    a == b || Less(a, b)
  }

  function BytesCompare(a: Key, b: Key): int {
    if a == b then 0 else if Less(a, b) then -1 else 1
  }

  /** Key.Next: the key with a zero byte appended. */
  function Next(k: Key): Key {
    k + [0]
  }

  function UserKey(k: Key): Key {
    USER_PREFIX + k
  }

  predicate HasPrefix(k: Key, p: Key) {
    p <= k
  }

  lemma {:induction false} LessIrreflexive(a: Key)
    ensures !Less(a, a)
  {
    if a != [] { LessIrreflexive(a[1..]); }
  }

  lemma {:induction false} LessTransitive(a: Key, b: Key, c: Key)
    requires Less(a, b) && Less(b, c)
    ensures Less(a, c)
  {
    if a != [] && a[0] == b[0] == c[0] { LessTransitive(a[1..], b[1..], c[1..]); }
  }

  lemma {:induction false} LessTotal(a: Key, b: Key)
    ensures Less(a, b) || a == b || Less(b, a)
  {
    if a != [] && b != [] && a[0] == b[0] {
      LessTotal(a[1..], b[1..]);
      if a[1..] == b[1..] { assert a == [a[0]] + a[1..] && b == [b[0]] + b[1..]; }
    }
  }

  /** Exactly one of the three holds. */
  lemma Trichotomy(a: Key, b: Key)
    ensures Less(a, b) <==> !Leq(b, a)
    ensures Leq(a, b) && Leq(b, a) ==> a == b
  {
    LessTotal(a, b);
    LessIrreflexive(a);
    if Less(a, b) && Less(b, a) { LessTransitive(a, b, a); }
  }

  lemma LeqTransitive(a: Key, b: Key, c: Key)
    requires Leq(a, b) && Leq(b, c)
    ensures Leq(a, c)
    ensures Less(a, b) || Less(b, c) ==> Less(a, c)
  {
    if Less(a, b) && Less(b, c) { LessTransitive(a, b, c); }
  }

  /** No byte string lies strictly between a key and its Next. */
  lemma {:induction false} NextIsAdjacent(k: Key, x: Key)
    ensures Less(x, Next(k)) <==> Leq(x, k)
  {
    if x == [] {
    } else if k == [] {
      assert Next(k) == [0];
    } else {
      assert Next(k)[1..] == Next(k[1..]) && Next(k)[0] == k[0];
      NextIsAdjacent(k[1..], x[1..]);
      if x[0] == k[0] && x[1..] == k[1..] { assert x == [x[0]] + x[1..] && k == [k[0]] + k[1..]; }
      LessIrreflexive(k);
    }
  }

  /** User keys all lie between the prefix and the end of the user space. */
  lemma UserKeysInSpace(k: Key)
    ensures Leq(USER_PREFIX, UserKey(k)) && Less(UserKey(k), END_PREFIX)
    ensures UserKey(k)[|USER_PREFIX|..] == k
  {
    if k != [] { assert UserKey(k)[1..] == k; }
  }

  /** Up to the end of the user space, only its end has the end prefix. */
  lemma EndPrefixOnlyAtEnd(k: Key)
    requires Leq(k, END_PREFIX)
    ensures HasPrefix(k, END_PREFIX) <==> k == END_PREFIX
  {
    assert END_PREFIX[1..] == [];
    if HasPrefix(k, END_PREFIX) {
      assert k[0] == END_PREFIX[0];
      assert !Less(k[1..], END_PREFIX[1..]);
    }
  }
}
