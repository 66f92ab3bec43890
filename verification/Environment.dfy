/** The assumptions made about the cluster can be met, for any data. */
module Environment {
  import opened Keys
  import opened Wrappers
  import opened RangeCache
  import opened Cluster

  lemma {:induction false} Least(s: set<Key>) returns (m: Key)
    requires exists x :: x in s
    ensures m in s && forall x :: x in s ==> Leq(m, x)
    decreases |s|
  {
    m :| m in s;
    var rest := s - {m};
    if exists x :: x in rest {
      var n := Least(rest);
      LessTotal(m, n);
      var least := if Less(n, m) then n else m;
      forall x | x in s ensures Leq(least, x) {
        if x != m {
          assert x in rest;
          if least == m { LeqTransitive(m, n, x); }
        }
      }
      m := least;
    } else {
      forall x | x in s ensures Leq(m, x) {
        assert x in rest || x == m;
      }
    }
  }

  /** Every interval has a correct answer to a scan of two rows. */
  lemma ScanExists(w: World, intents: map<Key, Bytes>, lo: Key, hi: Key) returns (rows: seq<Item>)
    ensures CorrectScan(w, intents, lo, hi, rows)
  {
    var s := set x | x in intents.Keys + w.base.Keys && Leq(lo, x) && Less(x, hi) && Visible(w, intents, x) != [];
    assert forall x :: Leq(lo, x) && Less(x, hi) && Visible(w, intents, x) != [] ==> x in s;
    if !exists x :: x in s { return []; }
    var a := Least(s);
    var rest := s - {a};
    rows := [Item(a, Visible(w, intents, a))];
    if exists x :: x in rest {
      var b := Least(rest);
      assert Leq(a, b) && a != b;
      rows := rows + [Item(b, Visible(w, intents, b))];
    }
    forall x | x in s ensures InScan(rows, x) {
      assert x == a || x in rest;
    }
  }

  ghost function ScanOf(w: World, intents: map<Key, Bytes>, lo: Key, hi: Key): (rows: seq<Item>)
    ensures CorrectScan(w, intents, lo, hi, rows)
  {
    assert exists rows :: CorrectScan(w, intents, lo, hi, rows) by { var rows := ScanExists(w, intents, lo, hi); }
    var rows :| CorrectScan(w, intents, lo, hi, rows);
    rows
  }

  /** Any world with right answers to scans put in. */
  lemma Answering(plain: World) returns (w: World)
    ensures w == plain.(scan := w.scan) && Honest(w)
  {
    w := plain.(scan := (t, intents, lo, hi) => ScanOf(plain, intents, lo, hi));
    forall t, intents, lo, hi ensures CorrectScan(w, intents, lo, hi, w.scan(t, intents, lo, hi)) {
      SameBase(plain, w, intents, lo, hi, ScanOf(plain, intents, lo, hi));
    }
  }

  /** One range for everything, one node that never fails. */
  lemma EnvironmentExists(base: map<Key, Bytes>) returns (w: World)
    ensures Laid(w) && Honest(w) && Calm(w) && w.base == base
  {
    var d := RangeDescriptor(1, TXN_PREFIX, END_PREFIX, [1]);
    w := Answering(World((t, k) => d, t => Fine, t => None, t => None, t => false, (t, k) => false,
                         (t, intents, lo, hi) => [], {END_PREFIX}, base));
    assert Less(TXN_PREFIX, END_PREFIX);
  }

  /** One range at first, two from the first request on. */
  function Splitting(t: nat, k: Key): RangeDescriptor {
    if t == 0 then RangeDescriptor(1, TXN_PREFIX, END_PREFIX, [1])
    else if Less(k, USER_PREFIX) then RangeDescriptor(1, TXN_PREFIX, USER_PREFIX, [1])
    else RangeDescriptor(2, USER_PREFIX, END_PREFIX, [1, 2])
  }

  lemma SplittingIsLaid(w: World)
    requires w.locate == Splitting && w.bounds == {USER_PREFIX, END_PREFIX}
    ensures Laid(w)
  {
    assert Less(TXN_PREFIX, USER_PREFIX) && Less(USER_PREFIX, END_PREFIX) && Less(TXN_PREFIX, END_PREFIX);
    forall t: nat, k | InSpace(k) ensures ProperRange(w, t, k) { Trichotomy(k, USER_PREFIX); }
    forall t: nat, k, x | InSpace(k) && InSpace(x) ensures Partition(w, t, k, x) { Trichotomy(x, USER_PREFIX); }
    forall t: nat, u: nat, k, x | InSpace(k) ensures SplitsOnly(w, t, u, k, x) {
      if t <= u && Contains(w.locate(u, k), x) {
        if Less(x, USER_PREFIX) { LessTransitive(x, USER_PREFIX, END_PREFIX); }
        if Leq(USER_PREFIX, x) { LeqTransitive(TXN_PREFIX, USER_PREFIX, x); }
      }
    }
  }

  /** The ranges split after the first request, which meets a range that has moved. */
  lemma SplittingEnvironmentExists(base: map<Key, Bytes>) returns (w: World)
    ensures Laid(w) && Honest(w) && w.base == base
    ensures w.fault(0).RangeNotFound? && w.locate(0, USER_PREFIX).rangeID != w.locate(1, USER_PREFIX).rangeID
  {
    w := Answering(World(Splitting, t => if t == 0 then RangeNotFound else Fine, t => None, t => None, t => false,
                         (t, k) => false, (t, intents, lo, hi) => [], {USER_PREFIX, END_PREFIX}, base));
    SplittingIsLaid(w);
    LessIrreflexive(USER_PREFIX);
  }

  lemma SameBase(v: World, w: World, intents: map<Key, Bytes>, lo: Key, hi: Key, rows: seq<Item>)
    requires v.base == w.base && CorrectScan(v, intents, lo, hi, rows)
    ensures CorrectScan(w, intents, lo, hi, rows)
  {
    assert forall x :: Visible(v, intents, x) == Visible(w, intents, x);
  }
}
