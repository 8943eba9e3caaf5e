/** In which order the database reads the audit table back, and when every such reading verifies. */
module AuditReadings {
  import opened Types
  import opened TextOrder
  import opened AuditChain

  /** Every row from `from` on is later than all rows before it. */
  ghost predicate Increasing(table: seq<Row>, from: nat) {
    forall j, i | 0 <= j < i < |table| && from <= i :: Before(table[j].timestamp, table[i].timestamp)
  }

  /** The rows from `from` on are each later than the ones before them, back to there. */
  ghost predicate Rising(table: seq<Row>, from: nat) {
    forall j, i | from <= j < i < |table| :: Before(table[j].timestamp, table[i].timestamp)
  }

  lemma SameInit(a: seq<Row>, b: seq<Row>)
    requires |a| == |b| > 0 && a[|a| - 1] == b[|b| - 1] && multiset(a) == multiset(b)
    ensures multiset(a[..|a| - 1]) == multiset(b[..|b| - 1])
  {
    var n := |a| - 1;
    assert a == a[..n] + [a[n]] && b == b[..n] + [b[n]];
    assert multiset(a[..n]) == multiset(a) - multiset{a[n]};
  }

  /** The strictly latest row comes last in every reading. */
  lemma LatestLast(order: seq<Row>, table: seq<Row>)
    requires Ordered(order, table) && |table| > 0 && Increasing(table, |table| - 1)
    ensures |order| == |table| && order[|order| - 1] == table[|table| - 1]
    ensures Ordered(order[..|order| - 1], table[..|table| - 1])
  {
    var n := |table| - 1;
    assert |multiset(order)| == |multiset(table)|;
    assert table[n] in multiset(table);
    var i :| 0 <= i < |order| && order[i] == table[n];
    assert order[n] in multiset(order);
    var k :| 0 <= k < |table| && table[k] == order[n];
    SameInit(order, table);
  }

  /** Rows appended in strictly increasing order are read back in the order they were written. */
  lemma {:induction false} ReadBack(order: seq<Row>, table: seq<Row>, from: nat)
    requires Ordered(order, table) && from <= |table| && Increasing(table, from)
    ensures |order| == |table| && order[from..] == table[from..]
    ensures multiset(order[..from]) == multiset(table[..from])
    decreases |table|
  {
    if from == |table| {
      assert |multiset(order)| == |multiset(table)|;
      assert order[..from] == order && table[..from] == table;
    } else {
      var n := |table| - 1;
      assert Increasing(table[..n], from) && Increasing(table, n);
      LatestLast(order, table);
      hide Ordered, Increasing;
      ReadBack(order[..n], table[..n], from);
      assert order[from..] == order[..n][from..] + [order[n]];
      assert table[from..] == table[..n][from..] + [table[n]];
      assert order[..n][..from] == order[..from] && table[..n][..from] == table[..from];
    }
  }

  lemma AppendedRow(h: Hash, table: seq<Row>, r: Row) returns (answer: Option<string>)
    requires Appended(h, table, r)
    ensures Answers(table, answer) && Hashed(r)
    ensures r.prevHash.value == PrevOf(h, answer) && h(Preimage(r)) == r.entryHash.value
  {
    hide Answers;
    answer :| Answers(table, answer) && r == Chained(h, EntryOf(r), PrevOf(h, answer));
  }

  /** The query finds the strictly latest row. */
  lemma FindsLatest(table: seq<Row>, answer: Option<string>)
    requires Answers(table, answer) && |table| > 0 && table[|table| - 1].entryHash.Some?
    requires forall j | 0 <= j < |table| - 1 && table[j].entryHash.Some? ::
        Before(table[j].timestamp, table[|table| - 1].timestamp)
    ensures answer == table[|table| - 1].entryHash
  {
    if answer.Some? {
      var k :| 0 <= k < |table| && table[k].entryHash == answer && Latest(table, k);
    }
  }

  /** A row written after all others links to its predecessor, or to the seed if it is the first hashed one. */
  lemma LinksToPredecessor(h: Hash, legacy: seq<Row>, table: seq<Row>, i: nat)
    requires Written(h, legacy, table) && Rising(table, |legacy|) && |legacy| <= i < |table|
    ensures Hashed(table[i]) && h(Preimage(table[i])) == table[i].entryHash.value
    ensures table[i].prevHash.value == if i == |legacy| then h(GENESIS) else table[i - 1].entryHash.value
    ensures i > |legacy| ==> Hashed(table[i - 1])
  {
    hide Appended, Preimage, Before, Latest;
    var answer := AppendedRow(h, table[..i], table[i]);
    if i > |legacy| {
      var _ := AppendedRow(h, table[..i - 1], table[i - 1]);
      FindsLatest(table[..i], answer);
    } else {
      assert table[..i] == legacy;
    }
  }

  // ---- Which logs verify in every reading ----

  /** If two rows or more were appended, no row from before the migration is dated within their span. */
  ghost predicate Outlying(table: seq<Row>, from: nat) {
    from + 2 <= |table| ==>
      forall l | 0 <= l < from ::
        || Before(table[l].timestamp, table[from].timestamp)
        || Before(table[|table| - 1].timestamp, table[l].timestamp)
  }

  /** What `record` appends: hashed rows, each linked to one appended earlier, or the first one to the seed. */
  lemma WrittenRow(h: Hash, legacy: seq<Row>, table: seq<Row>, i: nat) returns (parent: Option<nat>)
    requires FixedLength(h) && Written(h, legacy, table) && |legacy| <= i < |table|
    ensures Hashed(table[i]) && table[i].entryHash.value == h(Preimage(table[i])) && |table[i].prevHash.value| == 64
    ensures parent.None? ==> i == |legacy| && table[i].prevHash.value == h(GENESIS)
    ensures parent.Some? ==>
      && |legacy| <= parent.value < i && table[parent.value].entryHash.Some?
      && table[i].prevHash == table[parent.value].entryHash
    decreases i
  {
    hide Preimage, Latest;
    var answer := AppendedRow(h, table[..i], table[i]);
    if answer.Some? {
      var k :| 0 <= k < i && table[..i][k].entryHash == answer && Latest(table[..i], k);
      var _ := WrittenRow(h, legacy, table, k);
      parent := Some(k);
    } else {
      parent := None;
      if i > |legacy| {
        var _ := WrittenRow(h, legacy, table, |legacy|);
      }
    }
  }

  /** Appended rows are told apart by their hashes, and from the seed. */
  lemma WrittenDistinct(h: Hash, legacy: seq<Row>, table: seq<Row>, i: nat, j: nat)
    requires FixedLength(h) && CollisionFree(h, Inputs(table)) && Written(h, legacy, table) && Keyed(table)
    requires |legacy| <= i < |table| && |legacy| <= j < |table|
    ensures table[i].entryHash == table[j].entryHash ==> i == j
    ensures table[i].entryHash.Some? && table[i].entryHash.value != h(GENESIS)
  {
    hide Written, Inputs;
    var _ := WrittenRow(h, legacy, table, i);
    var _ := WrittenRow(h, legacy, table, j);
    InputsOf(table, i);
    InputsOf(table, j);
    hide Preimage;
    IdInPreimage(table[i]);
    IdInPreimage(table[j]);
  }

  lemma LegacyUnhashed(h: Hash, legacy: seq<Row>, table: seq<Row>, l: nat)
    requires Written(h, legacy, table) && l < |legacy|
    ensures !Hashed(table[l])
  {
    assert table[l] == legacy[l];
  }

  lemma {:induction false} Once(s: seq<Row>, x: Row)
    requires forall i, j | 0 <= i < j < |s| :: s[i] != s[j]
    ensures multiset(s)[x] <= 1
  {
    if s != [] {
      var n := |s| - 1;
      Once(s[..n], x);
      assert s == s[..n] + [s[n]];
      assert multiset(s) == multiset(s[..n]) + multiset{s[n]};
      assert x == s[n] ==> x !in s[..n];
    }
  }

  lemma Twice(s: seq<Row>, i: nat, j: nat)
    requires i < j < |s| && s[i] == s[j]
    ensures multiset(s)[s[i]] >= 2
  {
    assert s == s[..j] + s[j..];
    assert s[i] in s[..j] && s[j] in s[j..];
    assert multiset(s) == multiset(s[..j]) + multiset(s[j..]);
  }

  lemma NoRepeats(order: seq<Row>, table: seq<Row>, i: nat, j: nat)
    requires multiset(order) == multiset(table) && i < j < |order|
    requires forall i, j | 0 <= i < j < |table| :: table[i] != table[j]
    ensures order[i] != order[j]
  {
    if order[i] == order[j] {
      Twice(order, i, j);
      Once(table, order[i]);
    }
  }

  lemma SameRow(order: seq<Row>, table: seq<Row>, a: nat, b: nat)
    requires multiset(order) == multiset(table) && Keyed(table) && a < |order| && b < |order| && order[a] == order[b]
    ensures a == b
  {
    if a != b {
      NoRepeats(order, table, if a < b then a else b, if a < b then b else a);
    }
  }

  /** In a reading that verifies, an appended row comes right after the one it links to. */
  lemma AfterParent(h: Hash, legacy: seq<Row>, table: seq<Row>, order: seq<Row>, i: nat, q: nat)
    returns (parent: nat)
    requires FixedLength(h) && CollisionFree(h, Inputs(table)) && Written(h, legacy, table) && Keyed(table)
    requires multiset(order) == multiset(table) && Intact(h, order)
    requires |legacy| < i < |table| && q < |order| && order[q] == table[i]
    ensures |legacy| <= parent < i && q > 0 && order[q - 1] == table[parent]
  {
    hide Written, Inputs, CollisionFree, Preimage, Keyed;
    var link := WrittenRow(h, legacy, table, i);
    parent := link.value;
    WrittenDistinct(h, legacy, table, parent, parent);
    assert !Broken(h, order, q);
    var n := FindIn(order, table, q - 1);
    if n < |legacy| {
      LegacyUnhashed(h, legacy, table, n);
    } else {
      WrittenDistinct(h, legacy, table, n, parent);
    }
  }

  /** Where row `i` is read if the appended rows, `m` onwards, are read in a block that begins at `first`. */
  ghost predicate InPlace(order: seq<Row>, table: seq<Row>, first: nat, m: nat, i: nat)
    requires m <= i < |table|
  {
    first + (i - m) < |order| && order[first + (i - m)] == table[i]
  }

  /** Such a reading has the appended rows in a block, in the order they were appended. */
  lemma {:induction false} Block(h: Hash, legacy: seq<Row>, table: seq<Row>, order: seq<Row>, first: nat, n: nat)
    requires FixedLength(h) && CollisionFree(h, Inputs(table)) && Written(h, legacy, table) && Keyed(table)
    requires multiset(order) == multiset(table) && Intact(h, order)
    requires |legacy| < n <= |table| && first < |order| && order[first] == table[|legacy|]
    ensures forall i | |legacy| <= i < n :: InPlace(order, table, first, |legacy|, i)
    decreases n
  {
    hide FixedLength, Written, Inputs, CollisionFree, Intact, Keyed;
    if n == |legacy| + 1 {
      assert InPlace(order, table, first, |legacy|, |legacy|);
    } else {
      hide InPlace;
      Block(h, legacy, table, order, first, n - 1);
      NextInBlock(h, legacy, table, order, first, n - 1);
    }
  }

  lemma NextInBlock(h: Hash, legacy: seq<Row>, table: seq<Row>, order: seq<Row>, first: nat, i: nat)
    requires FixedLength(h) && CollisionFree(h, Inputs(table)) && Written(h, legacy, table) && Keyed(table)
    requires multiset(order) == multiset(table) && Intact(h, order)
    requires |legacy| < i < |table| && forall j | |legacy| <= j < i :: InPlace(order, table, first, |legacy|, j)
    ensures InPlace(order, table, first, |legacy|, i)
  {
    hide FixedLength, Written, Inputs, CollisionFree, Intact, Keyed;
    var q := FindIn(table, order, i);
    var parent := AfterParent(h, legacy, table, order, i, q);
    assert InPlace(order, table, first, |legacy|, parent);
    SameRow(order, table, q - 1, first + (parent - |legacy|));
    if parent < i - 1 {
      assert InPlace(order, table, first, |legacy|, parent + 1);
      OtherRow(table, parent + 1, i);
    }
  }

  lemma OtherRow(table: seq<Row>, i: nat, j: nat)
    requires Keyed(table) && i < j < |table|
    ensures table[i] != table[j]
  {
  }

  /** Two appended rows lie as far apart in the reading as in the table. */
  lemma Spaced(h: Hash, legacy: seq<Row>, table: seq<Row>, order: seq<Row>, i: nat, a: nat, j: nat, b: nat)
    requires FixedLength(h) && CollisionFree(h, Inputs(table)) && Written(h, legacy, table) && Keyed(table)
    requires multiset(order) == multiset(table) && Intact(h, order)
    requires |legacy| <= i < |table| && |legacy| <= j < |table|
    requires a < |order| && b < |order| && order[a] == table[i] && order[b] == table[j]
    ensures a - b == i - j
  {
    hide FixedLength, Written, Inputs, CollisionFree, Intact, Keyed;
    var first := FindIn(table, order, |legacy|);
    Block(h, legacy, table, order, first, |table|);
    assert InPlace(order, table, first, |legacy|, i) && InPlace(order, table, first, |legacy|, j);
    SameRow(order, table, a, first + (i - |legacy|));
    SameRow(order, table, b, first + (j - |legacy|));
  }

  lemma FindIn(order: seq<Row>, table: seq<Row>, p: nat) returns (m: nat)
    requires multiset(order) == multiset(table) && p < |order|
    ensures m < |table| && table[m] == order[p]
  {
    assert order[p] in multiset(table);
    m :| m < |table| && table[m] == order[p];
  }

  /** Some reading in timestamp order exists. */
  lemma {:induction false} SomeReading(table: seq<Row>) returns (order: seq<Row>)
    ensures Ordered(order, table)
  {
    order := [];
    if table != [] {
      var n := |table| - 1;
      var init := SomeReading(table[..n]);
      order := Place(init, table[n]);
      assert table == table[..n] + [table[n]];
    }
  }

  lemma {:induction false} Place(order: seq<Row>, r: Row) returns (longer: seq<Row>)
    requires forall i, j | 0 <= i < j < |order| :: !Before(order[j].timestamp, order[i].timestamp)
    ensures multiset(longer) == multiset(order) + multiset{r}
    ensures forall i, j | 0 <= i < j < |longer| :: !Before(longer[j].timestamp, longer[i].timestamp)
  {
    hide Before;
    var n := |order| - 1;
    if order == [] || !Before(r.timestamp, order[n].timestamp) {
      longer := order + [r];
      forall i | 0 <= i < |order| ensures !Before(r.timestamp, order[i].timestamp) {
        if i < n {
          NotAfter(order[i].timestamp, order[n].timestamp, r.timestamp);
        }
      }
    } else {
      var init := Place(order[..n], r);
      longer := init + [order[n]];
      assert order == order[..n] + [order[n]];
      forall i | 0 <= i < |init| ensures !Before(order[n].timestamp, init[i].timestamp) {
        assert init[i] in multiset(order[..n]) + multiset{r};
        if init[i] == r {
          Asymmetric(r.timestamp, order[n].timestamp);
        } else {
          var j :| 0 <= j < n && order[..n][j] == init[i];
        }
      }
    }
  }

  /** Rows with one timestamp may be read either way. */
  lemma Swapped(order: seq<Row>, table: seq<Row>, a: nat, b: nat) returns (other: seq<Row>)
    requires Ordered(order, table) && a < b < |order| && order[a].timestamp == order[b].timestamp
    ensures Ordered(other, table) && other == order[a := order[b]][b := order[a]]
  {
    other := order[a := order[b]][b := order[a]];
    assert multiset(other) == multiset(order);
    assert forall k | 0 <= k < |order| :: other[k].timestamp == order[k].timestamp;
  }

  /** Read in timestamp order and verified however ties are broken. */
  ghost predicate AlwaysPasses(h: Hash, table: seq<Row>) {
    forall order | Ordered(order, table) :: Passes(h, order)
  }

  lemma PassingRises(h: Hash, legacy: seq<Row>, table: seq<Row>, j: nat, i: nat)
    requires FixedLength(h) && CollisionFree(h, Inputs(table)) && Written(h, legacy, table) && Keyed(table)
    requires AlwaysPasses(h, table) && |legacy| <= j < i < |table|
    ensures Before(table[j].timestamp, table[i].timestamp)
  {
    hide FixedLength, Inputs, CollisionFree, Intact, Written, Keyed, Before;
    var order := SomeReading(table);
    var a := FindIn(table, order, j);
    var b := FindIn(table, order, i);
    Spaced(h, legacy, table, order, i, b, j, a);
    Total(table[j].timestamp, table[i].timestamp);
    if table[j].timestamp == table[i].timestamp {
      var other := Swapped(order, table, a, b);
      Spaced(h, legacy, table, other, i, a, j, b);
    }
  }

  /** Where a row from before the migration is read, if the reading verifies: outside the block. */
  lemma OutsideBlock(h: Hash, legacy: seq<Row>, table: seq<Row>, order: seq<Row>, l: nat, p: nat, first: nat)
    requires FixedLength(h) && CollisionFree(h, Inputs(table)) && Written(h, legacy, table) && Keyed(table)
    requires multiset(order) == multiset(table) && Intact(h, order)
    requires l < |legacy| < |table| && p < |order| && order[p] == table[l]
    requires first < |order| && order[first] == table[|legacy|]
    ensures p < first || p > first + (|table| - 1 - |legacy|)
  {
    hide FixedLength, Inputs, CollisionFree, Intact, Written, Keyed;
    Block(h, legacy, table, order, first, |table|);
    if first <= p <= first + (|table| - 1 - |legacy|) {
      var i := |legacy| + (p - first);
      assert InPlace(order, table, first, |legacy|, i);
      OtherRow(table, l, i);
    }
  }

  lemma PassingOutlies(h: Hash, legacy: seq<Row>, table: seq<Row>, l: nat)
    requires FixedLength(h) && CollisionFree(h, Inputs(table)) && Written(h, legacy, table) && Keyed(table)
    requires AlwaysPasses(h, table) && l < |legacy| && |legacy| + 2 <= |table|
    ensures || Before(table[l].timestamp, table[|legacy|].timestamp)
            || Before(table[|table| - 1].timestamp, table[l].timestamp)
  {
    hide FixedLength, Inputs, CollisionFree, Intact, Written, Keyed, Before;
    var order := SomeReading(table);
    var m, z := |legacy|, |table| - 1;
    var p := FindIn(table, order, l);
    var first := FindIn(table, order, m);
    Block(h, legacy, table, order, first, |table|);
    OutsideBlock(h, legacy, table, order, l, p, first);
    assert InPlace(order, table, first, m, m + 1) && InPlace(order, table, first, m, z - 1);
    assert InPlace(order, table, first, m, z);
    Total(table[l].timestamp, table[m].timestamp);
    Total(table[z].timestamp, table[l].timestamp);
    if p < first && table[l].timestamp == table[m].timestamp {
      var other := Swapped(order, table, p, first);
      Spaced(h, legacy, table, other, m + 1, first + 1, m, p);
    } else if p > first && table[l].timestamp == table[z].timestamp {
      var last := first + (z - m);
      var other := Swapped(order, table, last, p);
      Spaced(h, legacy, table, other, z, p, z - 1, last - 1);
    }
  }

  lemma OnlyOnce(s: seq<Row>, i: nat)
    requires i < |s| && forall j | 0 <= j < |s| && j != i :: s[j] != s[i]
    ensures multiset(s)[s[i]] == 1
  {
    var x := s[i];
    assert s == s[..i] + [x] + s[i + 1..];
    assert multiset(s) == multiset(s[..i]) + multiset{x} + multiset(s[i + 1..]);
    assert x !in s[..i] && x !in s[i + 1..];
  }

  /** An appended row is read once. */
  lemma ReadOnce(h: Hash, legacy: seq<Row>, table: seq<Row>, order: seq<Row>, i: nat, a: nat, b: nat)
    requires Written(h, legacy, table) && Rising(table, |legacy|) && multiset(order) == multiset(table)
    requires |legacy| <= i < |table| && a < b < |order| && order[a] == table[i]
    ensures order[b] != table[i]
  {
    LinksToPredecessor(h, legacy, table, i);
    forall j | 0 <= j < |table| && j != i ensures table[j] != table[i] {
      Irreflexive(table[i].timestamp);
      if j < |legacy| {
        LegacyUnhashed(h, legacy, table, j);
      }
    }
    OnlyOnce(table, i);
    if order[b] == table[i] {
      Twice(order, a, b);
    }
  }

  /** The first appended row is read after a row without hashes, or at once. */
  lemma FirstStarts(h: Hash, legacy: seq<Row>, table: seq<Row>, order: seq<Row>, q: nat)
    requires Written(h, legacy, table) && Rising(table, |legacy|) && Ordered(order, table)
    requires |legacy| < |table| && q < |order| && order[q] == table[|legacy|] && q > 0
    ensures !Hashed(order[q - 1])
  {
    var k := FindIn(order, table, q - 1);
    hide Written;
    if k < |legacy| {
      LegacyUnhashed(h, legacy, table, k);
    } else if k == |legacy| {
      ReadOnce(h, legacy, table, order, k, q - 1, q);
    }
  }

  /** Every other one is read after its predecessor. */
  lemma OthersFollow(h: Hash, legacy: seq<Row>, table: seq<Row>, order: seq<Row>, i: nat, q: nat)
    requires Written(h, legacy, table) && Rising(table, |legacy|) && Outlying(table, |legacy|) && Ordered(order, table)
    requires |legacy| < i < |table| && q < |order| && order[q] == table[i]
    ensures q > 0 && order[q - 1] == table[i - 1]
  {
    hide Written, Before;
    var p := FindIn(table, order, i - 1);
    Irreflexive(table[i].timestamp);
    assert p < q;
    if p < q - 1 {
      var k := FindIn(order, table, q - 1);
      if k < |legacy| {
        Between(table, |legacy|, i, k);
      } else if k == i {
        ReadOnce(h, legacy, table, order, i, q - 1, q);
      }
    }
  }

  /** A row from before the migration is not dated between two appended ones. */
  lemma Between(table: seq<Row>, m: nat, i: nat, k: nat)
    requires Rising(table, m) && Outlying(table, m) && k < m < i < |table|
    ensures Before(table[k].timestamp, table[i - 1].timestamp) || Before(table[i].timestamp, table[k].timestamp)
  {
    hide Before;
    var z := |table| - 1;
    if Before(table[k].timestamp, table[m].timestamp) {
      if m < i - 1 {
        Transitive(table[k].timestamp, table[m].timestamp, table[i - 1].timestamp);
      }
    } else if i < z {
      Transitive(table[i].timestamp, table[z].timestamp, table[k].timestamp);
    }
  }

  lemma ReadingPasses(h: Hash, legacy: seq<Row>, table: seq<Row>, order: seq<Row>)
    requires Written(h, legacy, table) && Rising(table, |legacy|) && Outlying(table, |legacy|) && Ordered(order, table)
    ensures Intact(h, order)
  {
    forall q | 0 <= q < |order| ensures !Broken(h, order, q) {
      var i := FindIn(order, table, q);
      hide Written, Rising, Outlying, Ordered, Preimage;
      if i < |legacy| {
        LegacyUnhashed(h, legacy, table, i);
      } else {
        LinksToPredecessor(h, legacy, table, i);
        if i > |legacy| {
          OthersFollow(h, legacy, table, order, i, q);
        } else if q > 0 {
          FirstStarts(h, legacy, table, order, q);
        }
      }
    }
  }

  /**
   * Every log written with strictly increasing timestamps verifies, however the database breaks
   * ties among the rows from before the migration, and every appended row counts as verified.
   */
  lemma Complete(h: Hash, legacy: seq<Row>, table: seq<Row>, order: seq<Row>)
    requires Written(h, legacy, table) && Increasing(table, |legacy|) && Ordered(order, table)
    ensures Intact(h, order) && |order| == |table| && |Verified(h, order)| == |table| - |legacy|
  {
    assert |legacy| <= |table|;
    hide Written, Intact, Broken, Before;
    ReadingPasses(h, legacy, table, order);
    ReadBack(order, table, |legacy|);
    forall q | 0 <= q < |order| ensures Hashed(order[q]) <==> |legacy| <= q {
      HashedFrom(h, legacy, table, order, q);
    }
    assert forall q | 0 <= q < |order| :: !Broken(h, order, q) by { Unbroken(h, order); }
    SuffixCard(Verified(h, order), |legacy|, |order|);
  }

  lemma Unbroken(h: Hash, order: seq<Row>)
    requires Intact(h, order)
    ensures forall q | 0 <= q < |order| :: !Broken(h, order, q)
  {
  }

  lemma {:induction false} SuffixCard(a: set<nat>, m: nat, n: nat)
    requires m <= n && forall i :: i in a <==> m <= i < n
    ensures |a| == n - m
    decreases n
  {
    if m < n {
      SuffixCard(a - {n - 1}, m, n - 1);
    }
  }

  lemma HashedFrom(h: Hash, legacy: seq<Row>, table: seq<Row>, order: seq<Row>, q: nat)
    requires Written(h, legacy, table) && |order| == |table| && q < |order|
    requires order[|legacy|..] == table[|legacy|..] && multiset(order[..|legacy|]) == multiset(table[..|legacy|])
    ensures Hashed(order[q]) <==> |legacy| <= q
  {
    var m := |legacy|;
    if q < m {
      assert order[..m][q] in multiset(table[..m]);
    } else {
      assert order[q] == order[m..][q - m] && table[q] == table[m..][q - m];
      var _ := AppendedRow(h, table[..q], table[q]);
    }
  }

  /**
   * Exactly when a written log verifies in every order the database may read it: when there is
   * something in it, each entry was recorded with a later timestamp than the ones recorded before
   * it, and no row from before the migration is dated within their span.
   */
  lemma CompleteIff(h: Hash, legacy: seq<Row>, table: seq<Row>)
    requires FixedLength(h) && CollisionFree(h, Inputs(table)) && Written(h, legacy, table) && Keyed(table)
    ensures AlwaysPasses(h, table) <==> table != [] && Rising(table, |legacy|) && Outlying(table, |legacy|)
  {
    hide Inputs, CollisionFree, Intact, Written, Before, Keyed;
    if table != [] && Rising(table, |legacy|) && Outlying(table, |legacy|) {
      forall order | Ordered(order, table) ensures Passes(h, order) {
        ReadingPasses(h, legacy, table, order);
        assert |multiset(order)| == |multiset(table)|;
      }
    }
    if AlwaysPasses(h, table) {
      var order := SomeReading(table);
      assert |multiset(order)| == |multiset(table)|;
      forall j, i | |legacy| <= j < i < |table| ensures Before(table[j].timestamp, table[i].timestamp) {
        PassingRises(h, legacy, table, j, i);
      }
      forall l | 0 <= l < |legacy| && |legacy| + 2 <= |table|
        ensures || Before(table[l].timestamp, table[|legacy|].timestamp)
                || Before(table[|table| - 1].timestamp, table[l].timestamp)
      {
        PassingOutlies(h, legacy, table, l);
      }
    }
  }

  /** Two entries recorded in the same instant. */
  function Tied(h: Hash): seq<Row> {
    var first := Chained(h, Entry("00000000-0000-7000-8000-000000000001", "t", "", "", ""), h(GENESIS));
    [first, Chained(h, Entry("00000000-0000-7000-8000-000000000002", "t", "", "", ""), first.entryHash.value)]
  }

  /** Read in the other order, which the database may choose, that log does not verify. */
  lemma TiedUnverified(h: Hash)
    requires FixedLength(h) && CollisionFree(h, Inputs(Tied(h)))
    ensures var log := Tied(h);
      && Written(h, [], log) && Keyed(log) && Intact(h, log)
      && Ordered([log[1], log[0]], log) && !Intact(h, [log[1], log[0]])
  {
    var log := Tied(h);
    TiedWritten(h);
    hide Written, Inputs;
    Irreflexive("t");
    WrittenDistinct(h, [], log, 0, 0);
    var swapped := [log[1], log[0]];
    assert multiset(swapped) == multiset(log);
    assert Broken(h, swapped, 0);
    assert !Broken(h, log, 0) && !Broken(h, log, 1);
  }

  lemma TiedWritten(h: Hash)
    ensures Written(h, [], Tied(h)) && Keyed(Tied(h))
  {
    var log := Tied(h);
    Irreflexive("t");
    assert log[..0] == [] && Answers([], None);
    assert Appended(h, log[..0], log[0]);
    var one := log[..1];
    assert one == [log[0]];
    assert Latest(one, 0);
    assert Answers(one, log[0].entryHash);
    assert log[1] == Chained(h, EntryOf(log[1]), PrevOf(h, log[0].entryHash));
    assert Appended(h, log[..1], log[1]);
    assert log[0].eventId[35] != log[1].eventId[35];
  }
}
