/** Text in the order SQLite compares it: code point by code point. */
module TextOrder {

  predicate Before(a: string, b: string) {
    b != [] && (a == [] || a[0] < b[0] || (a[0] == b[0] && Before(a[1..], b[1..])))
  }

  lemma {:induction false} Irreflexive(a: string)
    ensures !Before(a, a)
  {
    if a != [] {
      Irreflexive(a[1..]);
    }
  }

  lemma {:induction false} Transitive(a: string, b: string, c: string)
    requires Before(a, b) && Before(b, c)
    ensures Before(a, c)
  {
    if a != [] && a[0] == b[0] == c[0] {
      Transitive(a[1..], b[1..], c[1..]);
    }
  }

  lemma {:induction false} Total(a: string, b: string)
    ensures Before(a, b) || a == b || Before(b, a)
  {
    if a != [] && b != [] && a[0] == b[0] {
      Total(a[1..], b[1..]);
      assert a == [a[0]] + a[1..] && b == [b[0]] + b[1..];
    }
  }

  lemma Asymmetric(a: string, b: string)
    requires Before(a, b)
    ensures !Before(b, a)
  {
    if Before(b, a) {
      Transitive(a, b, a);
      Irreflexive(a);
    }
  }

  /** Not being later is transitive too. */
  lemma NotAfter(a: string, b: string, c: string)
    requires !Before(b, a) && !Before(c, b)
    ensures !Before(c, a)
  {
    Total(a, b);
    if Before(c, a) && Before(a, b) {
      Transitive(c, a, b);
    }
  }
}

/** The hash-chained audit table: its writer, its verifier, and what a verified chain commits to. */
module AuditChain {
  import opened Types
  import opened TextOrder

  const GENESIS: string := "sha256:zerolease-audit-genesis"

  /** A hash with hexadecimal output; what is proved assumes no more of it than is stated. */
  type Hash = string -> string

  /** 32 bytes print as 64 characters. */
  ghost predicate FixedLength(h: Hash) {
    forall x :: |h(x)| == 64
  }

  ghost predicate CollisionFree(h: Hash, inputs: set<string>) {
    forall x, y | x in inputs && y in inputs && h(x) == h(y) :: x == y
  }

  /** The columns the chain reads. */
  datatype Row = Row(eventId: string, timestamp: string, event: string, agent: string, outcome: string,
                     prevHash: Option<string>, entryHash: Option<string>)

  /** Rows from before the migration have no hashes. */
  predicate Hashed(r: Row) {
    r.prevHash.Some? && r.entryHash.Some?
  }

  function Preimage(r: Row): string
    requires r.prevHash.Some?
  {
    r.prevHash.value + (r.eventId + (r.timestamp + (r.event + (r.agent + r.outcome))))
  }

  function Inputs(rows: seq<Row>): set<string> {
    {GENESIS} + set r | r in rows && Hashed(r) :: Preimage(r)
  }

  // ---- The verifier ----

  /** The hash row `i` has to link to; a row without hashes restarts the chain. */
  function Expected(h: Hash, rows: seq<Row>, i: nat): string
    requires i <= |rows|
  {
    if i == 0 || !Hashed(rows[i - 1]) then h(GENESIS) else rows[i - 1].entryHash.value
  }

  predicate Broken(h: Hash, rows: seq<Row>, i: nat)
    requires i < |rows|
  {
    && Hashed(rows[i])
    && (rows[i].prevHash.value != Expected(h, rows, i) || h(Preimage(rows[i])) != rows[i].entryHash.value)
  }

  predicate Intact(h: Hash, rows: seq<Row>) {
    forall i | 0 <= i < |rows| :: !Broken(h, rows, i)
  }

  /** What the verifier calls valid: some rows, none of them broken. */
  predicate Passes(h: Hash, rows: seq<Row>) {
    Intact(h, rows) && rows != []
  }

  predicate FirstBroken(h: Hash, rows: seq<Row>, i: nat) {
    i < |rows| && Broken(h, rows, i) && forall j | 0 <= j < i :: !Broken(h, rows, j)
  }

  function Verified(h: Hash, rows: seq<Row>): set<nat> {
    set i | 0 <= i < |rows| && Hashed(rows[i]) && !Broken(h, rows, i)
  }

  datatype Verification = Verification(total: nat, verified: nat, firstBrokenAt: Option<string>, isValid: bool)

  ghost predicate Reports(h: Hash, rows: seq<Row>, v: Verification) {
    && v.total == |rows|
    && v.verified == |Verified(h, rows)|
    && (v.isValid <==> Passes(h, rows))
    && (v.firstBrokenAt.None? <==> Intact(h, rows))
    && (v.firstBrokenAt.Some? ==> exists i: nat :: FirstBroken(h, rows, i) && v.firstBrokenAt.value == rows[i].eventId)
  }

  lemma VerifiedGrows(h: Hash, rows: seq<Row>, i: nat)
    requires i < |rows|
    ensures |Verified(h, rows[..i + 1])|
         == |Verified(h, rows[..i])| + if Hashed(rows[i]) && !Broken(h, rows, i) then 1 else 0
  {
    var a, b := Verified(h, rows[..i]), Verified(h, rows[..i + 1]);
    assert forall k | 0 <= k < i :: Broken(h, rows[..i], k) == Broken(h, rows[..i + 1], k);
    assert Broken(h, rows[..i + 1], i) == Broken(h, rows, i);
    assert b == if Hashed(rows[i]) && !Broken(h, rows, i) then a + {i} else a;
  }

  /** The verification loop over the rows in the order the database returns them. */
  method Verify(h: Hash, rows: seq<Row>) returns (v: Verification)
    ensures Reports(h, rows, v)
  {
    var total, verified, firstBrokenAt := 0, 0, None;
    var expected := h(GENESIS);
    ghost var broken: nat := 0;
    for k := 0 to |rows|
      invariant total == k && expected == Expected(h, rows, k)
      invariant verified == |Verified(h, rows[..k])|
      invariant firstBrokenAt.None? ==> forall j | 0 <= j < k :: !Broken(h, rows, j)
      invariant firstBrokenAt.Some? ==>
          broken < k && FirstBroken(h, rows, broken) && firstBrokenAt.value == rows[broken].eventId
    {
      VerifiedGrows(h, rows, k);
      total := total + 1;
      var row := rows[k];
      if row.prevHash.None? || row.entryHash.None? {
        expected := h(GENESIS);
        continue;
      }
      var storedPrev, storedHash := row.prevHash.value, row.entryHash.value;
      if storedPrev != expected {
        if firstBrokenAt.None? {
          firstBrokenAt, broken := Some(row.eventId), k;
        }
      } else {
        var computed := h(Preimage(row));
        if computed == storedHash {
          verified := verified + 1;
        } else if firstBrokenAt.None? {
          firstBrokenAt, broken := Some(row.eventId), k;
        }
      }
      expected := storedHash;
    }
    assert rows[..|rows|] == rows;
    v := Verification(total, verified, firstBrokenAt, firstBrokenAt.None? && total > 0);
  }

  // ---- Commitment ----

  ghost predicate GapFree(rows: seq<Row>) {
    forall i | 0 <= i < |rows| :: Hashed(rows[i])
  }

  lemma PrefixIntact(h: Hash, rows: seq<Row>, n: nat)
    requires n <= |rows| && Intact(h, rows) && GapFree(rows)
    ensures Intact(h, rows[..n]) && GapFree(rows[..n])
  {
    forall i | 0 <= i < n ensures !Broken(h, rows[..n], i) {
      assert !Broken(h, rows, i);
    }
  }

  lemma InputsOf(rows: seq<Row>, i: nat)
    requires i < |rows| && Hashed(rows[i])
    ensures Preimage(rows[i]) in Inputs(rows) && GENESIS in Inputs(rows)
  {
    assert rows[i] in rows;
  }

  lemma InputsPrefix(rows: seq<Row>, n: nat)
    requires n <= |rows|
    ensures Inputs(rows[..n]) <= Inputs(rows)
  {
    assert forall r | r in rows[..n] :: r in rows;
  }

  /** No row of a verified log hashes to the seed. */
  lemma NotGenesis(h: Hash, rows: seq<Row>, i: nat)
    requires FixedLength(h) && CollisionFree(h, Inputs(rows)) && Intact(h, rows) && i < |rows| && Hashed(rows[i])
    ensures rows[i].entryHash.value != h(GENESIS) && |rows[i].prevHash.value| == 64
    ensures rows[i].entryHash.value == h(Preimage(rows[i])) && rows[i].prevHash.value == Expected(h, rows, i)
  {
    InputsOf(rows, i);
    assert !Broken(h, rows, i);
    if i > 0 && Hashed(rows[i - 1]) {
      assert !Broken(h, rows, i - 1);
    }
  }

  /** What the last link says about two chains that end in the same hash. */
  lemma SameLast(h: Hash, a: seq<Row>, b: seq<Row>)
    requires FixedLength(h) && CollisionFree(h, Inputs(a) + Inputs(b))
    requires Intact(h, a) && GapFree(a) && Intact(h, b) && GapFree(b)
    requires Expected(h, a, |a|) == Expected(h, b, |b|)
    ensures |a| == 0 <==> |b| == 0
    ensures |a| > 0 ==> SameLink(a[|a| - 1], b[|b| - 1]) && Expected(h, a, |a| - 1) == Expected(h, b, |b| - 1)
  {
    hide Inputs, Broken, Intact;
    if |a| > 0 {
      NotGenesis(h, a, |a| - 1);
      InputsOf(a, |a| - 1);
    }
    if |b| > 0 {
      NotGenesis(h, b, |b| - 1);
      InputsOf(b, |b| - 1);
    }
    if |a| > 0 && |b| > 0 {
      var r, q := a[|a| - 1], b[|b| - 1];
      assert Preimage(r)[..64] == r.prevHash.value && Preimage(q)[..64] == q.prevHash.value;
    }
  }

  ghost predicate SameLink(r: Row, q: Row) {
    Hashed(r) && r.prevHash == q.prevHash && r.entryHash == q.entryHash && Preimage(r) == Preimage(q)
  }

  lemma Shorter(h: Hash, rows: seq<Row>)
    requires |rows| > 0 && Intact(h, rows) && GapFree(rows)
    ensures var init := rows[..|rows| - 1];
      && Intact(h, init) && GapFree(init) && Inputs(init) <= Inputs(rows)
      && Expected(h, init, |init|) == Expected(h, rows, |rows| - 1)
  {
    PrefixIntact(h, rows, |rows| - 1);
    InputsPrefix(rows, |rows| - 1);
  }

  /**
   * A verified chain is committed to by its last hash: two gap-free logs that verify and end in
   * the same hash have the same length and hash the same text row by row.
   */
  lemma {:induction false} Commitment(h: Hash, a: seq<Row>, b: seq<Row>)
    requires FixedLength(h) && CollisionFree(h, Inputs(a) + Inputs(b))
    requires Intact(h, a) && GapFree(a) && Intact(h, b) && GapFree(b)
    requires Expected(h, a, |a|) == Expected(h, b, |b|)
    ensures |a| == |b|
    ensures forall i | 0 <= i < |a| :: SameLink(a[i], b[i])
    decreases |a|
  {
    hide Inputs, Intact, GapFree, Expected, SameLink;
    SameLast(h, a, b);
    if |a| > 0 {
      Shorter(h, a);
      Shorter(h, b);
      Commitment(h, a[..|a| - 1], b[..|b| - 1]);
    }
  }

  /** Different rows of one verified chain have different hashes. */
  lemma HashesDistinct(h: Hash, rows: seq<Row>, i: nat, j: nat)
    requires FixedLength(h) && CollisionFree(h, Inputs(rows)) && Intact(h, rows) && GapFree(rows)
    requires i < j < |rows|
    ensures rows[i].entryHash != rows[j].entryHash
  {
    hide *;
    if rows[i].entryHash == rows[j].entryHash {
      PrefixIntact(h, rows, i + 1);
      PrefixIntact(h, rows, j + 1);
      FewerInputs(h, rows, i + 1, j + 1);
      EndsIn(h, rows, i);
      EndsIn(h, rows, j);
      SameLength(h, rows[..i + 1], rows[..j + 1]);
    }
  }

  lemma SameLength(h: Hash, a: seq<Row>, b: seq<Row>)
    requires FixedLength(h) && CollisionFree(h, Inputs(a) + Inputs(b))
    requires Intact(h, a) && GapFree(a) && Intact(h, b) && GapFree(b)
    requires Expected(h, a, |a|) == Expected(h, b, |b|)
    ensures |a| == |b|
  {
    hide *;
    Commitment(h, a, b);
  }

  lemma EndsIn(h: Hash, rows: seq<Row>, i: nat)
    requires i < |rows| && GapFree(rows)
    ensures rows[i].entryHash == Some(Expected(h, rows[..i + 1], |rows[..i + 1]|))
  {
  }

  lemma FewerInputs(h: Hash, rows: seq<Row>, i: nat, j: nat)
    requires CollisionFree(h, Inputs(rows)) && i <= |rows| && j <= |rows|
    ensures CollisionFree(h, Inputs(rows[..i]) + Inputs(rows[..j]))
  {
    hide Inputs;
    InputsPrefix(rows, i);
    InputsPrefix(rows, j);
  }

  // ---- Tampering ----

  /** One column of a hashed row was changed. */
  ghost predicate Edited(r: Row, r': Row)
    requires Hashed(r)
  {
    r' != r && Hashed(r') &&
    ( || r' == r.(eventId := r'.eventId)
      || r' == r.(timestamp := r'.timestamp)
      || r' == r.(event := r'.event)
      || r' == r.(agent := r'.agent)
      || r' == r.(outcome := r'.outcome)
      || r' == r.(prevHash := r'.prevHash)
      || r' == r.(entryHash := r'.entryHash))
  }

  lemma Cancel(x: string, y: string, y': string, z: string)
    requires x + (y + z) == x + (y' + z)
    ensures y == y'
  {
    assert |y| == |y'|;
    assert (x + (y + z))[|x|..|x| + |y|] == y && (x + (y' + z))[|x|..|x| + |y|] == y';
  }

  /** A changed column changes what is hashed, or the stored hash. */
  lemma EditShows(r: Row, r': Row)
    requires Hashed(r) && Edited(r, r')
    ensures Preimage(r) != Preimage(r') || (r'.prevHash == r.prevHash && r'.entryHash != r.entryHash)
  {
    if Preimage(r) == Preimage(r') && r.entryHash == r'.entryHash {
      var p, id, t, e, a, o := r.prevHash.value, r.eventId, r.timestamp, r.event, r.agent, r.outcome;
      if r' == r.(prevHash := r'.prevHash) {
        Cancel("", p, r'.prevHash.value, id + (t + (e + (a + o))));
      } else {
        TailEdit(p, r, r');
        assert false;
      }
    }
  }

  lemma TailEdit(p: string, r: Row, r': Row)
    requires r.prevHash == r'.prevHash == Some(p) && r.entryHash.Some? && r.entryHash == r'.entryHash && Edited(r, r')
    ensures Preimage(r) != Preimage(r')
  {
    if Preimage(r) == Preimage(r') {
      var id, t, e, a, o := r.eventId, r.timestamp, r.event, r.agent, r.outcome;
      Drop(p, id + (t + (e + (a + o))), r'.eventId + (r'.timestamp + (r'.event + (r'.agent + r'.outcome))));
      if r'.eventId != id {
        Cancel("", id, r'.eventId, t + (e + (a + o)));
      } else {
        Drop(id, t + (e + (a + o)), r'.timestamp + (r'.event + (r'.agent + r'.outcome)));
        if r'.timestamp != t {
          Cancel("", t, r'.timestamp, e + (a + o));
        } else {
          Drop(t, e + (a + o), r'.event + (r'.agent + r'.outcome));
          if r'.event != e {
            Cancel("", e, r'.event, a + o);
          } else {
            Drop(e, a + o, r'.agent + r'.outcome);
            if r'.agent != a {
              Cancel("", a, r'.agent, o);
            } else {
              Drop(a, o, r'.outcome);
            }
          }
        }
      }
    }
  }

  lemma Drop(x: string, y: string, y': string)
    requires x + y == x + y'
    ensures y == y'
  {
    assert (x + y)[|x|..] == y && (x + y')[|x|..] == y';
  }

  /**
   * Editing one column of one row of a verified log, in whatever order the edited table is then
   * read: the edited row is broken.
   */
  lemma EditDetected(h: Hash, rows: seq<Row>, i: nat, r': Row, reread: seq<Row>, k: nat)
    requires i < |rows| && Hashed(rows[i]) && Intact(h, rows) && Edited(rows[i], r')
    requires CollisionFree(h, Inputs(rows) + Inputs(reread))
    requires k < |reread| && reread[k] == r'
    ensures Broken(h, reread, k)
  {
    hide Inputs;
    InputsOf(rows, i);
    InputsOf(reread, k);
    EditShows(rows[i], r');
    assert !Broken(h, rows, i);
  }

  /** If the edit leaves the row where it was, that row is the first one reported. */
  lemma EditLocated(h: Hash, rows: seq<Row>, i: nat, r': Row)
    requires i < |rows| && Hashed(rows[i]) && Intact(h, rows) && Edited(rows[i], r')
    requires CollisionFree(h, Inputs(rows) + Inputs(rows[i := r']))
    ensures FirstBroken(h, rows[i := r'], i)
  {
    var edited := rows[i := r'];
    EditDetected(h, rows, i, r', edited, i);
    forall j | 0 <= j < i ensures !Broken(h, edited, j) {
      assert !Broken(h, rows, j);
    }
  }

  /** Rewriting several columns at once goes unnoticed exactly when the hashed text stays the same. */
  lemma RewriteDetectedIff(h: Hash, rows: seq<Row>, i: nat, r': Row)
    requires i < |rows| && Hashed(rows[i]) && Intact(h, rows)
    requires r'.prevHash == rows[i].prevHash && r'.entryHash == rows[i].entryHash
    requires CollisionFree(h, Inputs(rows) + Inputs(rows[i := r']))
    ensures Intact(h, rows[i := r']) <==> Preimage(r') == Preimage(rows[i])
  {
    hide Inputs, Preimage;
    var rewritten := rows[i := r'];
    InputsOf(rows, i);
    InputsOf(rewritten, i);
    assert !Broken(h, rows, i);
    if Preimage(r') == Preimage(rows[i]) {
      forall j | 0 <= j < |rows| ensures !Broken(h, rewritten, j) {
        assert !Broken(h, rows, j);
      }
    } else {
      assert Broken(h, rewritten, i);
    }
  }

  /**
   * And it does go unnoticed: moving text from the end of one column to the front of the next
   * gives another row with the same hashed text.
   */
  lemma ShiftUnnoticed(h: Hash, rows: seq<Row>, i: nat, head: string, moved: string) returns (r': Row)
    requires i < |rows| && Hashed(rows[i]) && Intact(h, rows) && moved != "" && rows[i].agent == head + moved
    ensures r' != rows[i] && Hashed(r') && Preimage(r') == Preimage(rows[i]) && Intact(h, rows[i := r'])
  {
    var r := rows[i];
    r' := r.(agent := head, outcome := moved + r.outcome);
    assert |head| < |r.agent|;
    assert (head + moved) + r.outcome == head + (moved + r.outcome);
    var shifted := rows[i := r'];
    forall j | 0 <= j < |rows| ensures !Broken(h, shifted, j) {
      assert !Broken(h, rows, j);
    }
  }

  /**
   * Clearing a hash of a row of a verified log restarts the chain there: it is reported at exactly
   * the next row, unless that row started a chain anyway or there is none.
   */
  lemma NullingLocated(h: Hash, rows: seq<Row>, i: nat, r': Row)
    requires FixedLength(h) && CollisionFree(h, Inputs(rows)) && Intact(h, rows) && i < |rows| && !Hashed(r')
    ensures if Hashed(rows[i]) && i + 1 < |rows| && Hashed(rows[i + 1]) then FirstBroken(h, rows[i := r'], i + 1)
            else Intact(h, rows[i := r'])
  {
    var cleared := rows[i := r'];
    forall j | 0 <= j <= i ensures !Broken(h, cleared, j) {
      assert !Broken(h, rows, j);
    }
    if Hashed(rows[i]) && i + 1 < |rows| && Hashed(rows[i + 1]) {
      NotGenesis(h, rows, i);
      NotGenesis(h, rows, i + 1);
      assert Broken(h, cleared, i + 1);
    } else {
      forall j | i < j < |rows| ensures !Broken(h, cleared, j) {
        assert !Broken(h, rows, j);
      }
    }
  }

  /** A log as the writer leaves it: rows from before the migration, then hashed rows. */
  ghost predicate Migrated(rows: seq<Row>, m: nat) {
    && m <= |rows|
    && (forall i | 0 <= i < m :: !Hashed(rows[i]))
    && (forall i | m <= i < |rows| :: Hashed(rows[i]))
  }

  /** Event identifiers print as 36 characters and are the table's primary key. */
  ghost predicate Keyed(table: seq<Row>) {
    && (forall i | 0 <= i < |table| :: |table[i].eventId| == 36)
    && (forall i, j | 0 <= i < j < |table| :: table[i].eventId != table[j].eventId)
  }

  /** No two hashed rows have the same hash. */
  ghost predicate Apart(rows: seq<Row>) {
    forall i, j | 0 <= i < j < |rows| && Hashed(rows[i]) && Hashed(rows[j]) :: rows[i].entryHash != rows[j].entryHash
  }

  lemma SuffixIntact(h: Hash, rows: seq<Row>, m: nat)
    requires Intact(h, rows) && Migrated(rows, m)
    ensures Intact(h, rows[m..]) && GapFree(rows[m..]) && Inputs(rows[m..]) <= Inputs(rows)
  {
    var tail := rows[m..];
    forall i | 0 <= i < |tail| ensures !Broken(h, tail, i) {
      assert !Broken(h, rows, m + i);
    }
    assert forall r | r in tail :: r in rows;
  }

  lemma MigratedApart(h: Hash, rows: seq<Row>, m: nat)
    requires FixedLength(h) && CollisionFree(h, Inputs(rows)) && Intact(h, rows) && Migrated(rows, m)
    ensures Apart(rows)
  {
    SuffixIntact(h, rows, m);
    forall i, j | 0 <= i < j < |rows| && Hashed(rows[i]) && Hashed(rows[j])
      ensures rows[i].entryHash != rows[j].entryHash {
      HashesDistinct(h, rows[m..], i - m, j - m);
    }
  }

  lemma IdInPreimage(r: Row)
    requires r.prevHash.Some? && |r.prevHash.value| == 64 && |r.eventId| == 36
    ensures |Preimage(r)| >= 100 && Preimage(r)[64..100] == r.eventId
  {
    var rest := r.timestamp + (r.event + (r.agent + r.outcome));
    assert Preimage(r) == r.prevHash.value + (r.eventId + rest);
  }

  lemma KeyedApart(h: Hash, rows: seq<Row>)
    requires FixedLength(h) && CollisionFree(h, Inputs(rows)) && Intact(h, rows) && Keyed(rows)
    ensures Apart(rows)
  {
    forall i, j | 0 <= i < j < |rows| && Hashed(rows[i]) && Hashed(rows[j])
      ensures rows[i].entryHash != rows[j].entryHash {
      hide Inputs, Intact;
      NotGenesis(h, rows, i);
      NotGenesis(h, rows, j);
      InputsOf(rows, i);
      InputsOf(rows, j);
      IdInPreimage(rows[i]);
      IdInPreimage(rows[j]);
      hide Preimage;
    }
  }

  /** The logs deletion is stated for: as the writer leaves them, or with gaps anywhere but keyed. */
  ghost predicate Plain(rows: seq<Row>) {
    Keyed(rows) || exists m :: Migrated(rows, m)
  }

  lemma PlainApart(h: Hash, rows: seq<Row>)
    requires FixedLength(h) && CollisionFree(h, Inputs(rows)) && Intact(h, rows) && Plain(rows)
    ensures Apart(rows)
  {
    if Keyed(rows) {
      KeyedApart(h, rows);
    } else {
      var m :| Migrated(rows, m);
      MigratedApart(h, rows, m);
    }
  }

  /** The rows of a log that are left, by index. */
  ghost predicate Survivors(rows: seq<Row>, ks: seq<nat>) {
    (forall j | 0 <= j < |ks| :: ks[j] < |rows|) && (forall i, j | 0 <= i < j < |ks| :: ks[i] < ks[j])
  }

  ghost function Left(rows: seq<Row>, ks: seq<nat>): seq<Row>
    requires Survivors(rows, ks)
  {
    seq(|ks|, j requires 0 <= j < |ks| => rows[ks[j]])
  }

  /** The survivor still follows what it followed: its predecessor, or the start of a chain. */
  ghost predicate Follows(rows: seq<Row>, ks: seq<nat>, j: nat)
    requires Survivors(rows, ks) && j < |ks|
  {
    || (j > 0 && ks[j - 1] + 1 == ks[j])
    || ((ks[j] == 0 || !Hashed(rows[ks[j] - 1])) && (j == 0 || !Hashed(rows[ks[j - 1]])))
  }

  lemma SurvivorBroken(h: Hash, rows: seq<Row>, ks: seq<nat>, j: nat)
    requires FixedLength(h) && CollisionFree(h, Inputs(rows)) && Intact(h, rows) && Apart(rows)
    requires Survivors(rows, ks) && j < |ks|
    ensures Broken(h, Left(rows, ks), j) <==> Hashed(rows[ks[j]]) && !Follows(rows, ks, j)
  {
    var k := ks[j];
    assert Left(rows, ks)[j] == rows[k] && (j > 0 ==> Left(rows, ks)[j - 1] == rows[ks[j - 1]]);
    if Hashed(rows[k]) {
      NotGenesis(h, rows, k);
      if k > 0 && Hashed(rows[k - 1]) {
        NotGenesis(h, rows, k - 1);
      }
      if j > 0 && Hashed(rows[ks[j - 1]]) {
        NotGenesis(h, rows, ks[j - 1]);
      }
    }
  }

  /**
   * Deleting rows from a verified log goes unnoticed exactly when something is left and every hashed
   * row left follows what it followed.
   */
  lemma DeletionDetected(h: Hash, rows: seq<Row>, ks: seq<nat>)
    requires FixedLength(h) && CollisionFree(h, Inputs(rows)) && Intact(h, rows) && Plain(rows)
    requires Survivors(rows, ks)
    ensures Passes(h, Left(rows, ks)) <==>
        ks != [] && forall j | 0 <= j < |ks| && Hashed(rows[ks[j]]) :: Follows(rows, ks, j)
  {
    PlainApart(h, rows);
    hide Broken, Inputs, Plain, Apart, Follows;
    var left := Left(rows, ks);
    forall j | 0 <= j < |ks| ensures Broken(h, left, j) <==> Hashed(rows[ks[j]]) && !Follows(rows, ks, j) {
      SurvivorBroken(h, rows, ks, j);
    }
  }

  /** Otherwise the first row reported is the first that does not. */
  lemma DeletionLocated(h: Hash, rows: seq<Row>, ks: seq<nat>, k: nat)
    requires FixedLength(h) && CollisionFree(h, Inputs(rows)) && Intact(h, rows) && Plain(rows)
    requires Survivors(rows, ks) && k < |ks| && Hashed(rows[ks[k]]) && !Follows(rows, ks, k)
    requires forall j | 0 <= j < k && Hashed(rows[ks[j]]) :: Follows(rows, ks, j)
    ensures FirstBroken(h, Left(rows, ks), k)
  {
    PlainApart(h, rows);
    hide Broken, Inputs, Intact, Plain, Apart, Follows;
    forall j | 0 <= j <= k ensures Broken(h, Left(rows, ks), j) <==> Hashed(rows[ks[j]]) && !Follows(rows, ks, j) {
      SurvivorBroken(h, rows, ks, j);
    }
  }

  /** The first `p` survivors are from before the migration, the others are hashed. */
  ghost predicate SplitAt(ks: seq<nat>, m: nat, p: nat) {
    p <= |ks| && (forall j | 0 <= j < p :: ks[j] < m) && (forall j | p <= j < |ks| :: ks[j] >= m)
  }

  /** The survivor comes right after the one before it, and the first hashed one at the start of the chain. */
  ghost predicate Adjoins(ks: seq<nat>, m: nat, p: nat, j: nat)
    requires p <= j < |ks|
  {
    ks[j] == if j == p then m else ks[j - 1] + 1
  }

  lemma MigratedFollows(rows: seq<Row>, m: nat, ks: seq<nat>, p: nat, j: nat)
    requires Migrated(rows, m) && Survivors(rows, ks) && SplitAt(ks, m, p) && j < |ks|
    ensures Hashed(rows[ks[j]]) <==> j >= p
    ensures j >= p ==> (Follows(rows, ks, j) <==> Adjoins(ks, m, p, j))
  {
  }

  /**
   * For a log as the writer leaves it: a deletion goes unnoticed exactly when it leaves something
   * and removes only rows from before the migration and a tail.
   */
  lemma MigratedDeletion(h: Hash, rows: seq<Row>, m: nat, ks: seq<nat>, p: nat)
    requires FixedLength(h) && CollisionFree(h, Inputs(rows)) && Intact(h, rows) && Migrated(rows, m)
    requires Survivors(rows, ks) && SplitAt(ks, m, p)
    ensures Passes(h, Left(rows, ks)) <==> ks != [] && forall j | p <= j < |ks| :: ks[j] == m + (j - p)
  {
    hide Broken, Inputs, Passes, Follows, Adjoins;
    assert Plain(rows);
    DeletionDetected(h, rows, ks);
    InPlace(ks, m, p);
    forall j | 0 <= j < |ks|
      ensures Hashed(rows[ks[j]]) <==> j >= p
      ensures j >= p ==> (Follows(rows, ks, j) <==> Adjoins(ks, m, p, j))
    {
      MigratedFollows(rows, m, ks, p, j);
    }
  }

  /** Otherwise the first hashed row out of place is the one reported. */
  lemma MigratedDeletionLocated(h: Hash, rows: seq<Row>, m: nat, ks: seq<nat>, p: nat, k: nat)
    requires FixedLength(h) && CollisionFree(h, Inputs(rows)) && Intact(h, rows) && Migrated(rows, m)
    requires Survivors(rows, ks) && SplitAt(ks, m, p)
    requires p <= k < |ks| && ks[k] != m + (k - p) && forall j | p <= j < k :: ks[j] == m + (j - p)
    ensures FirstBroken(h, Left(rows, ks), k)
  {
    hide Broken, Inputs, Intact, Follows, FirstBroken;
    assert Plain(rows);
    MigratedFollows(rows, m, ks, p, k);
    forall j | 0 <= j < k && Hashed(rows[ks[j]]) ensures Follows(rows, ks, j) {
      MigratedFollows(rows, m, ks, p, j);
    }
    DeletionLocated(h, rows, ks, k);
  }

  /** Step by step in place means in place. */
  lemma InPlace(ks: seq<nat>, m: nat, p: nat)
    ensures (forall j | p <= j < |ks| :: Adjoins(ks, m, p, j)) <==> (forall j | p <= j < |ks| :: ks[j] == m + (j - p))
  {
    if forall j | p <= j < |ks| :: Adjoins(ks, m, p, j) {
      forall j | p <= j < |ks| ensures ks[j] == m + (j - p) {
        InPlaceAt(ks, m, p, j);
      }
    }
  }

  lemma {:induction false} InPlaceAt(ks: seq<nat>, m: nat, p: nat, j: nat)
    requires p <= j < |ks| && forall i | p <= i <= j :: Adjoins(ks, m, p, i)
    ensures ks[j] == m + (j - p)
  {
    assert Adjoins(ks, m, p, j);
    if j > p {
      InPlaceAt(ks, m, p, j - 1);
    }
  }

  // ---- The writer ----

  /** What one audit entry contributes to its row. */
  datatype Entry = Entry(eventId: string, timestamp: string, event: string, agent: string, outcome: string)

  function Chained(h: Hash, e: Entry, prev: string): Row {
    var r := Row(e.eventId, e.timestamp, e.event, e.agent, e.outcome, Some(prev), None);
    r.(entryHash := Some(h(Preimage(r))))
  }

  function EntryOf(r: Row): Entry {
    Entry(r.eventId, r.timestamp, r.event, r.agent, r.outcome)
  }

  /** A hash of a latest hashed row, if there is one; ties are for the database to break. */
  ghost predicate Answers(table: seq<Row>, answer: Option<string>) {
    match answer
    case None => forall k | 0 <= k < |table| :: table[k].entryHash.None?
    case Some(hash) => exists k | 0 <= k < |table| :: table[k].entryHash == answer && Latest(table, k)
  }

  ghost predicate Latest(table: seq<Row>, k: nat)
    requires k < |table|
  {
    forall j | 0 <= j < |table| && table[j].entryHash.Some? :: !Before(table[k].timestamp, table[j].timestamp)
  }

  function PrevOf(h: Hash, answer: Option<string>): string {
    if answer.Some? then answer.value else h(GENESIS)
  }

  /** A reading of the table in timestamp order; rows with equal timestamps may come either way. */
  ghost predicate Ordered(order: seq<Row>, table: seq<Row>) {
    && multiset(order) == multiset(table)
    && (forall i, j | 0 <= i < j < |order| :: !Before(order[j].timestamp, order[i].timestamp))
  }

  /** The table: rows from before the migration, then rows appended by `record`. */
  ghost predicate Written(h: Hash, legacy: seq<Row>, table: seq<Row>) {
    && legacy <= table
    && (forall i | 0 <= i < |legacy| :: legacy[i].entryHash.None?)
    && (forall i | |legacy| <= i < |table| :: Appended(h, table[..i], table[i]))
  }

  ghost predicate Appended(h: Hash, table: seq<Row>, r: Row) {
    exists answer :: Answers(table, answer) && r == Chained(h, EntryOf(r), PrevOf(h, answer))
  }

  class AuditLog {
    const h: Hash
    var table: seq<Row>

    constructor (h: Hash, legacy: seq<Row>)
      ensures this.h == h && table == legacy
    {
      this.h := h;
      table := legacy;
    }

    /** Appends one entry; `answer` is what the query for the latest hash returned, if it did. */
    method Record(e: Entry, answer: Option<string>, insertOk: bool) returns (r: Result<()>)
      modifies this
      ensures r.Ok? <==> insertOk && forall i | 0 <= i < |old(table)| :: old(table)[i].eventId != e.eventId
      ensures r.Ok? ==> table == old(table) + [Chained(h, e, PrevOf(h, answer))]
      ensures r.Err? ==> table == old(table) && r.error == Storage
      ensures r.Ok? && Answers(old(table), answer) ==>
        forall legacy | Written(h, legacy, old(table)) :: Written(h, legacy, table)
    {
      var prev := if answer.Some? then answer.value else h(GENESIS);
      var row := Row(e.eventId, e.timestamp, e.event, e.agent, e.outcome, Some(prev), None);
      var hash := h(Preimage(row));
      if !insertOk {
        return Err(Storage);
      }
      for k := 0 to |table|
        invariant forall i | 0 <= i < k :: table[i].eventId != e.eventId
      {
        if table[k].eventId == e.eventId {
          return Err(Storage);
        }
      }
      ghost var before := table;
      table := table + [row.(entryHash := Some(hash))];
      StillWritten(h, before, table, e, answer);
      return Ok(());
    }

    /** Reads the table in an order the database chooses and verifies it. */
    method VerifyAuditChain(order: seq<Row>) returns (v: Verification)
      requires Ordered(order, table)
      ensures Reports(h, order, v)
    {
      v := Verify(h, order);
    }
  }

  lemma StillWritten(h: Hash, table: seq<Row>, longer: seq<Row>, e: Entry, answer: Option<string>)
    requires longer == table + [Chained(h, e, PrevOf(h, answer))]
    ensures Answers(table, answer) ==> forall legacy | Written(h, legacy, table) :: Written(h, legacy, longer)
  {
    if Answers(table, answer) {
      hide Answers;
      forall legacy | Written(h, legacy, table) ensures Written(h, legacy, longer) {
        forall i | |legacy| <= i < |longer| ensures Appended(h, longer[..i], longer[i]) {
          if i < |table| {
            assert longer[..i] == table[..i] && Appended(h, table[..i], table[i]);
          } else {
            assert longer[..i] == table && EntryOf(longer[i]) == e;
          }
        }
      }
    }
  }
}
