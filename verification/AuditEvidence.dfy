/** What verification of the audit chain is worth: chains built by appending
    verify, a broken chain stays reported, and a verified chain is fixed by its
    length and its newest digest unless the hash collides on the very bytes the
    chain hashes. No assumption is made about the hash: where it would have to be
    injective, the two colliding inputs are exhibited. */
module AuditEvidence {
  import opened Base
  import opened AuditFormat
  import opened AuditChain

  // ---- Appending ----

  lemma AppendKeepsChain(hash: Hash, rows: seq<Row>, event: Event, id: int)
    requires ChainOk(hash, rows) && Appendable(hash, rows, event, id)
    ensures ChainOk(hash, rows + [NextRow(hash, rows, event, id)])
  {
    var row := NextRow(hash, rows, event, id);
    var longer := rows + [row];
    forall i | 0 <= i < |longer| ensures OkAt(hash, longer, i) {
      assert Previous(longer, i) == Previous(rows, i);
      if i < |rows| {
        assert OkAt(hash, rows, i);
      } else {
        MaterialOfNewRow(id, event, row.previousHash, row.eventHash);
      }
    }
  }

  /** A table and what successful appends made of it, one after another. */
  ghost predicate Grown(hash: Hash, tables: seq<seq<Row>>) {
    && tables != []
    && forall k :: 0 <= k < |tables| - 1 ==> Grows(hash, tables[k], tables[k + 1])
  }

  ghost predicate Grows(hash: Hash, rows: seq<Row>, rows': seq<Row>) {
    exists event, id :: Appendable(hash, rows, event, id) && rows' == rows + [NextRow(hash, rows, event, id)]
  }

  /** Any chain built only by successful appends verifies. */
  lemma {:induction false} AppendedChainsVerify(hash: Hash, tables: seq<seq<Row>>, k: nat)
    requires Grown(hash, tables) && tables[0] == [] && k < |tables|
    ensures ChainOk(hash, tables[k])
    ensures Reports(hash, tables[k], Report(true, |tables[k]|, 0)) && |tables[k]| == k
  {
    if k > 0 {
      AppendedChainsVerify(hash, tables, k - 1);
      assert Grows(hash, tables[k - 1], tables[k - 1 + 1]);
      var event, id :| Appendable(hash, tables[k - 1], event, id)
                       && tables[k] == tables[k - 1] + [NextRow(hash, tables[k - 1], event, id)];
      AppendKeepsChain(hash, tables[k - 1], event, id);
    }
  }

  /** Whatever is added after a bad row, the report stays the same. */
  lemma BrokenStaysReported(hash: Hash, rows: seq<Row>, longer: seq<Row>, report: Report)
    requires rows <= longer && Reports(hash, rows, report) && !report.valid
    ensures Reports(hash, longer, report)
  {
    forall i | 0 <= i < |rows| ensures OkAt(hash, longer, i) == OkAt(hash, rows, i) {
      assert Previous(longer, i) == Previous(rows, i);
    }
  }

  lemma {:induction false} GrownExtends(hash: Hash, tables: seq<seq<Row>>, k: nat)
    requires Grown(hash, tables) && k < |tables|
    ensures tables[0] <= tables[k]
  {
    if k > 0 {
      GrownExtends(hash, tables, k - 1);
      assert Grows(hash, tables[k - 1], tables[k - 1 + 1]);
    }
  }

  /** Later appends never change the report on a broken chain. */
  lemma AppendsNeverHide(hash: Hash, tables: seq<seq<Row>>, k: nat, before: Report, after: Report)
    requires Grown(hash, tables) && k < |tables| && Reports(hash, tables[0], before) && !before.valid
    requires Reports(hash, tables[k], after)
    ensures after == before
  {
    GrownExtends(hash, tables, k);
    BrokenStaysReported(hash, tables[0], tables[k], before);
    ReportIsUnique(hash, tables[k], before, after);
  }

  // ---- Tampering ----

  /** The bytes hashed for a row of a verified chain. */
  function Input(rows: seq<Row>, i: nat): seq<byte>
    requires i < |rows| && Material(rows[i]).Some? && |Previous(rows, i)| == HASH_SIZE
  {
    Encode(Previous(rows, i), Material(rows[i]).value)
  }

  /** Two rows whose hashed bytes differ and have the same digest. */
  ghost predicate Collide(hash: Hash, a: seq<Row>, i: nat, b: seq<Row>, j: nat)
    requires i < |a| && j < |b| && OkAt(hash, a, i) && OkAt(hash, b, j)
  {
    Input(a, i) != Input(b, j) && hash(Input(a, i)) == hash(Input(b, j))
  }

  /** Equal digests: a collision, or the same event and the same predecessor. */
  lemma SameDigest(hash: Hash, a: seq<Row>, i: nat, b: seq<Row>, j: nat)
    requires i < |a| && j < |b| && OkAt(hash, a, i) && OkAt(hash, b, j) && a[i].eventHash == b[j].eventHash
    ensures || Collide(hash, a, i, b, j)
            || (Material(a[i]) == Material(b[j]) && Previous(a, i) == Previous(b, j))
  {
    if Input(a, i) == Input(b, j) {
      MaterialIsValid(a[i]);
      MaterialIsValid(b[j]);
      UniquelyDecodable(Previous(a, i), Material(a[i]).value, Previous(b, j), Material(b[j]).value);
    }
  }

  ghost predicate CollisionBetween(hash: Hash, a: seq<Row>, b: seq<Row>)
    requires ChainOk(hash, a) && ChainOk(hash, b)
  {
    exists i, j :: 0 <= i < |a| && 0 <= j < |b| && Collide(hash, a, i, b, j)
  }

  /** Rows of chains of equal length agree but for their identifiers, from any row
      with the same digest back to the first. */
  lemma {:induction false} SameBackwards(hash: Hash, a: seq<Row>, b: seq<Row>, i: nat)
    requires ChainOk(hash, a) && ChainOk(hash, b) && i < |a| && i < |b|
    requires a[i].eventHash == b[i].eventHash && !CollisionBetween(hash, a, b)
    ensures forall k :: 0 <= k <= i ==> a[k] == b[k].(id := a[k].id)
  {
    assert OkAt(hash, a, i) && OkAt(hash, b, i);
    SameDigest(hash, a, i, b, i);
    RowOfMaterial(a[i], b[i]);
    if i > 0 { SameBackwards(hash, a, b, i - 1); }
  }

  /** Two chains of equal length that verify and end in the same digest agree row
      by row in everything but the identifiers, or the hash collides on the bytes
      of two of their rows. */
  lemma SameHeadSameChain(hash: Hash, a: seq<Row>, b: seq<Row>)
    requires ChainOk(hash, a) && ChainOk(hash, b) && |a| == |b|
    requires a != [] ==> a[|a| - 1].eventHash == b[|b| - 1].eventHash
    ensures CollisionBetween(hash, a, b) || forall k :: 0 <= k < |a| ==> a[k] == b[k].(id := a[k].id)
  {
    if a != [] && !CollisionBetween(hash, a, b) { SameBackwards(hash, a, b, |a| - 1); }
  }

  /** So changing any row of a verified chain is reported, or changes the newest
      digest, or exhibits a collision. */
  lemma ChangesAreEvident(hash: Hash, rows: seq<Row>, changed: seq<Row>, k: nat, report: Report)
    requires ChainOk(hash, rows) && |changed| == |rows| && k < |rows|
    requires changed[k] != rows[k].(id := changed[k].id) && Reports(hash, changed, report)
    ensures || !report.valid
            || changed[|rows| - 1].eventHash != rows[|rows| - 1].eventHash
            || CollisionBetween(hash, rows, changed)
  {
    if report.valid && changed[|rows| - 1].eventHash == rows[|rows| - 1].eventHash {
      SameHeadSameChain(hash, rows, changed);
    }
  }

  /** A row of one chain and a later row of another with the same digest lead back
      to a row of the other that precedes the first. */
  lemma {:induction false} ShiftedBackwards(hash: Hash, a: seq<Row>, b: seq<Row>, i: nat, shift: nat)
    requires ChainOk(hash, a) && ChainOk(hash, b) && 0 < shift && i < |a| && i + shift < |b|
    requires a[i].eventHash == b[i + shift].eventHash && !CollisionBetween(hash, a, b)
    ensures b[shift - 1].eventHash == Zero()
  {
    assert OkAt(hash, a, i) && OkAt(hash, b, i + shift);
    SameDigest(hash, a, i, b, i + shift);
    if i > 0 { ShiftedBackwards(hash, a, b, i - 1, shift); }
  }

  /** With different lengths there is one more way out: the first row hashes an
      all-zero predecessor, so the longer chain would need a row whose digest is
      all zero, just before the rows it shares with the shorter one. */
  lemma DifferentLengths(hash: Hash, a: seq<Row>, b: seq<Row>)
    requires ChainOk(hash, a) && ChainOk(hash, b) && 0 < |a| < |b|
    requires a[|a| - 1].eventHash == b[|b| - 1].eventHash
    ensures CollisionBetween(hash, a, b) || b[|b| - |a| - 1].eventHash == Zero()
  {
    if !CollisionBetween(hash, a, b) { ShiftedBackwards(hash, a, b, |a| - 1, |b| - |a|); }
  }

  /** The start of a verified chain verifies. */
  lemma PrefixOk(hash: Hash, rows: seq<Row>, n: nat)
    requires ChainOk(hash, rows) && n <= |rows|
    ensures ChainOk(hash, rows[..n])
  {
    forall i | 0 <= i < n ensures OkAt(hash, rows[..n], i) {
      assert OkAt(hash, rows, i) && Previous(rows[..n], i) == Previous(rows, i);
    }
  }

  /** Cutting off the newest rows is never reported: what is left verifies, and
      every report on it says so. Only the number of rows inspected shows it, and the
      newest digest, which differs unless rows collide or one digest is all zero. */
  lemma TruncationIsNotReported(hash: Hash, rows: seq<Row>, n: nat, report: Report)
    requires ChainOk(hash, rows) && n < |rows| && Reports(hash, rows[..n], report)
    ensures report == Report(true, n, 0) && ChainOk(hash, rows[..n])
    ensures 0 < n ==> || rows[n - 1].eventHash != rows[|rows| - 1].eventHash
                      || CollisionBetween(hash, rows[..n], rows)
                      || rows[|rows| - n - 1].eventHash == Zero()
  {
    PrefixOk(hash, rows, n);
    ReportIsUnique(hash, rows[..n], report, Report(true, n, 0));
    if 0 < n && rows[n - 1].eventHash == rows[|rows| - 1].eventHash {
      DifferentLengths(hash, rows[..n], rows);
    }
  }
}
