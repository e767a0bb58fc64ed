/** The hash chains of `app/core/audit_chain.py`: the inventory ledger, the auth log and the GL journal. */
module AuditChain {
  import opened Wrappers

  /** The three ledgers hash different fields `F` the same way. The digest is a free datatype: it records
      exactly what went into it. */
  datatype Digest<F> = Genesis | Node(prev: Digest<F>, fields: F)

  datatype Row<F> = Row(id: string, fields: F, prevHash: Digest<F>, entryHash: Digest<F>)

  datatype Status = Empty | Intact | Broken

  datatype Break<F> = Break(id: string, expectedPrev: Digest<F>, actualPrev: Digest<F>,
                            expectedEntry: Digest<F>, actualEntry: Digest<F>)

  datatype Report<F> = Report(status: Status, totalRows: nat, firstBreak: Option<Break<F>>)

  /** What the head row should hold after the first `i` rows. */
  function HashBefore<F>(rows: seq<Row<F>>, i: nat): Digest<F>
    requires i <= |rows|
  {
    if i == 0 then Genesis else rows[i - 1].entryHash
  }

  function Head<F>(rows: seq<Row<F>>): Digest<F> {
    HashBefore(rows, |rows|)
  }

  predicate LinkOk<F(==)>(rows: seq<Row<F>>, i: nat)
    requires i < |rows|
  {
    rows[i].prevHash == HashBefore(rows, i) && rows[i].entryHash == Node(rows[i].prevHash, rows[i].fields)
  }

  ghost predicate IntactChain<F>(rows: seq<Row<F>>) {
    forall i | 0 <= i < |rows| :: LinkOk(rows, i)
  }

  ghost predicate BreaksFirstAt<F>(rows: seq<Row<F>>, i: nat) {
    i < |rows| && !LinkOk(rows, i) && forall j | 0 <= j < i :: LinkOk(rows, j)
  }

  /** The row `record`, `append_auth_event` and `post_entry` add behind the head. */
  function NextRow<F>(head: Digest<F>, id: string, fields: F): Row<F> {
    Row(id, fields, head, Node(head, fields))
  }

  /** `verify_chain`, `verify_auth_chain` and `verify_gl_chain`: one walk, stopping at the first break. */
  method Verify<F(==)>(rows: seq<Row<F>>) returns (r: Report<F>)
    ensures IntactChain(rows) ==>
      r == Report(if rows == [] then Empty else Intact, |rows|, None)
    ensures !IntactChain(rows) ==>
      && r.status == Broken && r.totalRows >= 1
      && BreaksFirstAt(rows, r.totalRows - 1)
      && var row := rows[r.totalRows - 1];
         r.firstBreak == Some(Break(row.id, HashBefore(rows, r.totalRows - 1), row.prevHash,
                                    Node(row.prevHash, row.fields), row.entryHash))
  {
    var expectedPrev: Digest<F> := Genesis;
    var total := 0;
    while total < |rows|
      invariant 0 <= total <= |rows|
      invariant expectedPrev == HashBefore(rows, total)
      invariant forall j | 0 <= j < total :: LinkOk(rows, j)
    {
      var row := rows[total];
      total := total + 1;
      var recomputed := Node(row.prevHash, row.fields);
      if row.prevHash != expectedPrev || row.entryHash != recomputed {
        assert !LinkOk(rows, total - 1);
        return Report(Broken, total, Some(Break(row.id, expectedPrev, row.prevHash, recomputed, row.entryHash)));
      }
      expectedPrev := row.entryHash;
    }
    r := Report(if total > 0 then Intact else Empty, total, None);
  }

  // ---- Building a chain ----

  lemma AppendKeepsIntact<F>(rows: seq<Row<F>>, id: string, fields: F)
    requires IntactChain(rows)
    ensures IntactChain(rows + [NextRow(Head(rows), id, fields)])
    ensures Head(rows + [NextRow(Head(rows), id, fields)]) == Node(Head(rows), fields)
  {
    var more := rows + [NextRow(Head(rows), id, fields)];
    forall i | 0 <= i < |more| ensures LinkOk(more, i) {
      if i < |rows| {
        assert LinkOk(rows, i);
      }
    }
  }

  lemma PrefixKeepsLinks<F>(rows: seq<Row<F>>, other: seq<Row<F>>, n: nat)
    requires n <= |rows| && n <= |other|
    requires rows[..n] == other[..n]
    ensures forall i | 0 <= i < n :: LinkOk(rows, i) == LinkOk(other, i)
  {
    forall i | 0 <= i < n ensures LinkOk(rows, i) == LinkOk(other, i) {
      assert rows[i] == rows[..n][i] == other[i];
      if i > 0 {
        assert rows[i - 1] == rows[..n][i - 1] == other[i - 1];
      }
    }
  }

  // ---- What the head hash pins down ----

  /** The hashed content of the rows, oldest first: ids are not hashed. */
  ghost function Content<F>(rows: seq<Row<F>>): seq<F> {
    seq(|rows|, i requires 0 <= i < |rows| => rows[i].fields)
  }

  /** Two intact chains with the same last hash have the same hashed content and length. */
  lemma {:induction false} SameHeadSameContent<F>(a: seq<Row<F>>, b: seq<Row<F>>)
    requires IntactChain(a) && IntactChain(b)
    requires Head(a) == Head(b)
    ensures Content(a) == Content(b)
    decreases |a|
  {
    if |a| > 0 {
      assert LinkOk(a, |a| - 1);
    }
    if |b| > 0 {
      assert LinkOk(b, |b| - 1);
    }
    if |a| > 0 && |b| > 0 {
      var m, n := |a| - 1, |b| - 1;
      PrefixKeepsLinks(a, a[..m], m);
      PrefixKeepsLinks(b, b[..n], n);
      SameHeadSameContent(a[..m], b[..n]);
      assert Content(a) == Content(a[..m]) + [a[m].fields];
      assert Content(b) == Content(b[..n]) + [b[n].fields];
    }
  }

  lemma {:induction false} SameContentSameHead<F>(a: seq<Row<F>>, b: seq<Row<F>>)
    requires IntactChain(a) && IntactChain(b)
    requires Content(a) == Content(b)
    ensures Head(a) == Head(b)
    decreases |a|
  {
    assert |a| == |Content(a)| == |b|;
    if |a| > 0 {
      var n := |a| - 1;
      assert LinkOk(a, n) && LinkOk(b, n);
      assert a[n].fields == Content(a)[n] == b[n].fields;
      PrefixKeepsLinks(a, a[..n], n);
      PrefixKeepsLinks(b, b[..n], n);
      assert Content(a[..n]) == Content(a)[..n] == Content(b[..n]);
      SameContentSameHead(a[..n], b[..n]);
    }
  }

  /** The ledger endpoint's verdict: the walk is clean and the head row agrees. */
  ghost predicate Verified<F>(rows: seq<Row<F>>, head: Digest<F>, count: nat) {
    IntactChain(rows) && head == Head(rows) && count == |rows|
  }

  /** Verification is exact: against the head left by an intact chain, what passes is that chain,
      hash for hash and field for field, and nothing else; only row ids are free. */
  lemma VerificationIsExact<F>(original: seq<Row<F>>, found: seq<Row<F>>)
    requires IntactChain(original)
    ensures Verified(found, Head(original), |original|)
       <==> |found| == |original|
            && forall i | 0 <= i < |found| ::
                 found[i] == Row(found[i].id, original[i].fields, original[i].prevHash, original[i].entryHash)
  {
    if Verified(found, Head(original), |original|) {
      SameHeadSameContent(original, found);
      forall i | 0 <= i < |found|
        ensures found[i] == Row(found[i].id, original[i].fields, original[i].prevHash, original[i].entryHash)
      {
        SamePrefixHead(original, found, i);
        assert found[i].fields == Content(found)[i] == Content(original)[i] == original[i].fields;
        assert LinkOk(found, i) && LinkOk(original, i);
      }
    }
    if |found| == |original|
       && forall i | 0 <= i < |found| ::
            found[i] == Row(found[i].id, original[i].fields, original[i].prevHash, original[i].entryHash) {
      forall i | 0 <= i < |found| ensures LinkOk(found, i) {
        assert LinkOk(original, i);
      }
    }
  }

  lemma SamePrefixHead<F>(a: seq<Row<F>>, b: seq<Row<F>>, i: nat)
    requires IntactChain(a) && IntactChain(b)
    requires Content(a) == Content(b)
    requires i <= |a|
    ensures |a| == |b| && HashBefore(a, i) == HashBefore(b, i)
  {
    assert |a| == |Content(a)| == |b|;
    PrefixKeepsLinks(a, a[..i], i);
    PrefixKeepsLinks(b, b[..i], i);
    assert Content(a[..i]) == Content(a)[..i] == Content(b[..i]);
    SameContentSameHead(a[..i], b[..i]);
  }

  // ---- Where tampering is reported ----

  lemma DigestNotItsOwnParent<F>(d: Digest<F>, fields: F)
    ensures Node(d, fields) != d
  {
    assert d < Node(d, fields);
  }

  /** Rewriting a row's fields in place is reported at exactly that row. */
  lemma EditReportedAtRow<F>(rows: seq<Row<F>>, i: nat, fields: F)
    requires IntactChain(rows) && i < |rows|
    requires fields != rows[i].fields
    ensures BreaksFirstAt(rows[i := rows[i].(fields := fields)], i)
  {
    var edited := rows[i := rows[i].(fields := fields)];
    PrefixKeepsLinks(rows, edited, i);
    assert LinkOk(rows, i);
  }

  /** Rewriting a row together with its own hash moves the report to the next row, or to the head check. */
  lemma RehashedEditReported<F>(rows: seq<Row<F>>, i: nat, fields: F)
    requires IntactChain(rows) && i < |rows|
    requires fields != rows[i].fields
    ensures var edited := rows[i := Row(rows[i].id, fields, rows[i].prevHash, Node(rows[i].prevHash, fields))];
      if i + 1 < |rows| then BreaksFirstAt(edited, i + 1)
      else IntactChain(edited) && Head(edited) != Head(rows)
  {
    var edited := rows[i := Row(rows[i].id, fields, rows[i].prevHash, Node(rows[i].prevHash, fields))];
    PrefixKeepsLinks(rows, edited, i);
    assert LinkOk(rows, i) && LinkOk(edited, i);
    if i + 1 < |rows| {
      assert LinkOk(rows, i + 1);
    }
  }

  /** Deleting an inner row is reported at its successor, which has taken its position. */
  lemma DeletionReportedAtSuccessor<F>(rows: seq<Row<F>>, i: nat)
    requires IntactChain(rows) && i + 1 < |rows|
    ensures BreaksFirstAt(rows[..i] + rows[i + 1..], i)
    ensures (rows[..i] + rows[i + 1..])[i] == rows[i + 1]
  {
    var cut := rows[..i] + rows[i + 1..];
    PrefixKeepsLinks(rows, cut, i);
    assert LinkOk(rows, i) && LinkOk(rows, i + 1);
    assert HashBefore(cut, i) == HashBefore(rows, i);
    DigestNotItsOwnParent(rows[i].prevHash, rows[i].fields);
  }

  /** Dropping rows from the end leaves a clean walk, and is caught by the head hash alone. */
  lemma TruncationReportedByHead<F>(rows: seq<Row<F>>, n: nat)
    requires IntactChain(rows) && n < |rows|
    ensures IntactChain(rows[..n]) && Head(rows[..n]) != Head(rows)
  {
    PrefixKeepsLinks(rows, rows[..n], n);
    if Head(rows[..n]) == Head(rows) {
      SameHeadSameContent(rows, rows[..n]);
    }
  }

  // ---- Walking the table in time order ----

  ghost predicate StrictlyLater<T>(rows: seq<T>, at: T -> int) {
    forall i, j | 0 <= i < j < |rows| :: at(rows[i]) < at(rows[j])
  }

  /** The verifiers fetch rows ordered by time (ties by id). When every append happened at a strictly
      later instant, that order is the append order, whatever order the table returns. */
  lemma {:induction false} TimeOrderIsAppendOrder<T>(appended: seq<T>, fetched: seq<T>, at: T -> int)
    requires StrictlyLater(appended, at)
    requires multiset(fetched) == multiset(appended)
    requires forall i, j | 0 <= i < j < |fetched| :: at(fetched[i]) <= at(fetched[j])
    ensures fetched == appended
    decreases |appended|
  {
    assert |fetched| == |multiset(fetched)| == |appended|;
    if |appended| > 0 {
      var n := |appended| - 1;
      LatestIsLast(appended, fetched, at);
      WithoutLast(appended);
      WithoutLast(fetched);
      assert multiset(fetched[..n]) == multiset(appended[..n]);
      TimeOrderIsAppendOrder(appended[..n], fetched[..n], at);
      assert fetched == fetched[..n] + [fetched[n]] && appended == appended[..n] + [appended[n]];
    }
  }

  lemma WithoutLast<T>(s: seq<T>)
    requires |s| > 0
    ensures multiset(s[..|s| - 1]) == multiset(s) - multiset{s[|s| - 1]}
    ensures s == s[..|s| - 1] + [s[|s| - 1]]
  {
    assert s == s[..|s| - 1] + [s[|s| - 1]];
  }

  lemma LatestIsLast<T>(appended: seq<T>, fetched: seq<T>, at: T -> int)
    requires StrictlyLater(appended, at) && |fetched| == |appended| > 0
    requires multiset(fetched) == multiset(appended)
    requires forall i, j | 0 <= i < j < |fetched| :: at(fetched[i]) <= at(fetched[j])
    ensures fetched[|fetched| - 1] == appended[|appended| - 1]
  {
    var n := |appended| - 1;
    assert appended[n] in multiset(fetched) && fetched[n] in multiset(appended);
    var i :| 0 <= i < |fetched| && fetched[i] == appended[n];
    var j :| 0 <= j < |appended| && appended[j] == fetched[n];
    assert at(appended[n]) <= at(fetched[n]);
  }
}
