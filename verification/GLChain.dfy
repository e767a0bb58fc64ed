/** The part of `gl.post_entry` that runs under the chain-head lock: the duplicate re-check, the
    per-day entry number, the chained row and the advanced head. */
module GLChain {
  import opened Wrappers
  import opened Journal
  import opened AuditChain

  datatype SourceType =
    | MANUAL | OPENING | REVERSAL | YEAR_CLOSE
    | ORDER | ORDER_REFUND | SUPPLIER_PURCHASE | SUPPLIER_PAYMENT | BUYBACK | MELT | ADJUSTMENT
    | OTHER(name: string)
  {
    /** GL_UNIQUE_LIVE_SOURCE_TYPES: the auto-post sources with at most one live entry. */
    predicate UniqueLive() {
      ORDER? || ORDER_REFUND? || SUPPLIER_PURCHASE? || SUPPLIER_PAYMENT? || BUYBACK? || MELT? || ADJUSTMENT?
    }
  }

  /** JE-YYYYMMDD-NNN */
  datatype EntryNo = JE(day: Date, seqNo: nat)

  /** What a caller of post_entry supplies. */
  datatype Draft = Draft(date: Date, memo: string, sourceType: SourceType, sourceId: Option<string>,
                         reverses: Option<string>, actor: string, lines: seq<Line>)

  /** The hashed content of an entry: header and ordered lines. */
  datatype Content = Content(no: EntryNo, draft: Draft, occurredAt: int)

  type Entry = Row<Content>

  predicate IsReversal(e: Entry) { e.fields.draft.reverses.Some? }
  predicate Reverses(e: Entry, id: string) { e.fields.draft.reverses == Some(id) }
  predicate IsLiveFor(e: Entry, t: SourceType, source: string) {
    e.fields.draft.sourceType == t && e.fields.draft.sourceId == Some(source) && e.fields.draft.reverses == None
  }
  function OccurredAt(e: Entry): int { e.fields.occurredAt }

  // ---- The lookups: find_reversal, find_live_entry, entry by id ----

  predicate HasReversal(entries: seq<Entry>, id: string) {
    exists i | 0 <= i < |entries| :: Reverses(entries[i], id)
  }
  predicate HasLive(entries: seq<Entry>, t: SourceType, source: string) {
    exists i | 0 <= i < |entries| :: IsLiveFor(entries[i], t, source)
  }
  predicate HasId(entries: seq<Entry>, id: string) {
    exists i | 0 <= i < |entries| :: entries[i].id == id
  }

  function IndexOf(entries: seq<Entry>, id: string): (i: nat)
    requires HasId(entries, id)
    ensures i < |entries| && entries[i].id == id
  {
    if entries[0].id == id then 0
    else
      assert HasId(entries[1..], id) by {
        var j :| 0 <= j < |entries| && entries[j].id == id;
        assert entries[1..][j - 1].id == id;
      }
      1 + IndexOf(entries[1..], id)
  }

  /** `_refuse_duplicate_posting`: a second reversal, or a second live entry of an auto-post source. */
  predicate IsDuplicate(entries: seq<Entry>, d: Draft) {
    if d.reverses.Some? then HasReversal(entries, d.reverses.value)
    else d.sourceType.UniqueLive() && d.sourceId.Some? && HasLive(entries, d.sourceType, d.sourceId.value)
  }

  // ---- The chain: the journal table, its head row and the entry counters ----

  datatype Chain = Chain(entries: seq<Entry>, head: Digest<Content>, count: nat, daySeq: map<Date, nat>)

  function LastSeq(daySeq: map<Date, nat>, d: Date): nat {
    if d in daySeq then daySeq[d] else 0
  }

  /** The entry `post_entry` writes onto head `head` with counters `daySeq`. */
  function NewEntry(head: Digest<Content>, daySeq: map<Date, nat>, id: string, d: Draft, now: int): Entry {
    NextRow(head, id, Content(JE(d.date, LastSeq(daySeq, d.date) + 1), d, now))
  }

  function Append(c: Chain, id: string, d: Draft, now: int): Chain {
    var e := NewEntry(c.head, c.daySeq, id, d, now);
    Chain(c.entries + [e], e.entryHash, c.count + 1, c.daySeq[d.date := e.fields.no.seqNo])
  }

  // ---- What the journal promises ----

  /** What `reverse_entry` has checked of the original before the lock. */
  ghost predicate ReversibleAt(entries: seq<Entry>, i: int) {
    0 <= i < |entries| && !IsReversal(entries[i]) && entries[i].fields.draft.sourceType != YEAR_CLOSE
  }

  ghost predicate DistinctIds(entries: seq<Entry>) {
    forall i, j | 0 <= i < j < |entries| :: entries[i].id != entries[j].id
  }
  ghost predicate DistinctNumbers(entries: seq<Entry>) {
    forall i, j | 0 <= i < j < |entries| :: entries[i].fields.no != entries[j].fields.no
  }
  ghost predicate ReversedAtMostOnce(entries: seq<Entry>) {
    forall i, j | 0 <= i < j < |entries| && IsReversal(entries[i]) ::
      entries[i].fields.draft.reverses != entries[j].fields.draft.reverses
  }
  /** `d` is the mirror image of the entry at `i`, which is no reversal. */
  ghost predicate MirrorOfAt(entries: seq<Entry>, i: int, d: Draft) {
    && 0 <= i < |entries| && !IsReversal(entries[i])
    && d.reverses == Some(entries[i].id) && d.lines == SwapAll(entries[i].fields.draft.lines)
  }
  /** And that entry may be reversed: it is no year close either. */
  ghost predicate ReversalOfAt(entries: seq<Entry>, i: int, d: Draft) {
    MirrorOfAt(entries, i, d) && ReversibleAt(entries, i)
  }
  /** A reversal mirrors an earlier entry that is no reversal. An old ledger may hold the reversal of a
      year close. */
  ghost predicate ReversalsPointBack(entries: seq<Entry>) {
    forall j | 0 <= j < |entries| && IsReversal(entries[j]) ::
      exists i | 0 <= i < j :: MirrorOfAt(entries, i, entries[j].fields.draft)
  }
  /** No year close was ever reversed. */
  ghost predicate ClosesStand(entries: seq<Entry>) {
    forall i | 0 <= i < |entries| && entries[i].fields.draft.sourceType == YEAR_CLOSE ::
      !HasReversal(entries, entries[i].id)
  }
  ghost predicate OneLivePerSource(entries: seq<Entry>) {
    forall i, j | 0 <= i < j < |entries| && entries[i].fields.draft.sourceType.UniqueLive()
                  && !IsReversal(entries[i]) && !IsReversal(entries[j])
                  && entries[i].fields.draft.sourceId.Some? ::
      entries[i].fields.draft.sourceType != entries[j].fields.draft.sourceType
      || entries[i].fields.draft.sourceId != entries[j].fields.draft.sourceId
  }
  ghost predicate CountersCover(entries: seq<Entry>, daySeq: map<Date, nat>) {
    forall i | 0 <= i < |entries| :: entries[i].fields.no.seqNo <= LastSeq(daySeq, entries[i].fields.no.day)
  }

  /** One unforked chain that agrees with its head row, and the business rules of posting. */
  ghost predicate JournalSafe(c: Chain) {
    && Verified(c.entries, c.head, c.count)
    && StrictlyLater(c.entries, OccurredAt)
    && DistinctIds(c.entries)
    && DistinctNumbers(c.entries) && CountersCover(c.entries, c.daySeq)
    && ReversedAtMostOnce(c.entries) && ReversalsPointBack(c.entries)
    && OneLivePerSource(c.entries)
  }

  ghost predicate AllBalanced(entries: seq<Entry>) {
    forall e | e in entries :: EntryBalanced(e.fields.draft.lines)
  }

  ghost predicate OnlyPastEntries(entries: seq<Entry>, now: int) {
    forall i | 0 <= i < |entries| :: OccurredAt(entries[i]) < now
  }

  /** What must hold when an entry is appended under the lock. */
  ghost predicate MayAppend(c: Chain, id: string, d: Draft, now: int) {
    && !HasId(c.entries, id)
    && OnlyPastEntries(c.entries, now)
    && !IsDuplicate(c.entries, d)
    && (d.reverses.Some? ==> exists i :: ReversalOfAt(c.entries, i, d))
  }

  lemma AppendReversalsPointBack(c: Chain, id: string, d: Draft, now: int)
    requires ReversalsPointBack(c.entries)
    requires MayAppend(c, id, d, now)
    ensures ReversalsPointBack(Append(c, id, d, now).entries)
  {
    var more := Append(c, id, d, now).entries;
    forall j | 0 <= j < |more| && IsReversal(more[j])
      ensures exists i | 0 <= i < j :: MirrorOfAt(more, i, more[j].fields.draft)
    {
      if j < |c.entries| {
        assert more[j] == c.entries[j];
        var i :| 0 <= i < j && MirrorOfAt(c.entries, i, c.entries[j].fields.draft);
        assert more[i] == c.entries[i] && MirrorOfAt(more, i, more[j].fields.draft);
      } else {
        var i :| ReversalOfAt(c.entries, i, d);
        assert more[i] == c.entries[i] && MirrorOfAt(more, i, more[j].fields.draft);
      }
    }
  }

  /** No posting reverses a year close, whatever the ledger held before. */
  lemma AppendReversesNoClose(c: Chain, id: string, d: Draft, now: int, i: nat)
    requires MayAppend(c, id, d, now) && DistinctIds(c.entries) && i < |c.entries|
    requires c.entries[i].fields.draft.sourceType == YEAR_CLOSE && !HasReversal(c.entries, c.entries[i].id)
    ensures !HasReversal(Append(c, id, d, now).entries, c.entries[i].id)
  {
    if d.reverses.Some? {
      var k :| ReversalOfAt(c.entries, k, d);
      assert k != i;
      assert c.entries[k].id != c.entries[i].id;
    }
  }

  lemma AppendKeepsClosesStanding(c: Chain, id: string, d: Draft, now: int)
    requires ClosesStand(c.entries) && ReversalsPointBack(c.entries) && DistinctIds(c.entries)
    requires MayAppend(c, id, d, now)
    ensures ClosesStand(Append(c, id, d, now).entries)
  {
    var more, n := Append(c, id, d, now).entries, |c.entries|;
    forall i | 0 <= i < |more| && more[i].fields.draft.sourceType == YEAR_CLOSE
      ensures !HasReversal(more, more[i].id)
    {
      if i < n {
        assert more[i] == c.entries[i];
        AppendReversesNoClose(c, id, d, now, i);
      } else {
        NewIdIsUnreversed(c, id, d, now);
      }
    }
  }

  /** Nothing reverses an entry that was not there: its own id is new. */
  lemma NewIdIsUnreversed(c: Chain, id: string, d: Draft, now: int)
    requires ReversalsPointBack(c.entries) && MayAppend(c, id, d, now)
    ensures !HasReversal(Append(c, id, d, now).entries, id)
  {
    var more := Append(c, id, d, now).entries;
    forall j | 0 <= j < |more| && IsReversal(more[j]) ensures !Reverses(more[j], id) {
      if j < |c.entries| {
        var i :| 0 <= i < j && MirrorOfAt(c.entries, i, c.entries[j].fields.draft);
        assert c.entries[i].id != id;
      } else {
        var i :| ReversalOfAt(c.entries, i, d);
        assert c.entries[i].id != id;
      }
    }
  }

  lemma AppendNumbers(c: Chain, id: string, d: Draft, now: int)
    requires DistinctNumbers(c.entries) && CountersCover(c.entries, c.daySeq)
    ensures var next := Append(c, id, d, now);
      DistinctNumbers(next.entries) && CountersCover(next.entries, next.daySeq)
  {
  }

  lemma AppendUniqueness(c: Chain, id: string, d: Draft, now: int)
    requires ReversedAtMostOnce(c.entries) && OneLivePerSource(c.entries)
    requires !IsDuplicate(c.entries, d)
    ensures ReversedAtMostOnce(Append(c, id, d, now).entries)
    ensures OneLivePerSource(Append(c, id, d, now).entries)
  {
    var more := Append(c, id, d, now).entries;
    var n := |c.entries|;
    forall i | 0 <= i < n && IsReversal(more[i])
      ensures more[i].fields.draft.reverses != more[n].fields.draft.reverses
    {
      if more[i].fields.draft.reverses == d.reverses {
        assert Reverses(c.entries[i], d.reverses.value);
      }
    }
    forall i | 0 <= i < n && more[i].fields.draft.sourceType.UniqueLive() && !IsReversal(more[i])
               && !IsReversal(more[n]) && more[i].fields.draft.sourceId.Some?
      ensures more[i].fields.draft.sourceType != d.sourceType || more[i].fields.draft.sourceId != d.sourceId
    {
      if more[i].fields.draft.sourceType == d.sourceType && more[i].fields.draft.sourceId == d.sourceId {
        assert IsLiveFor(c.entries[i], d.sourceType, d.sourceId.value);
      }
    }
  }

  lemma AppendInOrder(c: Chain, id: string, d: Draft, now: int)
    requires StrictlyLater(c.entries, OccurredAt) && DistinctIds(c.entries)
    requires OnlyPastEntries(c.entries, now) && !HasId(c.entries, id)
    ensures StrictlyLater(Append(c, id, d, now).entries, OccurredAt) && DistinctIds(Append(c, id, d, now).entries)
  {
  }

  /** Appending under the lock keeps every promise of the journal. */
  lemma AppendKeepsJournalSafe(c: Chain, id: string, d: Draft, now: int)
    requires JournalSafe(c)
    requires MayAppend(c, id, d, now)
    ensures JournalSafe(Append(c, id, d, now))
  {
    AppendKeepsIntact(c.entries, id, Content(JE(d.date, LastSeq(c.daySeq, d.date) + 1), d, now));
    AppendInOrder(c, id, d, now);
    AppendNumbers(c, id, d, now);
    AppendUniqueness(c, id, d, now);
    AppendReversalsPointBack(c, id, d, now);
  }
}
