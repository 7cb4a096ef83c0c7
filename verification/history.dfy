/** The durable event log: a hash chain in a table, an anchor outside it, and a standby that follows it. */
module History {
  import opened Types

  datatype EventType =
    | GoalAccepted | GoalCompensating | GoalAchieved | GoalBlocked | ProposalCreated | ProposalDenied
    | ProposalApproved | ActionDispatched | ActionCompleted | ObservationRecorded

  datatype Event = Event(sequence: nat, at: Time, kind: EventType, goal: Id, proposal: Id, action: Id, target: Id,
                         revision: nat, evidence: Option<Evidence>)

  // ---- The chain ----

  /** The digest of an event and everything before it; the empty string before the first. */
  datatype Hash = Root | Link(prev: Hash, event: Event)

  datatype Record = Record(sequence: nat, previous: Hash, hash: Hash, event: Event)

  function HeadHash(records: seq<Record>): Hash { if records == [] then Root else records[|records| - 1].hash }

  predicate Linked(records: seq<Record>, i: nat)
    requires i < |records|
  {
    && records[i].sequence == i + 1 == records[i].event.sequence
    && records[i].previous == HeadHash(records[..i])
    && records[i].hash == Link(records[i].previous, records[i].event)
  }

  ghost predicate Chained(records: seq<Record>) { forall i :: 0 <= i < |records| ==> Linked(records, i) }

  lemma ChainedPrefix(records: seq<Record>, n: nat)
    requires Chained(records) && n <= |records|
    ensures Chained(records[..n])
  {
    forall i | 0 <= i < n ensures Linked(records[..n], i) {
      assert Linked(records, i);
      assert records[..n][..i] == records[..i];
    }
  }

  lemma ChainedSnoc(records: seq<Record>, event: Event)
    requires Chained(records) && event.sequence == |records| + 1
    ensures Chained(records + [Record(event.sequence, HeadHash(records), Link(HeadHash(records), event), event)])
  {
    var more := records + [Record(event.sequence, HeadHash(records), Link(HeadHash(records), event), event)];
    forall i | 0 <= i < |more| ensures Linked(more, i) {
      assert more[..i] == records[..i];
      if i < |records| { assert Linked(records, i); } else { assert records[..i] == records; }
    }
  }

  /** Re-derives every hash, carrying only the previous one. */
  method VerifyChain(records: seq<Record>) returns (ok: bool)
    ensures ok <==> Chained(records)
  {
    var previous, k := Root, 0;
    while k < |records|
      invariant 0 <= k <= |records| && previous == HeadHash(records[..k])
      invariant forall i :: 0 <= i < k ==> Linked(records, i)
    {
      var r := records[k];
      if r.sequence != k + 1 || r.event.sequence != r.sequence || r.previous != previous || r.hash != Link(previous, r.event) {
        assert !Linked(records, k);
        return false;
      }
      previous, k := r.hash, k + 1;
    }
    return true;
  }

  /** The one chain a hash can be the head of. */
  function RecordsOf(h: Hash): seq<Record> {
    match h
    case Root => []
    case Link(prev, event) => var before := RecordsOf(prev); before + [Record(|before| + 1, prev, h, event)]
  }

  lemma {:induction false} ChainIsItsHead(records: seq<Record>)
    requires Chained(records)
    ensures records == RecordsOf(HeadHash(records))
  {
    if records != [] {
      var n := |records| - 1;
      ChainedPrefix(records, n);
      ChainIsItsHead(records[..n]);
      assert Linked(records, n);
      assert records == records[..n] + [records[n]];
    }
  }

  /** Two verified chains with the same head are the same history. */
  lemma SameHeadSameHistory(a: seq<Record>, b: seq<Record>)
    requires Chained(a) && Chained(b) && HeadHash(a) == HeadHash(b)
    ensures a == b
  {
    ChainIsItsHead(a);
    ChainIsItsHead(b);
  }

  /** Agreeing on one record, two verified chains agree on everything before it. */
  lemma SameRecordSamePast(a: seq<Record>, b: seq<Record>, n: nat)
    requires Chained(a) && Chained(b) && 0 < n <= |a| && n <= |b| && a[n - 1].hash == b[n - 1].hash
    ensures a[..n] == b[..n]
  {
    ChainedPrefix(a, n);
    ChainedPrefix(b, n);
    SameHeadSameHistory(a[..n], b[..n]);
  }

  // ---- The store ----

  datatype Head = Head(sequence: nat, hash: Hash)

  /** The table with its head row, and the head that one writer remembers. */
  datatype Store = Store(records: seq<Record>, row: Head, head: Head)

  /** The rows are numbered from one and the head row counts them. Opening checks this, and appending keeps it. */
  ghost predicate Numbered(records: seq<Record>, row: Head) {
    row.sequence == |records| && forall i :: 0 <= i < |records| ==> records[i].sequence == i + 1
  }

  /** The chain verifies, and both heads name its last record. */
  ghost predicate Sound(s: Store) {
    Chained(s.records) && s.row == s.head == Head(|s.records|, HeadHash(s.records))
  }

  lemma ChainedIsNumbered(records: seq<Record>)
    requires Chained(records)
    ensures forall i :: 0 <= i < |records| ==> records[i].sequence == i + 1
  {
    forall i | 0 <= i < |records| ensures records[i].sequence == i + 1 { assert Linked(records, i); }
  }

  /** A record is derived from the remembered head; the head row moves on only from the sequence remembered. */
  function Appended(s: Store, event: Event): Result<Store> {
    if event.sequence != s.head.sequence + 1 || s.row.sequence != s.head.sequence then Err
    else
      var head := Head(event.sequence, Link(s.head.hash, event));
      Ok(Store(s.records + [Record(event.sequence, s.head.hash, head.hash, event)], head, head))
  }

  /** After an append the chain verifies if and only if it did before and was extended from its own last record. */
  lemma AppendKeepsChain(s: Store, event: Event)
    requires Numbered(s.records, s.row) && Appended(s, event).Ok?
    ensures var after := Appended(s, event).value;
            && Numbered(after.records, after.row)
            && (Chained(after.records) <==> Chained(s.records) && s.head.hash == HeadHash(s.records))
  {
    var after, n := Appended(s, event).value.records, |s.records|;
    assert after[..n] == s.records;
    if Chained(after) {
      ChainedPrefix(after, n);
      assert Linked(after, n);
    } else if Chained(s.records) && s.head.hash == HeadHash(s.records) {
      ChainedSnoc(s.records, event);
    }
  }

  class Database {
    var records: seq<Record>
    var head: Head

    constructor ()
      ensures records == [] && head == Head(0, Root)
    {
      records, head := [], Head(0, Root);
    }
  }

  class File {
    const db: Database
    var isOpen: bool
    var head: Head

    ghost function View(): Store
      reads this, db
    {
      Store(db.records, db.head, head)
    }

    ghost predicate Valid()
      reads db
    {
      Numbered(db.records, db.head)
    }

    constructor (db: Database)
      ensures this.db == db && !isOpen && head == Head(0, Root)
    {
      this.db, isOpen, head := db, false, Head(0, Root);
    }

    /** Opens a table that counts as many rows as its head row says, and whose chain verifies. Whether the head row
        names the last record is not looked at. */
    method Open() returns (ok: bool)
      modifies this
      ensures ok <==> |db.records| == db.head.sequence && Chained(db.records)
      ensures isOpen == ok && (ok ==> head == db.head && Valid())
    {
      isOpen := false;
      if |db.records| != db.head.sequence { return false; }
      head := db.head;
      ok := VerifyChain(db.records);
      if ok { ChainedIsNumbered(db.records); }
      isOpen := ok;
    }

    /** Extends the table by one record derived from the remembered head, or changes nothing. A second writer whose
        head is older cannot fork the chain: its append fails. */
    method Append(event: Event) returns (ok: bool)
      requires Valid()
      modifies this`head, db
      ensures Valid() && ok == (isOpen && Appended(old(View()), event).Ok?)
      ensures View() == if ok then Appended(old(View()), event).value else old(View())
      ensures ok ==> (Chained(db.records) <==> Chained(old(db.records)) && old(head.hash) == HeadHash(old(db.records)))
    {
      if !isOpen { return false; }
      var expected := head.sequence + 1;
      if event.sequence != expected { return false; }
      var hash := Link(head.hash, event);
      if expected <= |db.records| { return false; }
      if db.head.sequence != head.sequence { return false; }
      AppendKeepsChain(View(), event);
      db.records, db.head := db.records + [Record(expected, head.hash, hash, event)], Head(expected, hash);
      head := Head(expected, hash);
      return true;
    }

    /** Whether a record already held is the one the primary sent. */
    method ConfirmRecord(record: Record) returns (ok: bool)
      ensures ok <==> isOpen && (0 < record.sequence <= |db.records| ==> db.records[record.sequence - 1].hash == record.hash)
    {
      if !isOpen { return false; }
      if record.sequence == 0 || record.sequence > |db.records| { return true; }
      return db.records[record.sequence - 1].hash == record.hash;
    }

    /** A record sent is either confirmed or re-derived against this store's own chain. A record that derives another
        hash than the primary's is refused after it was appended. */
    method IngestOne(r: Record) returns (added: nat, ok: bool)
      requires isOpen && Valid()
      modifies this`head, db
      ensures Valid() && old(db.records) <= db.records && ok == Takes(old(View()), r).Ok?
      ensures ok ==> View() == Takes(old(View()), r).value && |db.records| == |old(db.records)| + added
    {
      if r.sequence <= head.sequence {
        ok := ConfirmRecord(r);
        return 0, ok;
      }
      ok := Append(r.event);
      return 1, ok && head.hash == r.hash;
    }

    method Ingest(batch: seq<Record>) returns (appended: nat, ok: bool)
      requires isOpen && Valid()
      modifies this`head, db
      ensures Valid() && old(db.records) <= db.records
      ensures ok == Ingested(old(View()), batch).Ok?
      ensures ok ==> View() == Ingested(old(View()), batch).value && |db.records| == |old(db.records)| + appended
    {
      ghost var start := View();
      appended := 0;
      for k := 0 to |batch|
        invariant isOpen && Valid() && old(db.records) <= db.records && |db.records| == |old(db.records)| + appended
        invariant Ingested(start, batch[..k]) == Ok(View())
      {
        IngestedNext(start, batch, k, View());
        var added: nat;
        added, ok := IngestOne(batch[k]);
        if !ok {
          IngestStops(start, batch, k + 1);
          return;
        }
        appended := appended + added;
      }
      assert batch[..|batch|] == batch;
      return appended, true;
    }
  }

  // ---- Following a primary ----

  /** One record sent by a primary: already held with the same hash, or the next event deriving the same hash. */
  function Takes(s: Store, r: Record): Result<Store> {
    if r.sequence <= s.head.sequence then
      (if 0 < r.sequence <= |s.records| && s.records[r.sequence - 1].hash != r.hash then Err else Ok(s))
    else
      var after :- Appended(s, r.event);
      if after.head.hash == r.hash then Ok(after) else Err
  }

  function Ingested(s: Store, batch: seq<Record>): Result<Store> {
    if batch == [] then Ok(s)
    else
      var before :- Ingested(s, batch[..|batch| - 1]);
      Takes(before, batch[|batch| - 1])
  }

  lemma IngestedNext(s: Store, batch: seq<Record>, k: nat, mid: Store)
    requires k < |batch| && Ingested(s, batch[..k]) == Ok(mid)
    ensures Ingested(s, batch[..k + 1]) == Takes(mid, batch[k])
  {
    assert batch[..k + 1][..k] == batch[..k];
  }

  lemma {:induction false} IngestStops(s: Store, batch: seq<Record>, k: nat)
    requires k <= |batch| && Ingested(s, batch[..k]).Err?
    ensures Ingested(s, batch).Err?
    decreases |batch| - k
  {
    if k < |batch| {
      assert batch[..k + 1][..k] == batch[..k];
      IngestStops(s, batch, k + 1);
    } else {
      assert batch[..k] == batch;
    }
  }

  lemma TakingKeepsChain(s: Store, r: Record)
    requires Numbered(s.records, s.row) && s.row == s.head && Takes(s, r).Ok?
    ensures var after := Takes(s, r).value;
            && Numbered(after.records, after.row) && after.row == after.head
            && s.records <= after.records
            && (after == s || after.head.hash == HeadHash(after.records))
            && (after != s ==> (Chained(after.records) <==> Chained(s.records) && s.head.hash == HeadHash(s.records)))
  {
    if r.sequence > s.head.sequence { AppendKeepsChain(s, r.event); }
  }

  /** Ingesting into an opened store leaves a chain that verifies if and only if nothing was added, or the head row
      named the last record. */
  lemma {:induction false} IngestKeepsChain(s: Store, batch: seq<Record>)
    requires Numbered(s.records, s.row) && s.row == s.head && Chained(s.records) && Ingested(s, batch).Ok?
    ensures var after := Ingested(s, batch).value;
            && Numbered(after.records, after.row) && after.row == after.head && s.records <= after.records
            && (after == s || after.head.hash == HeadHash(after.records))
            && (Chained(after.records) <==> after == s || s.head.hash == HeadHash(s.records))
  {
    if batch != [] {
      IngestKeepsChain(s, batch[..|batch| - 1]);
      var mid := Ingested(s, batch[..|batch| - 1]).value;
      TakingKeepsChain(mid, batch[|batch| - 1]);
      if mid != s { assert |mid.records| >= |s.records|; }
    }
  }

  function SoundStore(records: seq<Record>): Store {
    var head := Head(|records|, HeadHash(records));
    Store(records, head, head)
  }

  ghost predicate Agree(follower: seq<Record>, primary: seq<Record>, n: nat) {
    n <= |follower| && n <= |primary| && follower[..n] == primary[..n]
  }

  ghost predicate SentBy(batch: seq<Record>, primary: seq<Record>) {
    forall r :: r in batch ==> 0 < r.sequence <= |primary| && r == primary[r.sequence - 1]
  }

  lemma TakingStaysSound(s: Store, r: Record)
    requires Sound(s) && Takes(s, r).Ok?
    ensures Sound(Takes(s, r).value) && s.records <= Takes(s, r).value.records
  {
    if r.sequence > s.head.sequence { ChainedSnoc(s.records, r.event); }
  }

  lemma TakingAgrees(s: Store, primary: seq<Record>, r: Record)
    requires Sound(s) && Chained(primary) && Takes(s, r).Ok?
    requires 0 < r.sequence <= |primary| && r == primary[r.sequence - 1]
    ensures var after := Takes(s, r).value; Sound(after) && s.records <= after.records && Agree(after.records, primary, r.sequence)
  {
    var after := Takes(s, r).value;
    assert Linked(primary, r.sequence - 1);
    TakingStaysSound(s, r);
    SameRecordSamePast(after.records, primary, r.sequence);
  }

  /** Records of a verified primary, accepted in whatever order and with whatever overlap, leave the follower
      with the primary's own history up to every one of them. */
  lemma {:induction false} IngestAgrees(s: Store, primary: seq<Record>, batch: seq<Record>, r: Record)
    requires Sound(s) && Chained(primary) && SentBy(batch, primary) && Ingested(s, batch).Ok?
    ensures var after := Ingested(s, batch).value;
            Sound(after) && s.records <= after.records && (r in batch ==> Agree(after.records, primary, r.sequence))
  {
    if batch != [] {
      var front, last := batch[..|batch| - 1], batch[|batch| - 1];
      assert SentBy(front, primary) by { forall x | x in front ensures x in batch {} }
      IngestAgrees(s, primary, front, r);
      assert last in batch;
      var mid := Ingested(s, front).value;
      TakingAgrees(mid, primary, last);
      assert r in batch ==> r in front || r == last;
      if r in front { StillAgree(mid.records, Takes(mid, last).value.records, primary, r.sequence); }
    }
  }

  lemma StillAgree(records: seq<Record>, more: seq<Record>, primary: seq<Record>, n: nat)
    requires Agree(records, primary, n) && records <= more
    ensures Agree(more, primary, n)
  {
    assert more[..n] == records[..n];
  }

  /** What a follower in agreement holds once the primary's first j records have been sent. */
  function Caught(follower: seq<Record>, primary: seq<Record>, j: nat): seq<Record>
    requires j <= |primary|
  {
    if j <= |follower| then follower else primary[..j]
  }

  /** The follower and the first j records of the primary do not differ where both have a record. */
  ghost predicate Coincide(follower: seq<Record>, primary: seq<Record>, j: nat) {
    forall k :: 0 <= k < |follower| && k < j && k < |primary| ==> follower[k] == primary[k]
  }

  lemma TakingNext(follower: seq<Record>, primary: seq<Record>, n: nat)
    requires Chained(primary) && n < |primary| && Coincide(follower, primary, n + 1)
    ensures Takes(SoundStore(Caught(follower, primary, n)), primary[n]) == Ok(SoundStore(Caught(follower, primary, n + 1)))
  {
    assert Linked(primary, n);
    if n >= |follower| {
      assert Caught(follower, primary, n) == primary[..n];
      assert primary[..n + 1] == primary[..n] + [primary[n]];
    }
  }

  /** The records of the primary from position i on. */
  ghost predicate Stretch(batch: seq<Record>, primary: seq<Record>, i: nat) {
    i + |batch| <= |primary| && forall k :: 0 <= k < |batch| ==> batch[k] == primary[i + k]
  }

  predicate TakesTo(s: Store, r: Record, after: Store) { Takes(s, r) == Ok(after) }

  /** Stores that follow from one another, one record at a time. */
  ghost predicate Stages(stages: seq<Store>, batch: seq<Record>) {
    && |stages| == |batch| + 1
    && forall k {:trigger batch[k]} :: 0 <= k < |batch| ==> TakesTo(stages[k], batch[k], stages[k + 1])
  }

  lemma {:induction false} IngestedInStages(stages: seq<Store>, batch: seq<Record>)
    requires Stages(stages, batch)
    ensures Ingested(stages[0], batch) == Ok(stages[|batch|])
  {
    if batch != [] {
      var n := |batch| - 1;
      IngestedInStages(stages[..n + 1], batch[..n]);
      assert TakesTo(stages[n], batch[n], stages[n + 1]);
    }
  }

  function StageAt(follower: seq<Record>, primary: seq<Record>, j: nat): Store
    requires j <= |primary|
  {
    SoundStore(Caught(follower, primary, j))
  }

  lemma NextStage(follower: seq<Record>, primary: seq<Record>, i: nat, batch: seq<Record>, k: nat)
    requires Chained(primary) && Stretch(batch, primary, i) && Coincide(follower, primary, i + |batch|) && k < |batch|
    ensures TakesTo(StageAt(follower, primary, i + k), batch[k], StageAt(follower, primary, i + k + 1))
  {
    assert batch[k] == primary[i + k];
    TakingNext(follower, primary, i + k);
  }

  /** The follower after each record of the batch. */
  ghost predicate FollowStages(follower: seq<Record>, primary: seq<Record>, i: nat, stages: seq<Store>) {
    forall k :: 0 <= k < |stages| ==> i + k <= |primary| && stages[k] == StageAt(follower, primary, i + k)
  }

  lemma {:induction false} StagesUpTo(follower: seq<Record>, primary: seq<Record>, i: nat, n: nat) returns (stages: seq<Store>)
    requires i <= |follower| && i + n <= |primary|
    ensures |stages| == n + 1 && FollowStages(follower, primary, i, stages) && stages[0] == SoundStore(follower)
  {
    if n == 0 {
      stages := [StageAt(follower, primary, i)];
    } else {
      stages := StagesUpTo(follower, primary, i, n - 1);
      stages := stages + [StageAt(follower, primary, i + n)];
    }
  }

  lemma FollowerInStages(follower: seq<Record>, primary: seq<Record>, i: nat, batch: seq<Record>, stages: seq<Store>)
    requires Chained(primary) && Stretch(batch, primary, i) && Coincide(follower, primary, i + |batch|)
    requires |stages| == |batch| + 1 && FollowStages(follower, primary, i, stages)
    ensures Stages(stages, batch)
  {
    forall k {:trigger batch[k]} | 0 <= k < |batch| ensures TakesTo(stages[k], batch[k], stages[k + 1]) {
      NextStage(follower, primary, i, batch, k);
    }
  }

  lemma AgreeingFollowerCatchesUp(follower: seq<Record>, primary: seq<Record>, i: nat, batch: seq<Record>)
    requires Chained(primary) && i <= |follower| && Stretch(batch, primary, i) && Coincide(follower, primary, i + |batch|)
    ensures Ingested(SoundStore(follower), batch).Ok?
  {
    var stages := StagesUpTo(follower, primary, i, |batch|);
    FollowerInStages(follower, primary, i, batch, stages);
    IngestedInStages(stages, batch);
  }

  /** A stretch of the primary's history that starts no later than the follower ends is accepted exactly when
      the follower agrees with the primary as far as the stretch and the follower both reach. */
  lemma IngestAccepts(follower: seq<Record>, primary: seq<Record>, i: nat, j: nat)
    requires Chained(follower) && Chained(primary) && i < j <= |primary| && i <= |follower|
    ensures Ingested(SoundStore(follower), primary[i..j]).Ok? <==>
            follower[..Min(j, |follower|)] == primary[..Min(j, |follower|)]
  {
    var m := Min(j, |follower|);
    if Ingested(SoundStore(follower), primary[i..j]).Ok? { StretchAgrees(follower, primary, i, j); }
    if follower[..m] == primary[..m] {
      forall k | 0 <= k < |follower| && k < j ensures follower[k] == primary[k] {
        assert follower[..m][k] == primary[..m][k];
      }
      AgreeingFollowerCatchesUp(follower, primary, i, primary[i..j]);
    }
  }

  lemma StretchAgrees(follower: seq<Record>, primary: seq<Record>, i: nat, j: nat)
    requires Chained(follower) && Chained(primary) && i < j <= |primary| && Ingested(SoundStore(follower), primary[i..j]).Ok?
    ensures var m := Min(j, |follower|); follower[..m] == primary[..m]
  {
    var batch := primary[i..j];
    forall r | r in batch ensures 0 < r.sequence <= |primary| && r == primary[r.sequence - 1] {
      var k :| 0 <= k < |batch| && batch[k] == r;
      assert Linked(primary, i + k);
    }
    assert Linked(primary, j - 1);
    assert primary[j - 1] == batch[j - 1 - i];
    IngestAgrees(SoundStore(follower), primary, batch, primary[j - 1]);
    PrefixesAgree(follower, Ingested(SoundStore(follower), batch).value.records, primary, j);
  }

  lemma PrefixesAgree(follower: seq<Record>, after: seq<Record>, primary: seq<Record>, j: nat)
    requires follower <= after && Agree(after, primary, j)
    ensures var m := Min(j, |follower|); follower[..m] == primary[..m]
  {
    var m := Min(j, |follower|);
    forall k | 0 <= k < m ensures follower[k] == primary[k] {
      assert follower[k] == after[k] && after[..j][k] == primary[..j][k];
    }
  }

  // ---- The anchor ----

  datatype Witnessed = Witnessed(sequence: nat, hash: Hash)

  const NOTHING_WITNESSED := Witnessed(0, Root)

  class Anchor {
    var lines: seq<Witnessed>
    var last: Witnessed

    /** The last witness is the highest line. */
    ghost predicate Valid()
      reads this
    {
      Highest(lines, last)
    }

    constructor (lines: seq<Witnessed>)
      ensures this.lines == lines && last == NOTHING_WITNESSED
    {
      this.lines, last := lines, NOTHING_WITNESSED;
    }

    /** Reads the whole file; a line with no hash is refused. */
    method Open() returns (ok: bool)
      modifies this`last
      ensures ok <==> forall w :: w in lines ==> w.hash != Root
      ensures ok ==> Valid()
    {
      last := NOTHING_WITNESSED;
      var k := 0;
      while k < |lines|
        invariant 0 <= k <= |lines| && Highest(lines[..k], last)
        invariant forall w :: w in lines[..k] ==> w.hash != Root
      {
        if lines[k].hash == Root { return false; }
        assert lines[..k + 1] == lines[..k] + [lines[k]];
        if last.sequence <= lines[k].sequence { last := lines[k]; }
        k := k + 1;
      }
      assert lines[..k] == lines;
      return true;
    }

    /** A witness never goes backwards, and never changes its mind about a sequence. */
    method Witness(sequence: nat, hash: Hash) returns (ok: bool)
      requires Valid()
      modifies this
      ensures Valid() && old(lines) <= lines && last.sequence >= old(last.sequence)
      ensures ok <==> hash != Root && (sequence > old(last.sequence) || old(last) == Witnessed(sequence, hash))
      ensures ok ==> last == Witnessed(sequence, hash)
      ensures !ok ==> last == old(last) && lines == old(lines)
    {
      if hash == Root { return false; }
      if sequence < last.sequence { return false; }
      if sequence == last.sequence && hash != last.hash { return false; }
      if sequence == last.sequence { return true; }
      lines, last := lines + [Witnessed(sequence, hash)], Witnessed(sequence, hash);
      return true;
    }

    method Check(store: File) returns (ok: bool)
      ensures ok <==> Passes(store.db.records, store.head, last)
    {
      if last.hash == Root { return true; }
      if store.head.sequence < last.sequence { return false; }
      if store.head.sequence == last.sequence { return store.head.hash == last.hash; }
      var k := 0;
      while k < |store.db.records|
        invariant 0 <= k <= |store.db.records|
        invariant forall i :: 0 <= i < k ==> store.db.records[i].sequence != last.sequence
      {
        if store.db.records[k].sequence == last.sequence {
          FirstAt(store.db.records, last.sequence, k);
          return store.db.records[k].hash == last.hash;
        }
        k := k + 1;
      }
      NoneAt(store.db.records, last.sequence);
      return false;
    }
  }

  ghost predicate Highest(lines: seq<Witnessed>, last: Witnessed) {
    && (lines == [] ==> last == NOTHING_WITNESSED)
    && (lines != [] ==> last in lines)
    && forall w :: w in lines ==> w.sequence <= last.sequence
  }

  function At(records: seq<Record>, sequence: nat): Option<Record> {
    if records == [] then None
    else if records[0].sequence == sequence then Some(records[0]) else At(records[1..], sequence)
  }

  lemma {:induction false} FirstAt(records: seq<Record>, sequence: nat, k: nat)
    requires k < |records| && records[k].sequence == sequence
    requires forall i :: 0 <= i < k ==> records[i].sequence != sequence
    ensures At(records, sequence) == Some(records[k])
  {
    if k > 0 {
      assert records[1..][k - 1] == records[k];
      FirstAt(records[1..], sequence, k - 1);
    }
  }

  lemma {:induction false} NoneAt(records: seq<Record>, sequence: nat)
    requires forall i :: 0 <= i < |records| ==> records[i].sequence != sequence
    ensures At(records, sequence).None?
  {
    if records != [] { NoneAt(records[1..], sequence); }
  }

  /** A store passes when its head, or the record it holds where the witness stood, has the witnessed hash. */
  predicate Passes(records: seq<Record>, head: Head, w: Witnessed) {
    || w.hash == Root
    || (head.sequence == w.sequence && head.hash == w.hash)
    || (head.sequence > w.sequence && At(records, w.sequence).Some? && At(records, w.sequence).value.hash == w.hash)
  }

  /** The history up to the witness is the one the witnessed hash stands for. */
  ghost predicate Extends(records: seq<Record>, w: Witnessed) {
    w.sequence <= |records| && records[..w.sequence] == RecordsOf(w.hash)
  }

  /** A verified store that passes its anchor extends exactly the witnessed history, if it has grown since the
      witness or its head row names its last record; and only then. */
  lemma AnchoredHistory(records: seq<Record>, head: Head, w: Witnessed)
    requires Chained(records) && head.sequence == |records| && w.hash != Root && Passes(records, head, w)
    ensures Extends(records, w) <==> Reliable(records, head, w)
  {
    if w.sequence < |records| {
      if w.sequence == 0 {
        forall i | 0 <= i < |records| ensures records[i].sequence != 0 { assert Linked(records, i); }
        NoneAt(records, 0);
      } else {
        AtSequence(records, w.sequence);
        ChainedPrefix(records, w.sequence);
        ChainIsItsHead(records[..w.sequence]);
      }
    } else {
      assert records[..w.sequence] == records;
      ChainIsItsHead(records);
      HeadOfRecords(w.hash);
    }
  }

  lemma AtSequence(records: seq<Record>, n: nat)
    requires Chained(records) && 0 < n <= |records|
    ensures At(records, n) == Some(records[n - 1])
  {
    assert Linked(records, n - 1);
    forall i | 0 <= i < n - 1 ensures records[i].sequence != n { assert Linked(records, i); }
    FirstAt(records, n, n - 1);
  }

  lemma HeadOfRecords(h: Hash)
    ensures HeadHash(RecordsOf(h)) == h
  {
  }

  /** A head row that still names the witnessed hash passes, whatever the last record is. */
  lemma HeadRowAlonePasses(e: Event, f: Event)
    requires e.sequence == 1 && f.sequence == 1 && e != f
    ensures var records, w := [Record(1, Root, Link(Root, f), f)], Witnessed(1, Link(Root, e));
            Chained(records) && Passes(records, Head(1, w.hash), w) && !Extends(records, w)
  {
    var records := [Record(1, Root, Link(Root, f), f)];
    assert records[..0] == [] && Linked(records, 0);
    assert RecordsOf(Link(Root, e)) == [Record(1, Root, Link(Root, e), e)];
    assert records[..1] == records;
  }

  // ---- The standby ----

  class Standby {
    const log: File
    const anchor: Anchor
    var following: bool

    constructor (log: File, anchor: Anchor)
      ensures this.log == log && this.anchor == anchor && following
    {
      this.log, this.anchor, following := log, anchor, true;
    }

    method Ingest(batch: seq<Record>) returns (appended: nat, ok: bool)
      requires log.isOpen && log.Valid()
      modifies log`head, log.db
      ensures log.Valid() && old(log.db.records) <= log.db.records
      ensures ok == (following && Ingested(old(log.View()), batch).Ok?)
      ensures ok ==> log.View() == Ingested(old(log.View()), batch).value
    {
      if !following { return 0, false; }
      appended, ok := log.Ingest(batch);
    }

    /** Promotion: the chain verifies, it is not behind the anchor read when the standby was opened, and the
        server that takes over opens the log again and checks the anchor as it stands now. A promoted history
        extends what the anchor witnessed if and only if it has grown since, or its head row names its last record. */
    method Promote(current: Anchor) returns (ok: bool)
      requires log.isOpen && current != anchor && (anchor.last.hash == Root ==> anchor.last.sequence == 0)
      modifies this, log
      ensures log.db.records == old(log.db.records) && log.db.head == old(log.db.head)
      ensures ok <==> old(following) && Promotable(old(log.View()), anchor.last, current.last)
      ensures ok ==> log.head == log.db.head
      ensures ok && current.last.hash != Root ==> (Extends(log.db.records, current.last) <==> Reliable(log.db.records, log.db.head, current.last))
      ensures ok && anchor.last.hash != Root && old(log.head) == log.db.head ==>
        (Extends(log.db.records, anchor.last) <==> Reliable(log.db.records, log.db.head, anchor.last))
    {
      if !following { return false; }
      var verified := VerifyChain(log.db.records);
      if !verified { return false; }
      if log.head.sequence < anchor.last.sequence { return false; }
      var checked := anchor.Check(log);
      if !checked { return false; }
      following := false;
      var reopened := log.Open();
      if !reopened { return false; }
      ok := current.Check(log);
      if ok && current.last.hash != Root { AnchoredHistory(log.db.records, log.db.head, current.last); }
      if anchor.last.hash != Root && old(log.head) == log.db.head {
        AnchoredHistory(log.db.records, log.db.head, anchor.last);
      }
    }
  }

  /** The history has grown since the witness, or its head row names its last record. */
  predicate Reliable(records: seq<Record>, head: Head, w: Witnessed) {
    w.sequence < |records| || head.hash == HeadHash(records)
  }

  /** What promotion asks of a store, the anchor read at opening and the anchor as it stands. */
  ghost predicate Promotable(s: Store, opening: Witnessed, now: Witnessed) {
    && Chained(s.records) && Passes(s.records, s.head, opening)
    && s.row.sequence == |s.records| && Passes(s.records, s.row, now)
  }

  /** A witness the primary took of its own log stands for exactly that much of the primary's history. */
  lemma WitnessOfPrimary(primary: seq<Record>, n: nat)
    requires Chained(primary) && n <= |primary|
    ensures RecordsOf(HeadHash(primary[..n])) == primary[..n]
  {
    ChainedPrefix(primary, n);
    ChainIsItsHead(primary[..n]);
  }
}
