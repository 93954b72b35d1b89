/**
  Enqueueing: validation of the payload, removal of idempotency collisions, and the batch that results.
 */
module JobCreate {
  import opened Wrappers
  import opened JobBatch
  import JobGraph
  import Collections
  import Text

  const MAX_ITEMS := 500
  const KEY_LENGTH := 200
  const INT4_MIN := -0x8000_0000
  const INT4_MAX := 0x7FFF_FFFF

  /** `after_seq` as it arrives: null or undefined, an integer, or anything else. */
  datatype AfterField = Absent | Whole(seqNo: int) | Malformed

  /** `label` and `ref` as they arrive: null or undefined, text, or anything else. */
  datatype TextField = NoText | Given(text: string) | NotText

  /**
    One entry of the payload; `argsIsObject` says whether `args` is a plain object.  A tool name or key
    that is not text counts as blank, which is refused the same way.
   */
  datatype NewItem = NewItem(
    toolName: string, argsIsObject: bool, key: string, after: AfterField, labelField: TextField, refField: TextField)

  /** `s.trim()` is not empty. */
  predicate NotBlank(s: string)
  {
    Text.Trim(s) != ""
  }

  predicate ValidItem(it: NewItem)
  {
    && NotBlank(it.toolName) && it.argsIsObject && NotBlank(it.key)
    && !it.after.Malformed? && !it.labelField.NotText? && !it.refField.NotText?
  }

  /** The key as stored: cut to 200 characters. */
  function StoredKey(it: NewItem): string
  {
    if |it.key| <= KEY_LENGTH then it.key else it.key[..KEY_LENGTH]
  }

  /** ON CONFLICT DO NOTHING: an entry is stored unless an earlier one has the same stored key. */
  predicate Kept(payload: seq<NewItem>, i: int)
  {
    0 <= i < |payload| && forall j :: 0 <= j < i ==> StoredKey(payload[j]) != StoredKey(payload[i])
  }

  function After(it: NewItem): Option<int>
  {
    if it.after.Whole? then Some(it.after.seqNo) else None
  }

  function NewRow(it: NewItem): Item
  {
    Item(After(it), Queued, 0, None, None)
  }

  function Rows(payload: seq<NewItem>): Items
  {
    map i | 0 <= i < |payload| && Kept(payload, i) :: NewRow(payload[i])
  }

  /** The database column is a 32-bit integer. */
  predicate Storable(payload: seq<NewItem>)
  {
    forall i :: 0 <= i < |payload| && payload[i].after.Whole? ==> INT4_MIN <= payload[i].after.seqNo <= INT4_MAX
  }

  function Create(payload: seq<NewItem>): Result<Batch>
  {
    if |payload| == 0 then Err("items must be a non-empty array")
    else if |payload| > MAX_ITEMS then Err("items exceeds 500 per call")
    else if exists i :: 0 <= i < |payload| && !ValidItem(payload[i]) then Err("every item needs tool_name, args object and idempotency_key")
    else if !Storable(payload) then Err("integer out of range")
    else
      var rows := Rows(payload);
      Ok(Batch(Pending, |rows|, 0, 0, 0, rows))
  }

  // ---------------------------------------------------------------- what create guarantees

  function StoredKeys(payload: seq<NewItem>): set<string>
  {
    set i | 0 <= i < |payload| :: StoredKey(payload[i])
  }

  /** Every stored key survives exactly once, at its first occurrence. */
  lemma {:induction false} KeptOnce(payload: seq<NewItem>, i: int)
    requires 0 <= i < |payload|
    ensures exists j :: 0 <= j <= i && Kept(payload, j) && StoredKey(payload[j]) == StoredKey(payload[i])
    decreases i
  {
    if !Kept(payload, i) {
      var j :| 0 <= j < i && StoredKey(payload[j]) == StoredKey(payload[i]);
      KeptOnce(payload, j);
    }
  }

  function KeptBelow(payload: seq<NewItem>, n: nat): set<int>
    requires n <= |payload|
  {
    set i | 0 <= i < n && Kept(payload, i)
  }

  function KeysBelow(payload: seq<NewItem>, n: nat): set<string>
    requires n <= |payload|
  {
    set i | 0 <= i < n :: StoredKey(payload[i])
  }

  lemma KeptStep(payload: seq<NewItem>, n: nat)
    requires n < |payload|
    ensures |KeptBelow(payload, n + 1)| == |KeptBelow(payload, n)| + if Kept(payload, n) then 1 else 0
  {
    if Kept(payload, n) {
      assert KeptBelow(payload, n + 1) == KeptBelow(payload, n) + {n};
    } else {
      assert KeptBelow(payload, n + 1) == KeptBelow(payload, n);
    }
  }

  lemma KeysStep(payload: seq<NewItem>, n: nat)
    requires n < |payload|
    ensures |KeysBelow(payload, n + 1)| == |KeysBelow(payload, n)| + if Kept(payload, n) then 1 else 0
  {
    assert KeysBelow(payload, n + 1) == KeysBelow(payload, n) + {StoredKey(payload[n])};
    if Kept(payload, n) {
      assert StoredKey(payload[n]) !in KeysBelow(payload, n);
    } else {
      assert StoredKey(payload[n]) in KeysBelow(payload, n);
    }
  }

  lemma {:induction false} PrefixKept(payload: seq<NewItem>, n: nat)
    requires n <= |payload|
    ensures |KeptBelow(payload, n)| == |KeysBelow(payload, n)|
  {
    if n == 0 {
      forall i: int ensures i !in KeptBelow(payload, 0) {}
      Collections.NoMembers(KeptBelow(payload, 0));
      Collections.NoMembers(KeysBelow(payload, 0));
    } else {
      PrefixKept(payload, n - 1);
      KeptStep(payload, n - 1);
      KeysStep(payload, n - 1);
    }
  }

  lemma {:induction false} CardUpTo(rows: set<int>, n: nat)
    requires forall i :: i in rows ==> 0 <= i < n
    ensures |rows| <= n
  {
    if n == 0 {
      forall i: int ensures i !in rows {}
      Collections.NoMembers(rows);
    } else {
      CardUpTo(rows - {n - 1}, n - 1);
      assert |rows - {n - 1}| >= |rows| - 1;
    }
  }

  /** The header's total is the number of distinct stored keys, not the number of entries sent. */
  lemma TotalIsDistinctKeys(payload: seq<NewItem>)
    requires Create(payload).Ok?
    ensures Create(payload).value.total == |StoredKeys(payload)|
    ensures 1 <= Create(payload).value.total <= |payload|
  {
    PrefixKept(payload, |payload|);
    assert Rows(payload).Keys == KeptBelow(payload, |payload|);
    assert StoredKeys(payload) == KeysBelow(payload, |payload|);
    assert 0 in KeptBelow(payload, |payload|);
    CardUpTo(KeptBelow(payload, |payload|), |payload|);
  }

  lemma ParentsOfRows(payload: seq<NewItem>)
    ensures forall i :: i in Parents(Rows(payload)) <==> Kept(payload, i)
    ensures forall i :: Kept(payload, i) ==> Parents(Rows(payload))[i] == After(payload[i])
  {
  }

  /** Each stored entry that waits, waits for an earlier stored entry. */
  ghost predicate WaitsForEarlier(payload: seq<NewItem>)
  {
    forall i :: Kept(payload, i) && payload[i].after.Whole? ==>
      payload[i].after.seqNo < i && Kept(payload, payload[i].after.seqNo)
  }

  lemma WellFormedFrom(payload: seq<NewItem>, parents: map<int, Option<int>>)
    requires forall i :: i in parents <==> Kept(payload, i)
    requires forall i :: Kept(payload, i) ==> parents[i] == After(payload[i])
    ensures WaitsForEarlier(payload) ==> JobGraph.WellFormed(parents)
  {
  }

  lemma WellFormedOnlyFrom(payload: seq<NewItem>, parents: map<int, Option<int>>)
    requires forall i :: i in parents <==> Kept(payload, i)
    requires forall i :: Kept(payload, i) ==> parents[i] == After(payload[i])
    ensures JobGraph.WellFormed(parents) ==> WaitsForEarlier(payload)
  {
    if JobGraph.WellFormed(parents) {
      forall i | Kept(payload, i) && payload[i].after.Whole?
        ensures payload[i].after.seqNo < i && Kept(payload, payload[i].after.seqNo)
      {
        assert parents[i] == Some(payload[i].after.seqNo);
      }
    }
  }

  /** A created batch's dependency graph is well formed exactly when each waiting entry waits for an earlier stored entry. */
  lemma WellFormedIff(payload: seq<NewItem>)
    requires Create(payload).Ok?
    ensures JobGraph.WellFormed(Parents(Create(payload).value.items)) <==> WaitsForEarlier(payload)
  {
    ParentsOfRows(payload);
    WellFormedFrom(payload, Parents(Rows(payload)));
    WellFormedOnlyFrom(payload, Parents(Rows(payload)));
  }

  /** The state every run starts from. */
  ghost predicate IsCreated(b: Batch)
  {
    && b.status == Pending
    && b.total == |b.items|
    && b.doneCount == b.failedCount == b.skippedCount == 0
    && (forall s :: s in b.items ==>
          && 0 <= s
          && b.items[s].status == Queued
          && b.items[s].attempts == 0
          && b.items[s].claimedBy == None
          && b.items[s].expires == None)
  }

  lemma CreateStarts(payload: seq<NewItem>)
    ensures Create(payload).Ok? ==> IsCreated(Create(payload).value)
    ensures Create(payload).Ok? <==>
            && 1 <= |payload| <= 500
            && (forall i :: 0 <= i < |payload| ==>
                  && Text.Trim(payload[i].toolName) != "" && payload[i].argsIsObject && Text.Trim(payload[i].key) != ""
                  && !payload[i].labelField.NotText? && !payload[i].refField.NotText?
                  && (payload[i].after.Absent? || (payload[i].after.Whole? && -2147483648 <= payload[i].after.seqNo <= 2147483647)))
  {
  }
}
