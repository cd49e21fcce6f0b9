/** The progress snapshot the relay SDK hands to `onProgress`, and the
    flatten-and-filter pipeline that extracts its transaction hashes. */
module Progress {
  import opened Wrappers

  /** A transaction-hash record; `txHash` is `None` when the field is missing. */
  datatype TxRecord = TxRecord(txHash: Option<string>)

  /** An item of a step. `txHashes` may be missing, and each record in it may be null (`None`). */
  datatype Item = Item(txHashes: Option<seq<Option<TxRecord>>>)

  /** A step of the bridge operation; `items` may be missing. */
  datatype Step = Step(items: Option<seq<Item>>)

  /** One progress snapshot; `steps` may be missing. */
  datatype Snapshot = Snapshot(steps: Option<seq<Step>>)

  // The pipeline stages, in the order the callback applies them.

  /** `steps.flatMap((step) => step.items || [])` */
  function ItemsOf(steps: seq<Step>): seq<Item>
  {
    if steps == [] then [] else OrEmpty(steps[0].items) + ItemsOf(steps[1..])
  }

  /** `items.flatMap((item) => item.txHashes || [])` */
  function RecordsOf(items: seq<Item>): seq<Option<TxRecord>>
  {
    if items == [] then [] else OrEmpty(items[0].txHashes) + RecordsOf(items[1..])
  }

  /** `records.map((tx) => tx?.txHash)` */
  function HashFields(records: seq<Option<TxRecord>>): seq<Option<string>>
  {
    if records == [] then []
    else [if records[0].Some? then records[0].value.txHash else None] + HashFields(records[1..])
  }

  /** `fields.filter((txHash) => txHash)`: a missing hash and the empty string are falsy. */
  function Truthy(fields: seq<Option<string>>): (hashes: seq<string>)
    ensures forall h :: h in hashes ==> h != ""
  {
    if fields == [] then []
    else if fields[0].Some? && fields[0].value != "" then [fields[0].value] + Truthy(fields[1..])
    else Truthy(fields[1..])
  }

  /** `txHashes` of the callback: `undefined` (`None`) when `steps` is missing,
      otherwise the truthy hashes in flattening order. */
  function TxHashes(p: Snapshot): (r: Option<seq<string>>)
    ensures r.None? <==> p.steps.None?
    ensures r.Some? ==> forall h :: h in r.value ==> h != ""
  {
    match p.steps
    case None => None
    case Some(steps) => Some(Truthy(HashFields(RecordsOf(ItemsOf(steps)))))
  }

  /** `txHashes && txHashes.length > 0` */
  predicate HasHash(p: Snapshot)
  {
    TxHashes(p).Some? && |TxHashes(p).value| > 0
  }

  /** `txHashes[0]`, the hash a SUCCESS line links to. */
  function FirstHash(p: Snapshot): (h: string)
    requires HasHash(p)
    ensures h != ""
  {
    var hashes := TxHashes(p).value;
    assert hashes[0] in hashes;
    hashes[0]
  }

  // An independent, structural definition of the same hash list: the hashes
  // of each step in step order, each step's being those of its items in item
  // order, each item's those of its records in record order.

  /** The hash a single record contributes: none for a null record, a missing hash or "". */
  function RecordHash(r: Option<TxRecord>): seq<string>
  {
    match r
    case Some(TxRecord(Some(h))) => if h != "" then [h] else []
    case _ => []
  }

  function RecordHashes(records: seq<Option<TxRecord>>): seq<string>
  {
    if records == [] then [] else RecordHash(records[0]) + RecordHashes(records[1..])
  }

  function ItemHashes(item: Item): seq<string>
  {
    RecordHashes(OrEmpty(item.txHashes))
  }

  function ItemListHashes(items: seq<Item>): seq<string>
  {
    if items == [] then [] else ItemHashes(items[0]) + ItemListHashes(items[1..])
  }

  function StepHashes(step: Step): seq<string>
  {
    ItemListHashes(OrEmpty(step.items))
  }

  function StepListHashes(steps: seq<Step>): seq<string>
  {
    if steps == [] then [] else StepHashes(steps[0]) + StepListHashes(steps[1..])
  }

  lemma {:induction false} MapFilterIsRecordHashes(records: seq<Option<TxRecord>>)
    ensures Truthy(HashFields(records)) == RecordHashes(records)
  {
    if records != [] {
      var fields := HashFields(records);
      MapFilterIsRecordHashes(records[1..]);
      assert fields[1..] == HashFields(records[1..]);
      assert Truthy(fields) == RecordHash(records[0]) + Truthy(fields[1..]);
    }
  }

  lemma {:induction false} RecordHashesAppend(a: seq<Option<TxRecord>>, b: seq<Option<TxRecord>>)
    ensures RecordHashes(a + b) == RecordHashes(a) + RecordHashes(b)
  {
    if a != [] {
      RecordHashesAppend(a[1..], b);
      assert (a + b)[1..] == a[1..] + b;
    } else {
      assert a + b == b;
    }
  }

  lemma {:induction false} RecordsOfIsItemListHashes(items: seq<Item>)
    ensures RecordHashes(RecordsOf(items)) == ItemListHashes(items)
  {
    if items != [] {
      RecordsOfIsItemListHashes(items[1..]);
      RecordHashesAppend(OrEmpty(items[0].txHashes), RecordsOf(items[1..]));
    }
  }

  lemma {:induction false} ItemListHashesAppend(a: seq<Item>, b: seq<Item>)
    ensures ItemListHashes(a + b) == ItemListHashes(a) + ItemListHashes(b)
  {
    if a != [] {
      ItemListHashesAppend(a[1..], b);
      assert (a + b)[1..] == a[1..] + b;
    } else {
      assert a + b == b;
    }
  }

  lemma {:induction false} ItemsOfIsStepListHashes(steps: seq<Step>)
    ensures ItemListHashes(ItemsOf(steps)) == StepListHashes(steps)
  {
    if steps != [] {
      ItemsOfIsStepListHashes(steps[1..]);
      ItemListHashesAppend(OrEmpty(steps[0].items), ItemsOf(steps[1..]));
    }
  }

  /** The flattened list is the concatenation, in step, item and record
      order, of the truthy hashes; a missing `steps` gives no list at all. */
  lemma FlattenOrder(p: Snapshot)
    ensures p.steps.None? ==> TxHashes(p) == None
    ensures p.steps.Some? ==> TxHashes(p) == Some(StepListHashes(p.steps.value))
  {
    if p.steps.Some? {
      var steps := p.steps.value;
      MapFilterIsRecordHashes(RecordsOf(ItemsOf(steps)));
      RecordsOfIsItemListHashes(ItemsOf(steps));
      ItemsOfIsStepListHashes(steps);
    }
  }

  /** `steps[j]` is the first step that carries a hash. */
  predicate FirstHashedStep(steps: seq<Step>, j: int)
  {
    0 <= j < |steps| && StepHashes(steps[j]) != [] &&
    forall i :: 0 <= i < j ==> StepHashes(steps[i]) == []
  }

  lemma {:induction false} NoHashedStep(steps: seq<Step>)
    requires forall i :: 0 <= i < |steps| ==> StepHashes(steps[i]) == []
    ensures StepListHashes(steps) == []
  {
    if steps != [] {
      assert StepHashes(steps[0]) == [];
      forall i | 0 <= i < |steps| - 1 ensures StepHashes(steps[1..][i]) == [] {
        assert steps[1..][i] == steps[i + 1];
      }
      NoHashedStep(steps[1..]);
    }
  }

  lemma {:induction false} HashedStep(steps: seq<Step>, i: int)
    requires 0 <= i < |steps| && StepHashes(steps[i]) != []
    ensures StepListHashes(steps) != []
  {
    var head, rest := StepHashes(steps[0]), StepListHashes(steps[1..]);
    assert StepListHashes(steps) == head + rest;
    if i > 0 && head == [] {
      assert steps[1..][i - 1] == steps[i];
      HashedStep(steps[1..], i - 1);
    }
  }

  lemma {:induction false} FirstHashedStepLeads(steps: seq<Step>, j: int)
    requires FirstHashedStep(steps, j)
    ensures StepListHashes(steps) != [] && StepListHashes(steps)[0] == StepHashes(steps[j])[0]
  {
    if j > 0 {
      assert StepHashes(steps[0]) == [];
      assert steps[1..][j - 1] == steps[j];
      forall i | 0 <= i < j - 1 ensures StepHashes(steps[1..][i]) == [] {
        assert steps[1..][i] == steps[i + 1];
      }
      FirstHashedStepLeads(steps[1..], j - 1);
    }
  }

  /** A snapshot passes the callback's non-empty test exactly when one of
      its steps carries a truthy hash, and then `txHashes[0]` is the first
      hash of the first such step. */
  lemma SnapshotFirstHash(p: Snapshot)
    ensures HasHash(p) <==> p.steps.Some? && exists i :: 0 <= i < |p.steps.value| && StepHashes(p.steps.value[i]) != []
    ensures forall j :: p.steps.Some? && FirstHashedStep(p.steps.value, j) ==>
              HasHash(p) && FirstHash(p) == StepHashes(p.steps.value[j])[0]
  {
    FlattenOrder(p);
    if p.steps.Some? {
      var steps := p.steps.value;
      if exists i :: 0 <= i < |steps| && StepHashes(steps[i]) != [] {
        var i :| 0 <= i < |steps| && StepHashes(steps[i]) != [];
        HashedStep(steps, i);
      } else {
        NoHashedStep(steps);
      }
      forall j | FirstHashedStep(steps, j)
        ensures HasHash(p) && FirstHash(p) == StepHashes(steps[j])[0]
      {
        FirstHashedStepLeads(steps, j);
      }
    }
  }
}
