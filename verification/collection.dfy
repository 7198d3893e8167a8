/**
 * tips.rs: the collection of tips as loaded from and stored to the database,
 * lookup by id, the next free id and appending.
 */
module Collection {
  import opened Wrappers
  import opened Faults
  import opened Text
  import opened Meta
  import opened TipRecord
  import opened Storage

  /**
   * What a scan of the collection looks for, judged on a tip's unwrapped id:
   * the id itself (`get_tip_index`) or its decimal text (`confirm_removal`).
   */
  datatype Key = ById(id: nat) | ByText(text: string)

  predicate KeyMatches(key: Key, n: nat) {
    match key
    case ById(id) => n == id
    case ByText(text) => Decimal(n) == text
  }

  /** The scan went past this tip: it has an id, and the id does not match. */
  predicate PassedOver(tip: Tip, key: Key) {
    tip.metadata.id.Some? && !KeyMatches(key, tip.metadata.id.value)
  }

  /**
   * The enumerate loop with early return that `get_tip_index` and
   * `confirm_removal` share, from index `i` on: every id is unwrapped, so a tip
   * without an id met before a match panics.
   */
  function ScanFrom(tips: seq<Tip>, key: Key, i: nat): (r: Result<Option<nat>, Fault>)
    requires i <= |tips|
    ensures r.Success? && r.value.Some? ==>
              var k := r.value.value;
              i <= k < |tips| && tips[k].metadata.id.Some? && KeyMatches(key, tips[k].metadata.id.value)
              && forall j :: i <= j < k ==> PassedOver(tips[j], key)
    ensures r.Success? && r.value.None? ==> forall j :: i <= j < |tips| ==> PassedOver(tips[j], key)
    ensures r.Failure? ==> r.error == IdMissing
    ensures r.Failure? ==> exists k :: i <= k < |tips| && tips[k].metadata.id.None? && ScanPassed(tips, key, i, k)
    decreases |tips| - i
  {
    if i == |tips| then Success(None)
    else if tips[i].metadata.id.None? then
      assert ScanPassed(tips, key, i, i);
      Failure(IdMissing)
    else if KeyMatches(key, tips[i].metadata.id.value) then Success(Some(i))
    else
      var r := ScanFrom(tips, key, i + 1);
      assert r.Failure? ==> exists k :: i <= k < |tips| && tips[k].metadata.id.None? && ScanPassed(tips, key, i, k) by {
        if r.Failure? {
          var k :| i + 1 <= k < |tips| && tips[k].metadata.id.None? && ScanPassed(tips, key, i + 1, k);
          assert ScanPassed(tips, key, i, k);
        }
      }
      r
  }

  /** Every tip from `i` up to `k` (excluded) was passed over. */
  ghost predicate ScanPassed(tips: seq<Tip>, key: Key, i: int, k: int)
    requires 0 <= i <= k <= |tips|
  {
    forall j :: i <= j < k ==> PassedOver(tips[j], key)
  }

  /** The in-memory collection (`Tips`), as loaded from the database. */
  class Tips {
    var tips: seq<Tip>

    constructor (tips: seq<Tip>)
      ensures this.tips == tips
    {
      this.tips := tips;
    }

    /**
     * `get_tip_index`: the index of the first tip with the id, `None` when no
     * tip has it; an id-less tip met first panics.
     */
    method GetTipIndex(id: nat) returns (r: Result<Option<nat>, Fault>)
      ensures r == ScanFrom(tips, ById(id), 0)
    {
      var index := 0;
      while index < |tips|
        invariant 0 <= index <= |tips|
        invariant ScanFrom(tips, ById(id), 0) == ScanFrom(tips, ById(id), index)
      {
        var tip := tips[index];
        if tip.metadata.id.None? {
          return Failure(IdMissing);
        }
        if tip.metadata.id.value == id {
          return Success(Some(index));
        }
        index := index + 1;
      }
      return Success(None);
    }

    /** `Vec::push`. */
    method Push(tip: Tip)
      modifies this
      ensures tips == old(tips) + [tip]
    {
      tips := tips + [tip];
    }

    /** `Vec::remove`: the later tips move down by one, keeping their order. */
    method RemoveAt(index: nat)
      requires index < |tips|
      modifies this
      ensures tips == old(tips)[..index] + old(tips)[index + 1..]
    {
      tips := tips[..index] + tips[index + 1..];
    }

    /** `store`: the database file is replaced by the whole collection. */
    method Store(disk: Disk)
      modifies disk
      ensures disk.db == tips && disk.files == old(disk.files)
    {
      disk.db := tips;
    }
  }

  /** `load`: a fresh in-memory copy of the database. */
  method Load(disk: Disk) returns (t: Tips)
    ensures fresh(t) && t.tips == disk.db
  {
    t := new Tips(disk.db);
  }

  /**
   * `next_id`: one more than the id of the LAST tip, whatever the other ids
   * are; it panics on an empty collection and on a last tip without an id.
   */
  function NextId(tips: seq<Tip>): (r: Result<nat, Fault>)
    ensures r.Failure? <==> tips == [] || tips[|tips| - 1].metadata.id.None?
    ensures r.Failure? ==> r.error == (if tips == [] then EmptyCollection else IdMissing)
    ensures r.Success? ==> r.value == tips[|tips| - 1].metadata.id.value + 1
  {
    if tips == [] then Failure(EmptyCollection)
    else match tips[|tips| - 1].metadata.id
      case None => Failure(IdMissing)
      case Some(n) => Success(n + 1)
  }

  /** `add`: load the database, push the tip, store the database. */
  method Add(disk: Disk, tip: Tip)
    modifies disk
    ensures disk.db == old(disk.db) + [tip] && disk.files == old(disk.files)
  {
    var tips := Load(disk);
    tips.Push(tip);
    tips.Store(disk);
  }

  // ---------------------------------------------------------------- the id invariant

  /** Every tip has an id, and ids strictly increase in collection order. */
  ghost predicate IdsIncreasing(tips: seq<Tip>) {
    && (forall i :: 0 <= i < |tips| ==> tips[i].metadata.id.Some?)
    && (forall i, j :: 0 <= i < j < |tips| ==> tips[i].metadata.id.value < tips[j].metadata.id.value)
  }

  /** No two tips share an id. */
  ghost predicate IdsUnique(tips: seq<Tip>) {
    forall i, j :: 0 <= i < |tips| && 0 <= j < |tips| && i != j ==> tips[i].metadata.id != tips[j].metadata.id
  }

  lemma IncreasingIdsAreUnique(tips: seq<Tip>)
    requires IdsIncreasing(tips)
    ensures IdsUnique(tips)
  {
  }

  /** Under the invariant, the last id is the largest, so `next_id` is above every id. */
  lemma NextIdAboveAll(tips: seq<Tip>)
    requires IdsIncreasing(tips) && tips != []
    ensures NextId(tips).Success?
    ensures forall i :: 0 <= i < |tips| ==> tips[i].metadata.id.value < NextId(tips).value
  {
  }

  /** Appending a tip that carries `next_id` keeps the ids strictly increasing, hence unique. */
  lemma AppendNextIdKeepsIncreasing(tips: seq<Tip>, tip: Tip)
    requires IdsIncreasing(tips) && NextId(tips).Success?
    requires tip.metadata.id == Some(NextId(tips).value)
    ensures IdsIncreasing(tips + [tip]) && IdsUnique(tips + [tip])
  {
    NextIdAboveAll(tips);
    IncreasingIdsAreUnique(tips + [tip]);
  }

  /** Removing one tip keeps the ids strictly increasing: there is no renumbering. */
  lemma RemoveKeepsIncreasing(tips: seq<Tip>, index: nat)
    requires IdsIncreasing(tips) && index < |tips|
    ensures IdsIncreasing(tips[..index] + tips[index + 1..])
  {
    var rest := tips[..index] + tips[index + 1..];
    forall i | 0 <= i < |rest|
      ensures rest[i] == tips[if i < index then i else i + 1]
    {
    }
  }

  /**
   * Without the invariant `next_id` can hand out an id that is in use: ids 3
   * then 2 give 3 again.
   */
  lemma NextIdMayDuplicate(a: Tip, b: Tip)
    requires a.metadata.id == Some(3) && b.metadata.id == Some(2)
    ensures NextId([a, b]) == Success(3) && NextId([a, b]).value == a.metadata.id.value
  {
  }

  /** Under the invariant, the index found for an id is the only tip with that id. */
  lemma IndexIsTheOnlyMatch(tips: seq<Tip>, id: nat)
    requires IdsIncreasing(tips)
    ensures ScanFrom(tips, ById(id), 0).Success?
    ensures ScanFrom(tips, ById(id), 0).value.Some? <==> exists i :: 0 <= i < |tips| && tips[i].metadata.id == Some(id)
    ensures ScanFrom(tips, ById(id), 0).value.Some? ==>
              forall i :: 0 <= i < |tips| && tips[i].metadata.id == Some(id) ==> i == ScanFrom(tips, ById(id), 0).value.value
  {
  }
}
