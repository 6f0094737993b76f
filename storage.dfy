/**
 * The on-device test-record store: one persisted slot, under the key
 * `@mars2_tests`, holding the whole ordered collection of test records.
 * Every operation reads the whole collection, transforms it in memory and
 * writes the whole collection back. Reads fail open (to the empty
 * collection); writes that fail are rethrown and leave the slot as it was.
 */
module Storage {
  import opened Wrappers

  const StorageKey := "@mars2_tests"

  datatype SubjectDetails = SubjectDetails(id: string, caseNumber: string)

  datatype TestInfo = TestInfo(
    lotNumber: string,
    testType: string,
    sampleType: string,
    expirationDate: string,
    notes: Option<string>)

  datatype Substance = Substance(name: string, result: string, confidence: int)

  datatype Results = Results(status: string, detectedSubstances: seq<Substance>, overallConfidence: int)

  datatype Images = Images(subjectPhoto: string, idPhoto: string, testStripPhoto: string)

  datatype SyncStatus = SyncStatus(savedLocally: bool, transmitted: bool)

  /** One completed drug test (`TestData`). */
  datatype TestData = TestData(
    testId: string,
    timestamp: string,
    subjectDetails: SubjectDetails,
    testInfo: TestInfo,
    results: Results,
    images: Images,
    syncStatus: SyncStatus)

  /**
   * What the persisted slot holds: nothing (the key was never written or was
   * removed), a collection that parses, or a blob that does not parse.
   */
  datatype Slot = Absent | Holds(tests: seq<TestData>) | Unreadable

  /** How the device's key-value layer behaves during one call: whether its read and its write reject. */
  datatype Env = Env(readFails: bool, writeFails: bool)

  /** How the promise returned by a write operation settles. */
  datatype Completion = Resolved | Rejected

  // ---------------------------------------------------------------------------
  // The collection transforms

  /** `getTests`: the stored collection, or [] when the key is absent, unparsable or the read fails. */
  function LoadTests(slot: Slot, env: Env): (xs: seq<TestData>)
    ensures xs != [] ==> !env.readFails && slot.Holds? && xs == slot.tests
    ensures !env.readFails && slot.Holds? ==> xs == slot.tests
  {
    if env.readFails then []
    else match slot
      case Holds(tests) => tests
      case _ => []
  }

  /** `tests.find(t => t.testId === id) || null`: the first record carrying `id`. */
  function FindById(xs: seq<TestData>, id: string): (r: Option<TestData>)
    ensures r.None? <==> forall i :: 0 <= i < |xs| ==> xs[i].testId != id
    ensures r.Some? ==> exists k :: 0 <= k < |xs| && xs[k] == r.value && xs[k].testId == id
                                    && forall j :: 0 <= j < k ==> xs[j].testId != id
  {
    if xs == [] then None
    else if xs[0].testId == id then Some(xs[0])
    else
      var r := FindById(xs[1..], id);
      assert r.Some? ==> exists k :: 0 <= k < |xs[1..]| && xs[1..][k] == r.value && xs[1..][k].testId == id
                                     && forall j :: 0 <= j < k ==> xs[1..][j].testId != id;
      assert r.Some? ==> exists k :: 0 <= k < |xs| && xs[k] == r.value && xs[k].testId == id
                                     && forall j :: 0 <= j < k ==> xs[j].testId != id by {
        if r.Some? {
          var k :| 0 <= k < |xs[1..]| && xs[1..][k] == r.value && xs[1..][k].testId == id
                   && forall j :: 0 <= j < k ==> xs[1..][j].testId != id;
          assert xs[k + 1] == r.value;
          assert forall j :: 0 <= j < k + 1 ==> xs[j].testId != id by {
            forall j | 0 <= j < k + 1 ensures xs[j].testId != id {
              if j > 0 { assert xs[j] == xs[1..][j - 1]; }
            }
          }
        }
      }
      r
  }

  /** The number of records carrying `id`. */
  function Occurrences(xs: seq<TestData>, id: string): (n: nat)
    ensures n <= |xs|
    ensures n == 0 <==> forall i :: 0 <= i < |xs| ==> xs[i].testId != id
  {
    if xs == [] then 0
    else (if xs[0].testId == id then 1 else 0) + Occurrences(xs[1..], id)
  }

  /** `tests.map(t => t.testId === id ? { ...t, syncStatus } : t)`. */
  function WithSyncStatus(xs: seq<TestData>, id: string, s: SyncStatus): (r: seq<TestData>)
    ensures |r| == |xs|
    ensures forall i :: 0 <= i < |xs| && xs[i].testId == id ==> r[i] == xs[i].(syncStatus := s)
    ensures forall i :: 0 <= i < |xs| && xs[i].testId != id ==> r[i] == xs[i]
  {
    if xs == [] then []
    else [if xs[0].testId == id then xs[0].(syncStatus := s) else xs[0]] + WithSyncStatus(xs[1..], id, s)
  }

  /** `tests.filter(t => t.testId !== id)`. */
  function WithoutId(xs: seq<TestData>, id: string): (r: seq<TestData>)
    ensures |r| == |xs| - Occurrences(xs, id)
    ensures forall i :: 0 <= i < |r| ==> r[i].testId != id
  {
    if xs == [] then []
    else if xs[0].testId == id then WithoutId(xs[1..], id)
    else [xs[0]] + WithoutId(xs[1..], id)
  }

  // ---------------------------------------------------------------------------
  // The slot, before and after each operation

  /** `AsyncStorage.setItem`: the slot now holds `xs`, unless the write rejects. */
  function Written(slot: Slot, xs: seq<TestData>, env: Env): (s': Slot)
    ensures env.writeFails ==> s' == slot
    ensures !env.writeFails ==> s'.Holds? && s'.tests == xs
  {
    if env.writeFails then slot else Holds(xs)
  }

  /** The store's state-changing operations. */
  datatype Call =
    | Save(record: TestData)
    | UpdateSyncStatus(id: string, status: SyncStatus)
    | Delete(id: string)
    | ClearAll

  /** The slot after one operation, each a read through `getTests`, a transform and one write. */
  function After(slot: Slot, call: Call, env: Env): (s': Slot)
    ensures env.writeFails ==> s' == slot
    ensures !env.writeFails ==> (s'.Absent? <==> call.ClearAll?)
    ensures !env.writeFails ==> !s'.Unreadable?
  {
    match call
    case Save(r) => Written(slot, LoadTests(slot, env) + [r], env)
    case UpdateSyncStatus(id, s) => Written(slot, WithSyncStatus(LoadTests(slot, env), id, s), env)
    case Delete(id) => Written(slot, WithoutId(LoadTests(slot, env), id), env)
    case ClearAll => if env.writeFails then slot else Absent
  }

  /** One operation together with how the device behaved during it. */
  datatype Event = Event(call: Call, env: Env)

  /** The slot after a sequence of operations, run one after another. */
  function Replay(slot: Slot, events: seq<Event>): Slot
    decreases |events|
  {
    if events == [] then slot
    else Replay(After(slot, events[0].call, events[0].env), events[1..])
  }

  /** The records of the saves in `events` whose write succeeded, in call order. */
  function SavedRecords(events: seq<Event>): seq<TestData>
    decreases |events|
  {
    if events == [] then []
    else
      (if events[0].call.Save? && !events[0].env.writeFails then [events[0].call.record] else [])
      + SavedRecords(events[1..])
  }

  /** Every event is a save whose read succeeded. */
  predicate SavesWithHealthyReads(events: seq<Event>) {
    forall i :: 0 <= i < |events| ==> events[i].call.Save? && !events[i].env.readFails
  }

  // ---------------------------------------------------------------------------
  // The persisted slot and the operations of `storage.ts`

  class TestStore {
    /** The blob stored under `StorageKey`. */
    var slot: Slot

    constructor(persisted: Slot)
      ensures slot == persisted
    {
      slot := persisted;
    }

    /** `getTests`: never rejects. */
    method GetTests(env: Env) returns (xs: seq<TestData>)
      ensures xs == LoadTests(slot, env)
      ensures slot.Holds? && !env.readFails ==> xs == slot.tests
      ensures !slot.Holds? || env.readFails ==> xs == []
    {
      if env.readFails {
        xs := [];
      } else {
        match slot
        case Holds(tests) => xs := tests;
        case Absent => xs := [];
        case Unreadable => xs := [];
      }
    }

    /** `saveTest`: appends `r` to what `getTests` returns and writes the result. */
    method SaveTest(r: TestData, env: Env) returns (c: Completion)
      modifies this
      ensures slot == After(old(slot), Save(r), env)
      ensures c == Rejected <==> env.writeFails
      ensures env.writeFails ==> slot == old(slot)
      ensures !env.writeFails ==> slot == Holds(LoadTests(old(slot), env) + [r])
    {
      var existing := GetTests(env);
      var updated := existing + [r];
      if env.writeFails {
        c := Rejected;
      } else {
        slot := Holds(updated);
        c := Resolved;
      }
    }

    /** `getTestById`: the first stored record carrying `id`, or null. */
    method GetTestById(id: string, env: Env) returns (r: Option<TestData>)
      ensures r == FindById(LoadTests(slot, env), id)
      ensures r.Some? ==> r.value.testId == id && r.value in LoadTests(slot, env)
    {
      var tests := GetTests(env);
      r := FindById(tests, id);
    }

    /** `updateTestSyncStatus`: replaces the sync status of every record carrying `id`, and writes back even when none does. */
    method UpdateTestSyncStatus(id: string, s: SyncStatus, env: Env) returns (c: Completion)
      modifies this
      ensures slot == After(old(slot), UpdateSyncStatus(id, s), env)
      ensures c == Rejected <==> env.writeFails
      ensures env.writeFails ==> slot == old(slot)
      ensures !env.writeFails ==> slot == Holds(WithSyncStatus(LoadTests(old(slot), env), id, s))
    {
      var tests := GetTests(env);
      var updated := WithSyncStatus(tests, id, s);
      if env.writeFails {
        c := Rejected;
      } else {
        slot := Holds(updated);
        c := Resolved;
      }
    }

    /** `deleteTest`: keeps the records not carrying `id`. */
    method DeleteTest(id: string, env: Env) returns (c: Completion)
      modifies this
      ensures slot == After(old(slot), Delete(id), env)
      ensures c == Rejected <==> env.writeFails
      ensures env.writeFails ==> slot == old(slot)
      ensures !env.writeFails ==> slot == Holds(WithoutId(LoadTests(old(slot), env), id))
    {
      var tests := GetTests(env);
      var updated := WithoutId(tests, id);
      if env.writeFails {
        c := Rejected;
      } else {
        slot := Holds(updated);
        c := Resolved;
      }
    }

    /** `clearAllTests`: removes the key. */
    method ClearAllTests(env: Env) returns (c: Completion)
      modifies this
      ensures slot == After(old(slot), ClearAll, env)
      ensures c == Rejected <==> env.writeFails
      ensures env.writeFails ==> slot == old(slot)
      ensures !env.writeFails ==> slot == Absent
    {
      if env.writeFails {
        c := Rejected;
      } else {
        slot := Absent;
        c := Resolved;
      }
    }
  }

  // ---------------------------------------------------------------------------
  // Properties of the store

  /** Saving onto a readable collection keeps the old records in order and puts `r` last. */
  lemma SaveAppends(slot: Slot, r: TestData, env: Env)
    requires slot.Holds? && !env.readFails && !env.writeFails
    ensures var after := LoadTests(After(slot, Save(r), env), env);
      && |after| == |slot.tests| + 1
      && after[..|slot.tests|] == slot.tests
      && after[|slot.tests|] == r
  {
  }

  /**
   * Because `getTests` fails open, saving over a blob that does not parse, or
   * while the read rejects, replaces every stored record by the new one.
   */
  lemma SaveOverUnreadableKeepsOnlyNewRecord(slot: Slot, r: TestData, env: Env)
    requires slot.Unreadable? || env.readFails
    requires !env.writeFails
    ensures After(slot, Save(r), env) == Holds([r])
  {
  }

  /**
   * Like the save, an update or a delete over a blob that does not parse, or
   * while the read rejects, writes back the empty collection: the blob is erased.
   */
  lemma RewriteOverUnreadableErases(slot: Slot, call: Call, env: Env)
    requires call.UpdateSyncStatus? || call.Delete?
    requires slot.Unreadable? || env.readFails
    requires !env.writeFails
    ensures After(slot, call, env) == Holds([])
  {
  }

  /** After a successful `clearAllTests`, `getTests` returns []. */
  lemma ClearThenEmpty(slot: Slot, env: Env, readEnv: Env)
    requires !env.writeFails
    ensures LoadTests(After(slot, ClearAll, env), readEnv) == []
  {
  }

  /** `findById` ignores what follows its first match. */
  lemma {:induction false} FindByIdPrefix(xs: seq<TestData>, ys: seq<TestData>, id: string)
    requires FindById(xs, id).Some?
    ensures FindById(xs + ys, id) == FindById(xs, id)
  {
    if xs[0].testId != id {
      assert (xs + ys)[1..] == xs[1..] + ys;
      FindByIdPrefix(xs[1..], ys, id);
    }
  }

  /** `findById` skips a prefix without matches. */
  lemma {:induction false} FindByIdSkips(xs: seq<TestData>, ys: seq<TestData>, id: string)
    requires FindById(xs, id).None?
    ensures FindById(xs + ys, id) == FindById(ys, id)
  {
    if xs == [] {
      assert xs + ys == ys;
    } else {
      assert xs[0].testId != id;
      assert (xs + ys)[1..] == xs[1..] + ys;
      FindByIdSkips(xs[1..], ys, id);
    }
  }

  /** A saved record is found by its id when no earlier record carries that id. */
  lemma SaveThenFind(xs: seq<TestData>, r: TestData)
    requires FindById(xs, r.testId).None?
    ensures FindById(xs + [r], r.testId) == Some(r)
  {
    FindByIdSkips(xs, [r], r.testId);
  }

  /** Test ids are not unique: saving a second record with an id already stored does not change what `getTestById` returns. */
  lemma DuplicateIdShadowed(xs: seq<TestData>, r: TestData)
    requires FindById(xs, r.testId).Some?
    ensures FindById(xs + [r], r.testId) == FindById(xs, r.testId)
  {
    FindByIdPrefix(xs, [r], r.testId);
  }

  /** After the sync-status update, the record found by `id` is the one found before, with only its sync status replaced. */
  lemma {:induction false} UpdateThenFind(xs: seq<TestData>, id: string, s: SyncStatus)
    ensures FindById(WithSyncStatus(xs, id, s), id) ==
      match FindById(xs, id)
      case Some(t) => Some(t.(syncStatus := s))
      case None => None
  {
    if xs != [] && xs[0].testId != id {
      var r := WithSyncStatus(xs, id, s);
      assert r[1..] == WithSyncStatus(xs[1..], id, s);
      UpdateThenFind(xs[1..], id, s);
    }
  }

  /** When no record carries `id`, the update writes back the collection it read. */
  lemma UpdateWithoutMatchIsIdentity(xs: seq<TestData>, id: string, s: SyncStatus)
    requires Occurrences(xs, id) == 0
    ensures WithSyncStatus(xs, id, s) == xs
  {
  }

  /** Only the sync status of a record can change in an update: ids and every other field stay. */
  lemma UpdateChangesOnlySyncStatus(xs: seq<TestData>, id: string, s: SyncStatus, i: nat)
    requires i < |xs|
    ensures var r := WithSyncStatus(xs, id, s)[i];
      r.(syncStatus := xs[i].syncStatus) == xs[i]
  {
  }

  /** After a delete, `getTestById` finds nothing for that id. */
  lemma DeleteThenNotFound(xs: seq<TestData>, id: string)
    ensures FindById(WithoutId(xs, id), id).None?
  {
  }

  /** One step of the filter: the head is kept exactly when it does not carry `id`. */
  lemma {:induction false} WithoutIdCons(x: TestData, xs: seq<TestData>, id: string)
    ensures WithoutId([x] + xs, id) == (if x.testId == id then [] else [x]) + WithoutId(xs, id)
  {
    assert ([x] + xs)[1..] == xs;
  }

  /** The filter keeps the original order: it distributes over concatenation. */
  lemma {:induction false} WithoutIdDistributes(xs: seq<TestData>, ys: seq<TestData>, id: string)
    ensures WithoutId(xs + ys, id) == WithoutId(xs, id) + WithoutId(ys, id)
  {
    if xs == [] {
      assert xs + ys == ys;
    } else {
      var rest := xs[1..];
      assert xs == [xs[0]] + rest;
      WithoutIdDistributes(rest, ys, id);
      WithoutIdConcatStep(xs[0], rest, ys, id);
    }
  }

  /** The inductive step of `WithoutIdDistributes`, for a collection with head `x`. */
  lemma {:induction false} WithoutIdConcatStep(x: TestData, rest: seq<TestData>, ys: seq<TestData>, id: string)
    requires WithoutId(rest + ys, id) == WithoutId(rest, id) + WithoutId(ys, id)
    ensures WithoutId([x] + rest + ys, id) == WithoutId([x] + rest, id) + WithoutId(ys, id)
  {
    assert [x] + rest + ys == [x] + (rest + ys);
    WithoutIdCons(x, rest + ys, id);
    WithoutIdCons(x, rest, id);
    if x.testId != id {
      assert [x] + (WithoutId(rest, id) + WithoutId(ys, id)) == ([x] + WithoutId(rest, id)) + WithoutId(ys, id);
    }
  }

  /** The filter keeps every record not carrying `id`, as often as it occurs, and no other. */
  lemma {:induction false} WithoutIdKeepsExactly(xs: seq<TestData>, id: string, t: TestData)
    ensures multiset(WithoutId(xs, id))[t] == if t.testId == id then 0 else multiset(xs)[t]
  {
    if xs != [] {
      WithoutIdKeepsExactly(xs[1..], id, t);
      assert xs == [xs[0]] + xs[1..];
    }
  }

  /** Deleting twice is the same as deleting once. */
  lemma {:induction false} WithoutIdIdempotent(xs: seq<TestData>, id: string)
    ensures WithoutId(WithoutId(xs, id), id) == WithoutId(xs, id)
  {
    if xs != [] {
      WithoutIdIdempotent(xs[1..], id);
      if xs[0].testId != id {
        var rest := WithoutId(xs[1..], id);
        assert WithoutId([xs[0]] + rest, id) == [xs[0]] + WithoutId(rest, id) by {
          assert ([xs[0]] + rest)[1..] == rest;
        }
      }
    }
  }

  /** Running two traces one after the other is running their concatenation. */
  lemma {:induction false} ReplayConcat(slot: Slot, a: seq<Event>, b: seq<Event>)
    ensures Replay(slot, a + b) == Replay(Replay(slot, a), b)
    decreases |a|
  {
    if a == [] {
      assert a + b == b;
    } else {
      assert (a + b)[1..] == a[1..] + b;
      ReplayConcat(After(slot, a[0].call, a[0].env), a[1..], b);
    }
  }

  /**
   * While every read succeeds, a run of saves leaves exactly the records of the
   * successful saves appended, in call order, to what was readable before; so
   * the length grows by the number of successful saves.
   */
  lemma {:induction false} ReplaySaves(slot: Slot, events: seq<Event>, readEnv: Env)
    requires !slot.Unreadable?
    requires !readEnv.readFails
    requires SavesWithHealthyReads(events)
    ensures !Replay(slot, events).Unreadable?
    ensures LoadTests(Replay(slot, events), readEnv) == LoadTests(slot, readEnv) + SavedRecords(events)
    ensures |LoadTests(Replay(slot, events), readEnv)| == |LoadTests(slot, readEnv)| + |SavedRecords(events)|
    decreases |events|
  {
    if events != [] {
      var e := events[0];
      var next := After(slot, e.call, e.env);
      assert LoadTests(slot, e.env) == LoadTests(slot, readEnv);
      assert SavesWithHealthyReads(events[1..]) by {
        forall i | 0 <= i < |events[1..]|
          ensures events[1..][i].call.Save? && !events[1..][i].env.readFails
        {
          assert events[1..][i] == events[i + 1];
        }
      }
      ReplaySaves(next, events[1..], readEnv);
      if e.env.writeFails {
        assert SavedRecords(events) == SavedRecords(events[1..]);
      } else {
        assert SavedRecords(events) == [e.call.record] + SavedRecords(events[1..]);
        assert LoadTests(next, readEnv) == LoadTests(slot, readEnv) + [e.call.record];
      }
    }
  }

  /**
   * When every call after a successful `clearAllTests` is a save whose read
   * succeeds, the collection is exactly the records of the successful saves
   * since that clear, in call order; so its length is their number.
   */
  lemma SavesSinceClear(slot: Slot, before: seq<Event>, clearEnv: Env, since: seq<Event>, readEnv: Env)
    requires !clearEnv.writeFails && !readEnv.readFails
    requires SavesWithHealthyReads(since)
    ensures var trace := before + [Event(ClearAll, clearEnv)] + since;
      && LoadTests(Replay(slot, trace), readEnv) == SavedRecords(since)
      && |LoadTests(Replay(slot, trace), readEnv)| == |SavedRecords(since)|
  {
    var clear := [Event(ClearAll, clearEnv)];
    ReplayConcat(slot, before + clear, since);
    ReplayConcat(slot, before, clear);
    var cleared := Replay(slot, before + clear);
    assert cleared == Absent;
    ReplaySaves(cleared, since, readEnv);
  }

  /**
   * The sync-status scenario: a record saved under a fresh id, then updated,
   * is found again identical to the saved one except for its sync status.
   */
  lemma SaveUpdateFind(xs: seq<TestData>, r: TestData, s: SyncStatus)
    requires FindById(xs, r.testId).None?
    ensures FindById(WithSyncStatus(xs + [r], r.testId, s), r.testId) == Some(r.(syncStatus := s))
  {
    SaveThenFind(xs, r);
    UpdateThenFind(xs + [r], r.testId, s);
  }
}
