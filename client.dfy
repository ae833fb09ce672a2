/**
 * The part of the collection client that holds logic of its own: parsing a
 * signed sort field, building index models from `Index` descriptions, and
 * find-or-insert as one atomic upsert on a collection.
 */
module Client {
  import opened Wrappers
  import opened Store

  /** One key of an index or sort document: the field name and its direction (1 ascending, -1 descending). */
  datatype IndexKey = IndexKey(key: string, sort: int)

  /** An index request: its fields, each optionally prefixed by `+` or `-`, and whether it is unique. */
  datatype Index = Index(keys: seq<string>, unique: bool)

  /** What is handed to the driver for one index: the ordered key document and the unique option. */
  datatype IndexModel = IndexModel(keys: seq<IndexKey>, unique: bool)

  // ---------------------------------------------------------------------------
  // Sort fields
  // ---------------------------------------------------------------------------

  /**
   * Splits a leading `+` or `-` off a field name. The direction defaults to
   * ascending; exactly one sign character is removed, so `--a` names the
   * field `-a` in descending order.
   */
  function SplitSortField(field: string): (r: IndexKey)
    ensures r.sort == 1 || r.sort == -1
    ensures r.sort == -1 <==> |field| > 0 && field[0] == '-'
    ensures r.key != field ==> |field| > 0 && (field[0] == '+' || field[0] == '-')
    ensures |field| > 0 && (field[0] == '+' || field[0] == '-') ==> r.key == field[1..]
  {
    if |field| == 0 then IndexKey(field, 1)
    else if field[0] == '+' then IndexKey(field[1..], 1)
    else if field[0] == '-' then IndexKey(field[1..], -1)
    else IndexKey(field, 1)
  }

  /** Writes a key back as a field with an explicit sign: the inverse partner of SplitSortField. */
  function FormatSortField(k: IndexKey): (field: string)
    requires k.sort == 1 || k.sort == -1
    ensures |field| == |k.key| + 1 && field[1..] == k.key
  {
    (if k.sort == -1 then "-" else "+") + k.key
  }

  lemma SplitEmptyField()
    ensures SplitSortField("") == IndexKey("", 1)
  {
  }

  /** A leading `+` is removed once and gives ascending order. */
  lemma SplitAscendingPrefix(rest: string)
    ensures SplitSortField("+" + rest) == IndexKey(rest, 1)
  {
  }

  /** A leading `-` is removed once and gives descending order. */
  lemma SplitDescendingPrefix(rest: string)
    ensures SplitSortField("-" + rest) == IndexKey(rest, -1)
  {
  }

  lemma SplitDoubleMinus()
    ensures SplitSortField("--a") == IndexKey("-a", -1)
  {
  }

  /** A field without a sign is kept whole and sorted ascending. */
  lemma SplitUnsigned(field: string)
    requires |field| > 0 && field[0] != '+' && field[0] != '-'
    ensures SplitSortField(field) == IndexKey(field, 1)
  {
  }

  /** Formatting and splitting again gives back every key and direction. */
  lemma SplitFormatRoundTrip(k: IndexKey)
    requires k.sort == 1 || k.sort == -1
    ensures SplitSortField(FormatSortField(k)) == k
  {
  }

  // ---------------------------------------------------------------------------
  // Index models
  // ---------------------------------------------------------------------------

  /** `model` is what one `Index` turns into: one key per field, in order, and the same unique flag. */
  predicate BuiltFrom(model: IndexModel, idx: Index)
  {
    && model.unique == idx.unique
    && |model.keys| == |idx.keys|
    && forall j :: 0 <= j < |idx.keys| ==> model.keys[j] == SplitSortField(idx.keys[j])
  }

  /**
   * The model-building part of ColClient.CreateIndex: an empty request is an
   * error; otherwise one model per index, in request order.
   */
  method CreateIndex(indexes: seq<Index>) returns (r: Result<seq<IndexModel>, Error>)
    ensures r.Failure? <==> |indexes| == 0
    ensures r.Failure? ==> r.error == "index is empty"
    ensures r.Success? ==> |r.value| == |indexes|
    ensures r.Success? ==> forall i :: 0 <= i < |indexes| ==> BuiltFrom(r.value[i], indexes[i])
  {
    if |indexes| == 0 {
      return Failure("index is empty");
    }
    var indexModels: seq<IndexModel> := [];
    for i := 0 to |indexes|
      invariant |indexModels| == i
      invariant forall p :: 0 <= p < i ==> BuiltFrom(indexModels[p], indexes[p])
    {
      var idx := indexes[i];
      var keysDoc: seq<IndexKey> := [];
      for j := 0 to |idx.keys|
        invariant |keysDoc| == j
        invariant forall q :: 0 <= q < j ==> keysDoc[q] == SplitSortField(idx.keys[q])
      {
        keysDoc := keysDoc + [SplitSortField(idx.keys[j])];
      }
      indexModels := indexModels + [IndexModel(keysDoc, idx.unique)];
    }
    return Success(indexModels);
  }

  // ---------------------------------------------------------------------------
  // Find-or-insert
  // ---------------------------------------------------------------------------

  /** The collection after an upsert and the document it returned. */
  datatype Upserted<K, D> = Upserted(docs: map<K, D>, found: D)

  /**
   * findAndModify with upsert, `$setOnInsert: doc` and returnDocument After,
   * on a collection keyed by the filter's identity: an existing document is
   * returned as it is; otherwise `doc` is inserted and returned.
   */
  function SetOnInsert<K, D>(docs: map<K, D>, id: K, doc: D): (u: Upserted<K, D>)
    ensures id in u.docs && u.found == u.docs[id]
  {
    if id in docs then Upserted(docs, docs[id]) else Upserted(docs[id := doc], doc)
  }

  /** An identity already present: the stored document comes back and the collection is untouched. */
  lemma SetOnInsertFinds<K, D>(docs: map<K, D>, id: K, doc: D)
    requires id in docs
    ensures SetOnInsert(docs, id, doc) == Upserted(docs, docs[id])
  {
  }

  /** An absent identity: exactly one entry is added, holding the candidate, and no other entry changes. */
  lemma SetOnInsertCreates<K, D>(docs: map<K, D>, id: K, doc: D)
    requires id !in docs
    ensures SetOnInsert(docs, id, doc).found == doc
    ensures SetOnInsert(docs, id, doc).docs.Keys == docs.Keys + {id}
    ensures |SetOnInsert(docs, id, doc).docs| == |docs| + 1
    ensures forall k :: k in docs ==> SetOnInsert(docs, id, doc).docs[k] == docs[k]
  {
  }

  /**
   * Calling again with the same identity and any other candidate is a pure
   * read: it returns what the first call returned and changes nothing.
   */
  lemma SetOnInsertIdempotent<K, D>(docs: map<K, D>, id: K, first: D, second: D)
    ensures var u := SetOnInsert(docs, id, first);
            SetOnInsert(u.docs, id, second) == u
  {
  }

  /** One find-or-insert call with a fixed identity: its candidate and how its round trip ends. */
  datatype Upsert<D> = Upsert(candidate: D, attempt: Attempt)

  /** The collection after a call and what the call reported. */
  datatype Replied<K, D> = Replied(docs: map<K, D>, result: Result<D, Error>)

  /**
   * One find-or-insert call as the store and the decode of its reply carry
   * it out: the upsert takes effect iff it committed, and the caller sees
   * the document only when no error came back.
   */
  function FindOrInsertStep<K, D>(docs: map<K, D>, id: K, c: Upsert<D>): (s: Replied<K, D>)
    ensures c.attempt.Commits() ==> s.docs == SetOnInsert(docs, id, c.candidate).docs
    ensures c.attempt.Rejected? ==> s.docs == docs
    ensures c.attempt.Applied? ==> s.result == Success(SetOnInsert(docs, id, c.candidate).found)
    ensures !c.attempt.Applied? ==> s.result == Failure(c.attempt.error)
  {
    match c.attempt
    case Applied =>
      var u := SetOnInsert(docs, id, c.candidate);
      Replied(u.docs, Success(u.found))
    case Rejected(e) => Replied(docs, Failure(e))
    case AppliedThenFailed(e) => Replied(SetOnInsert(docs, id, c.candidate).docs, Failure(e))
  }

  /** The collection after a run of find-or-insert calls and what each call reported, in order. */
  datatype Inserted<K, D> = Inserted(docs: map<K, D>, returned: seq<Result<D, Error>>)

  /** A run of find-or-insert calls with one identity, in the order the store applied them. */
  function SetOnInsertAll<K, D>(docs: map<K, D>, id: K, calls: seq<Upsert<D>>): (r: Inserted<K, D>)
    ensures |r.returned| == |calls|
    decreases |calls|
  {
    if calls == [] then Inserted(docs, [])
    else
      var prev := SetOnInsertAll(docs, id, calls[..|calls| - 1]);
      var s := FindOrInsertStep(prev.docs, id, calls[|calls| - 1]);
      Inserted(s.docs, prev.returned + [s.result])
  }

  /** The candidate of the first call of the run whose upsert reached the store, if any. */
  function FirstCommitted<D>(calls: seq<Upsert<D>>): Option<D>
    decreases |calls|
  {
    if calls == [] then None
    else
      var earlier := FirstCommitted(calls[..|calls| - 1]);
      var last := calls[|calls| - 1];
      if earlier.Some? then earlier
      else if last.attempt.Commits() then Some(last.candidate)
      else None
  }

  /** The document the identity ends up with: the one already stored, else the first committed candidate. */
  function Winner<K, D>(docs: map<K, D>, id: K, calls: seq<Upsert<D>>): Option<D>
  {
    if id in docs then Some(docs[id]) else FirstCommitted(calls)
  }

  /**
   * Whatever candidates later calls bring and however calls fail, the
   * identity ends up with the document that was there first, or else with
   * the candidate of the first call that reached the store (even if that
   * call then reported an error); every call that succeeds returns exactly
   * that document, every other call reports its own error, and no call
   * that never reached the store leaves a trace.
   */
  lemma {:induction false} FirstCandidateWins<K, D>(docs: map<K, D>, id: K, calls: seq<Upsert<D>>)
    ensures var r := SetOnInsertAll(docs, id, calls);
            var w := Winner(docs, id, calls);
            && (w.None? ==> r.docs == docs)
            && (w.Some? ==> r.docs == docs[id := w.value])
            && forall i :: 0 <= i < |calls| ==>
                 if calls[i].attempt.Applied? then w.Some? && r.returned[i] == Success(w.value)
                 else r.returned[i] == Failure(calls[i].attempt.error)
    decreases |calls|
  {
    if calls != [] {
      var n := |calls| - 1;
      var init := calls[..n];
      FirstCandidateWins(docs, id, init);
      var prev := SetOnInsertAll(docs, id, init);
      var r := SetOnInsertAll(docs, id, calls);
      var w0 := Winner(docs, id, init);
      var w := Winner(docs, id, calls);
      assert w0.Some? ==> w == w0;
      assert r.returned == prev.returned + [FindOrInsertStep(prev.docs, id, calls[n]).result];
      forall i | 0 <= i < n
        ensures r.returned[i] == prev.returned[i]
      {
      }
    }
  }

  /** A collection client: the documents of one collection, keyed by the identity of the unique index. */
  class ColClient<K(==), D> {
    var docs: map<K, D>

    /** Opens a client on a collection that already holds `docs0`. */
    constructor (docs0: map<K, D>)
      ensures docs == docs0
    {
      docs := docs0;
    }

    /**
     * One atomic findAndModify. `attempt` is how the store round trip ends:
     * any error comes back unchanged; the upsert has taken effect iff it
     * committed before the error.
     */
    method FindOrInsert(filter: K, doc: D, attempt: Attempt) returns (r: Result<D, Error>)
      modifies this
      ensures var u := SetOnInsert(old(docs), filter, doc);
              && (attempt.Applied? ==> r == Success(u.found))
              && (!attempt.Applied? ==> r == Failure(attempt.error))
              && docs == (if attempt.Commits() then u.docs else old(docs))
      ensures attempt.Applied? && filter in old(docs) ==> r == Success(old(docs)[filter]) && docs == old(docs)
      ensures attempt.Applied? && filter !in old(docs) ==> r == Success(doc) && docs == old(docs)[filter := doc]
      ensures attempt.Rejected? ==> docs == old(docs)
      ensures FindOrInsertStep(old(docs), filter, Upsert(doc, attempt)) == Replied(docs, r)
    {
      var s := FindOrInsertStep(docs, filter, Upsert(doc, attempt));
      docs := s.docs;
      r := s.result;
    }
  }

  /**
   * The find-or-insert scenario of the client tests, on a collection that
   * holds no `test_key` yet: a unique index on `key`, then two calls for
   * `test_key` whose candidates differ in `value`.
   */
  method FindOrInsertScenario(docs0: map<string, map<string, string>>)
    returns (index: seq<IndexModel>, d1: map<string, string>, d2: map<string, string>, count: nat)
    requires "test_key" !in docs0
    ensures index == [IndexModel([IndexKey("key", 1)], true)]
    ensures d1 == map["key" := "test_key", "value" := "test_value"]
    ensures d2 == d1 && count == |docs0| + 1
  {
    var created := CreateIndex([Index(["key"], true)]);
    index := created.value;
    assert BuiltFrom(index[0], Index(["key"], true));
    SplitUnsigned("key");
    assert index[0].keys == [IndexKey("key", 1)];
    var col := new ColClient<string, map<string, string>>(docs0);
    var doc := map["key" := "test_key", "value" := "test_value"];
    var r1 := col.FindOrInsert("test_key", doc, Applied);
    doc := doc["value" := "test_value2"];
    var r2 := col.FindOrInsert("test_key", doc, Applied);
    d1, d2, count := r1.value, r2.value, |col.docs|;
  }
}
