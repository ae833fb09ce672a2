/**
 * The sequence generator: per-name counters kept as documents
 * `{_id: name, seq: n}` in the counter collection, advanced by one atomic
 * findAndModify (`$inc seq 1`, upsert, returnDocument After) per call.
 */
module Counter {
  import opened Wrappers
  import opened Store

  /** The collection every sequence number is drawn from. */
  const CounterCollection: string := "_m_counters"

  /** The counter documents of one collection: sequence name (`_id`) to its `seq` field. */
  type Counters = map<string, nat>

  /** The value a sequence holds; a name that has no document yet holds 0. */
  function Current(seqs: Counters, name: string): nat
  {
    if name in seqs then seqs[name] else 0
  }

  /** The counter documents of the named collection of a database; a collection never written is empty. */
  function Collection(cols: map<string, Counters>, col: string): Counters
  {
    if col in cols then cols[col] else map[]
  }

  /** The counters after one call and the number that call returned. */
  datatype Bumped = Bumped(seqs: Counters, issued: nat)

  /** The upserting `$inc`: create the document at 0 if absent, add one, return the document after. */
  function Increment(seqs: Counters, name: string): (r: Bumped)
    ensures r.issued == Current(seqs, name) + 1
    ensures r.issued == Current(r.seqs, name)
    ensures name !in seqs ==> r.issued == 1
    ensures forall other :: other != name ==> Current(r.seqs, other) == Current(seqs, other)
    ensures r.seqs.Keys == seqs.Keys + {name}
  {
    var v := Current(seqs, name) + 1;
    Bumped(seqs[name := v], v)
  }

  /** One call of NextSeqNo: the sequence asked for and how the store round trip ends. */
  datatype Call = Call(name: string, attempt: Attempt)

  /**
   * One call as NextSeqNo performs it on the counter collection: the
   * increment is written whenever it reached the store, and the number is
   * returned only when no error came back (0 otherwise).
   */
  function Step(seqs: Counters, c: Call): (b: Bumped)
    ensures c.attempt.Applied? ==> b == Increment(seqs, c.name)
    ensures !c.attempt.Applied? ==> b.issued == 0
    ensures c.attempt.Rejected? ==> b.seqs == seqs
    ensures c.attempt.AppliedThenFailed? ==> b.seqs == Increment(seqs, c.name).seqs
  {
    match c.attempt
    case Applied => Increment(seqs, c.name)
    case Rejected(_) => Bumped(seqs, 0)
    case AppliedThenFailed(_) => Bumped(Increment(seqs, c.name).seqs, 0)
  }

  /** The error NextSeqNo passes back for a round trip: the store's own, unchanged. */
  function ErrorOf(a: Attempt): (err: Option<Error>)
    ensures err.None? <==> a.Applied?
    ensures !a.Applied? ==> err == Some(a.error)
  {
    if a.Applied? then None else Some(a.error)
  }

  /**
   * A database handle. `counterCol` is set at construction but never read by
   * NextSeqNo. `cols` holds the counter documents of every collection of the
   * database, as they were when the handle was opened and as changed since.
   */
  class DbClient {
    var counterCol: string
    var cols: map<string, Counters>

    /** Opens a handle on a database whose collections hold `cols0`. */
    constructor (cols0: map<string, Counters>)
      ensures counterCol == CounterCollection && cols == cols0
    {
      counterCol := CounterCollection;
      cols := cols0;
    }

    /**
     * Draws the next number of `sequenceName` from CounterCollection,
     * whatever `counterCol` says. `attempt` is how the store round trip ends:
     * on any error, 0 and that error come back; the counter has advanced iff
     * the update committed before the error.
     */
    method NextSeqNo(sequenceName: string, attempt: Attempt) returns (seqNo: nat, err: Option<Error>)
      modifies this`cols
      ensures var b := Step(Collection(old(cols), CounterCollection), Call(sequenceName, attempt));
              && seqNo == b.issued && err == ErrorOf(attempt)
              && cols == (if attempt.Commits() then old(cols)[CounterCollection := b.seqs] else old(cols))
      ensures attempt.Applied? ==> seqNo == Current(Collection(old(cols), CounterCollection), sequenceName) + 1
      ensures attempt.Applied? ==> seqNo == Current(Collection(cols, CounterCollection), sequenceName)
      ensures !attempt.Applied? ==> seqNo == 0 && err == Some(attempt.error)
      ensures attempt.Rejected? ==> cols == old(cols)
      ensures forall col :: col != CounterCollection ==> Collection(cols, col) == Collection(old(cols), col)
    {
      var b := Step(Collection(cols, CounterCollection), Call(sequenceName, attempt));
      if attempt.Commits() {
        cols := cols[CounterCollection := b.seqs];
      }
      seqNo, err := b.issued, ErrorOf(attempt);
    }

    /**
     * Drops the whole database: once the drop reaches the store, every
     * collection, the counter collection included, is gone. The store's
     * error, if any, comes back unchanged.
     */
    method Drop(attempt: Attempt) returns (err: Option<Error>)
      modifies this`cols
      ensures err == ErrorOf(attempt)
      ensures attempt.Commits() ==> cols == map[] && forall col :: Collection(cols, col) == map[]
      ensures attempt.Rejected? ==> cols == old(cols)
    {
      if attempt.Commits() {
        cols := map[];
      }
      err := ErrorOf(attempt);
    }
  }

  // ---------------------------------------------------------------------------
  // Runs of calls
  // ---------------------------------------------------------------------------

  /** The counters after a run of calls and what each call returned, in order. */
  datatype Outcome = Outcome(seqs: Counters, returned: seq<nat>)

  /** A run of NextSeqNo calls, each one atomic, in the order the store applied them. */
  function Run(seqs: Counters, calls: seq<Call>): (r: Outcome)
    ensures |r.returned| == |calls|
    decreases |calls|
  {
    if calls == [] then Outcome(seqs, [])
    else
      var prev := Run(seqs, calls[..|calls| - 1]);
      var b := Step(prev.seqs, calls[|calls| - 1]);
      Outcome(b.seqs, prev.returned + [b.issued])
  }

  /** Whether a call drew a number of `name` and got it back. */
  predicate Draws(c: Call, name: string)
  {
    c.name == name && c.attempt.Applied?
  }

  /** Whether a call advanced the counter of `name`, whether or not its caller saw the number. */
  predicate Advances(c: Call, name: string)
  {
    c.name == name && c.attempt.Commits()
  }

  /** How many calls of the run advanced the counter of `name`. */
  function Committed(calls: seq<Call>, name: string): nat
    decreases |calls|
  {
    if calls == [] then 0
    else Committed(calls[..|calls| - 1], name) + (if Advances(calls[|calls| - 1], name) then 1 else 0)
  }

  /** The numbers returned to the calls that drew from `name` without error, in order. */
  function IssuedTo(calls: seq<Call>, returned: seq<nat>, name: string): seq<nat>
    requires |returned| == |calls|
    decreases |calls|
  {
    if calls == [] then []
    else
      var n := |calls| - 1;
      IssuedTo(calls[..n], returned[..n], name) + (if Draws(calls[n], name) then [returned[n]] else [])
  }

  /** The numbers `lo, lo + 1, …, lo + n - 1`. */
  function Consecutive(lo: nat, n: nat): (s: seq<nat>)
    ensures |s| == n
    ensures forall i :: 0 <= i < n ==> s[i] == lo + i
  {
    if n == 0 then [] else Consecutive(lo, n - 1) + [lo + n - 1]
  }

  /** Strictly increasing: no number occurs twice. */
  predicate Increasing(s: seq<nat>)
  {
    forall i, j :: 0 <= i < j < |s| ==> s[i] < s[j]
  }

  /**
   * However calls for different names interleave and whichever of them fail,
   * the counter of one name advances once per call that reached the store,
   * and the numbers handed back for it are new each time: strictly
   * increasing, above the starting value and at most the final one. A number
   * whose reply was lost after the commit is skipped, never handed out again.
   */
  lemma {:induction false} RunNeverRepeats(seqs: Counters, calls: seq<Call>, name: string)
    ensures Current(Run(seqs, calls).seqs, name) == Current(seqs, name) + Committed(calls, name)
    ensures var issued := IssuedTo(calls, Run(seqs, calls).returned, name);
            && Increasing(issued)
            && forall i :: 0 <= i < |issued| ==>
                 Current(seqs, name) < issued[i] <= Current(Run(seqs, calls).seqs, name)
  {
    if calls != [] {
      var n := |calls| - 1;
      var c := calls[n];
      RunNeverRepeats(seqs, calls[..n], name);
      var prev := Run(seqs, calls[..n]);
      var r := Run(seqs, calls);
      assert r.returned[..n] == prev.returned;
      if Draws(c, name) {
        assert r.returned[n] == Current(prev.seqs, name) + 1;
      } else if !Advances(c, name) {
        assert Current(r.seqs, name) == Current(prev.seqs, name);
      }
    }
  }

  /**
   * When no call for a name fails after committing (every failure happened
   * before the store was reached), the calls for it that succeed receive
   * exactly the next numbers of that name, in order, with no gap.
   */
  lemma {:induction false} RunIssuesConsecutive(seqs: Counters, calls: seq<Call>, name: string)
    requires forall i :: 0 <= i < |calls| && calls[i].name == name ==> !calls[i].attempt.AppliedThenFailed?
    ensures Current(Run(seqs, calls).seqs, name) == Current(seqs, name) + Committed(calls, name)
    ensures IssuedTo(calls, Run(seqs, calls).returned, name)
            == Consecutive(Current(seqs, name) + 1, Committed(calls, name))
  {
    if calls != [] {
      var n := |calls| - 1;
      var c := calls[n];
      RunIssuesConsecutive(seqs, calls[..n], name);
      var prev := Run(seqs, calls[..n]);
      var r := Run(seqs, calls);
      assert r.returned[..n] == prev.returned;
      if Draws(c, name) {
        assert r.returned[n] == Current(prev.seqs, name) + 1;
      } else {
        assert Current(r.seqs, name) == Current(prev.seqs, name);
      }
    }
  }

  /** A failed call returns 0; one rejected before reaching the store leaves every counter as it was. */
  lemma {:induction false} FailedCallsChangeNothing(seqs: Counters, calls: seq<Call>, i: nat)
    requires i < |calls| && !calls[i].attempt.Applied?
    ensures Run(seqs, calls).returned[i] == 0
    ensures calls[i].attempt.Rejected? ==> Run(seqs, calls[..i + 1]).seqs == Run(seqs, calls[..i]).seqs
  {
    var n := |calls| - 1;
    if i < n {
      FailedCallsChangeNothing(seqs, calls[..n], i);
      assert calls[..n][..i + 1] == calls[..i + 1];
      assert calls[..n][..i] == calls[..i];
    } else {
      assert calls[..i + 1] == calls;
    }
  }

  /** `n` successful calls for a name not seen before return `1, 2, …, n`. */
  lemma {:induction false} FreshNameCountsFromOne(seqs: Counters, name: string, calls: seq<Call>)
    requires name !in seqs
    requires forall i :: 0 <= i < |calls| ==> calls[i] == Call(name, Applied)
    ensures Run(seqs, calls).returned == Consecutive(1, |calls|)
  {
    if calls != [] {
      var n := |calls| - 1;
      FreshNameCountsFromOne(seqs, name, calls[..n]);
      RunIssuesConsecutive(seqs, calls[..n], name);
      AllAdvance(calls[..n], name);
    }
  }

  /** When every call draws from `name` without error, each of them advances it. */
  lemma {:induction false} AllAdvance(calls: seq<Call>, name: string)
    requires forall i :: 0 <= i < |calls| ==> calls[i] == Call(name, Applied)
    ensures Committed(calls, name) == |calls|
  {
    if calls != [] {
      AllAdvance(calls[..|calls| - 1], name);
    }
  }

  /**
   * The counter test on a database where `test_seq` has not been drawn: the
   * handle is pointed at `test_counter`, two numbers are drawn from
   * `test_seq`, and they are 1 and 2. The redirect has no effect:
   * `test_counter` is left as it was and the count lives in
   * CounterCollection.
   */
  method NextSeqNoScenario(cols0: map<string, Counters>)
    returns (seq1: nat, seq2: nat, redirected: Counters, used: Counters)
    requires "test_seq" !in Collection(cols0, CounterCollection)
    ensures seq1 == 1 && seq2 == seq1 + 1
    ensures redirected == Collection(cols0, "test_counter")
    ensures used == Collection(cols0, CounterCollection)["test_seq" := 2]
  {
    var db := new DbClient(cols0);
    db.counterCol := "test_counter";
    var err;
    seq1, err := db.NextSeqNo("test_seq", Applied);
    seq2, err := db.NextSeqNo("test_seq", Applied);
    redirected := Collection(db.cols, db.counterCol);
    used := Collection(db.cols, CounterCollection);
  }

  /**
   * The whole counter test on one handle: point it at `test_counter`, draw
   * twice from `test_seq`, then clean up. The cleanup asks the collection
   * client for `Drop`, which it inherits from the database handle, so the
   * whole database goes, CounterCollection included, when the drop reaches
   * the store. The test ignores the drop's error; `cleanup` is how it ends.
   */
  method RunCounterTest(db: DbClient, cleanup: Attempt) returns (seq1: nat, seq2: nat)
    modifies db
    ensures seq1 == Current(Collection(old(db.cols), CounterCollection), "test_seq") + 1
    ensures seq2 == seq1 + 1
    ensures db.counterCol == "test_counter"
    ensures cleanup.Commits() ==> db.cols == map[]
    ensures cleanup.Rejected? ==> Current(Collection(db.cols, CounterCollection), "test_seq") == seq2
  {
    db.counterCol := "test_counter";
    var err;
    seq1, err := db.NextSeqNo("test_seq", Applied);
    seq2, err := db.NextSeqNo("test_seq", Applied);
    err := db.Drop(cleanup);
  }

  /**
   * Running the counter test twice against the same database: when the
   * first run's cleanup reaches the store, whatever the database held at
   * first, the second run draws 1 and 2 again; when that cleanup is
   * refused, the second run carries on from where the first stopped.
   */
  method CounterTestRerun(cols0: map<string, Counters>, cleanup: Attempt)
    returns (first1: nat, first2: nat, second1: nat, second2: nat)
    ensures first1 == Current(Collection(cols0, CounterCollection), "test_seq") + 1 && first2 == first1 + 1
    ensures cleanup.Commits() ==> second1 == 1 && second2 == 2
    ensures cleanup.Rejected? ==> second1 == first2 + 1 && second2 == second1 + 1
  {
    var db := new DbClient(cols0);
    first1, first2 := RunCounterTest(db, cleanup);
    second1, second2 := RunCounterTest(db, Applied);
  }
}
