/** Runs of the record store of apue/apue.2e/db/db.c: any sequence of calls behaves as it would on a map. */
module DbRuns {
  import opened Wrappers
  import opened DbText
  import opened DbContents
  import opened DbStore
  import opened DbCalls

  predicate CallsOk(calls: seq<Call>) {
    forall k :: 0 <= k < |calls| && calls[k].Store? ==> GoodKey(calls[k].key)
  }

  /** One call on the files, answered as on the map. */
  method Make(db: DB, c: Call) returns (answer: Answer, dumped: bool)
    requires db.Valid() && (c.Store? ==> GoodKey(c.key))
    modifies db
    ensures dumped ==> c.Store?
    ensures !dumped ==> db.Valid() && db.m == After(old(db.m), c) && answer == Reply(old(db.m), c)
  {
    hide DB.Valid, StoreResult, Appends, Appendable, ValidFlag, Minus;
    match c {
      case Store(k, d, flag) =>
        var rc, stop := db.Store(k, d, flag);
        answer, dumped := Code(rc), stop;
      case Delete(k) =>
        var rc := db.Delete(k);
        answer, dumped := Code(rc), false;
      case Fetch(k) =>
        var d := db.Fetch(k);
        answer, dumped := Data(d), false;
    }
  }

  /** The files answer every call as a map would, until one of the calls ends the run. */
  method Replay(db: DB, calls: seq<Call>) returns (answers: seq<Answer>, dumped: bool)
    requires db.Valid() && CallsOk(calls)
    modifies db
    ensures |answers| <= |calls| && (dumped <==> |answers| < |calls|)
    ensures forall k :: 0 <= k < |answers| ==> answers[k] == Reply(AfterAll(old(db.m), calls[..k]), calls[k])
    ensures !dumped ==> db.Valid() && db.m == AfterAll(old(db.m), calls)
    ensures dumped ==> calls[|answers|].Store?
  {
    hide DB.Valid, Reply, After;
    ghost var m0 := db.m;
    answers, dumped := [], false;
    for i := 0 to |calls|
      invariant db.Valid() && db.m == AfterAll(m0, calls[..i]) && |answers| == i && !dumped
      invariant forall k :: 0 <= k < |answers| ==> answers[k] == Reply(AfterAll(m0, calls[..k]), calls[k])
    {
      assert calls[..i + 1][..i] == calls[..i];
      var answer, stop := Make(db, calls[i]);
      if stop {
        return answers, true;
      }
      answers := answers + [answer];
    }
    assert calls[..|calls|] == calls;
  }

  /** What a key holds depends on the calls that name it, and on no others. */
  lemma {:induction false} OnlyOwnCalls(m: map<string, string>, calls: seq<Call>, key: string)
    requires forall k :: 0 <= k < |calls| ==> calls[k].key != key
    ensures key in AfterAll(m, calls) <==> key in m
    ensures key in m ==> AfterAll(m, calls)[key] == m[key]
    decreases |calls|
  {
    if calls != [] {
      OnlyOwnCalls(m, calls[..|calls| - 1], key);
    }
  }

  /** After a store that succeeded, and until another call names the key, a fetch gives what was stored. */
  lemma FetchGivesStored(m: map<string, string>, before: seq<Call>, key: string, data: string, flag: int,
      after: seq<Call>)
    requires forall k :: 0 <= k < |after| ==> after[k].key != key
    requires Reply(AfterAll(m, before), Store(key, data, flag)) == Code(0)
    ensures Reply(AfterAll(m, before + [Store(key, data, flag)] + after), Fetch(key)) == Data(Some(data))
  {
    var first := before + [Store(key, data, flag)];
    assert first[..|before|] == before;
    assert AfterAll(m, first)[key] == data;
    Appended(m, first, after);
    OnlyOwnCalls(AfterAll(m, first), after, key);
  }

  lemma {:induction false} Appended(m: map<string, string>, a: seq<Call>, b: seq<Call>)
    ensures AfterAll(m, a + b) == AfterAll(AfterAll(m, a), b)
    decreases |b|
  {
    if b == [] {
      assert a + b == a;
    } else {
      assert (a + b)[..|a + b| - 1] == a + b[..|b| - 1];
      Appended(m, a, b[..|b| - 1]);
    }
  }
}
