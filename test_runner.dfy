/**
 * `runTests`: run every registry case once, count it as passed or failed,
 * then add the one outcome of the save-and-replay check on the first case,
 * and exit with a non-zero status when anything failed.
 *
 * The replies of every exchange are inputs. A case sends its query and, when
 * the query passed, a save of that case; the whole case sits inside one
 * `try`, so an exception anywhere in it counts the case as failed.
 */
module TestRunner {
  import opened JsValues
  import opened SaveReplay

  const AUTO_DESCRIPTION := "Automatically saved during test"

  /** The replies to one case's query and to its save (the save reply is
      ignored when no save is sent). */
  datatype CaseReplies = CaseReplies(query: Reply, save: Reply)

  /** The printed summary: the number of checks, passed and failed. */
  datatype Summary = Summary(total: nat, passed: nat, failed: nat)

  /** `response.ok && result.success`; a `null` body has no truthy
      `success`, and the case fails either way. */
  predicate QueryPassed(r: Reply) {
    r.Received? && r.ok && Truthy(OwnField(r.body, "success"))
  }

  /** The save exchange, the read of `saveData.success` and, when that is
      truthy, the message converting `saveData.id` to text did not throw. */
  predicate SaveCompleted(r: Reply) {
    && r.Received? && !r.body.Null?
    && (Truthy(OwnField(r.body, "success")) ==> !StringConversionThrows(OwnField(r.body, "id")))
  }

  /** The messages about a passing result did not throw: its `type`, then
      for type `'both'` the two counts and the `aggregation_data.length > 0`
      guard, otherwise its `root` and `count`, are converted to text. An
      array's or a string's `length` is a number; only an object's own
      `length` can fail to convert. */
  predicate ReportCompleted(result: Json) {
    var kind := OwnField(result, "type");
    && !StringConversionThrows(kind)
    && if StrictEquals(kind, Defined(Str("both"))) then
         var data := OwnField(result, "aggregation_data");
         && !StringConversionThrows(OwnField(result, "detailed_count"))
         && !StringConversionThrows(OwnField(result, "aggregation_count"))
         && !(Truthy(data) && data.json.Obj? && StringConversionThrows(OwnField(data.json, "length")))
       else
         && !StringConversionThrows(OwnField(result, "root"))
         && !StringConversionThrows(OwnField(result, "count"))
  }

  /** Whether a case reaches `passed++`. */
  predicate CasePassed(replies: CaseReplies) {
    QueryPassed(replies.query) && SaveCompleted(replies.save) && ReportCompleted(replies.query.body)
  }

  /** The requests one case sends: its query, then a save of the case under
      its own name when the query passed. */
  function CaseRequests(tc: TestCase, replies: CaseReplies): seq<Request> {
    [Query(tc.payload)] + if QueryPassed(replies.query) then [Save(SaveBodyFor(tc, tc.name, AUTO_DESCRIPTION))] else []
  }

  /** The number of passing cases among the first `n`. */
  function PassedAmong(replies: seq<CaseReplies>, n: nat): (k: nat)
    requires n <= |replies|
    ensures k <= n
  {
    if n == 0 then 0 else PassedAmong(replies, n - 1) + if CasePassed(replies[n - 1]) then 1 else 0
  }

  /** The number of cases among the first `n` whose query passed. */
  function QueriesPassedAmong(replies: seq<CaseReplies>, n: nat): (k: nat)
    requires n <= |replies|
    ensures k <= n
  {
    if n == 0 then 0 else QueriesPassedAmong(replies, n - 1) + if QueryPassed(replies[n - 1].query) then 1 else 0
  }

  /** The requests the first `n` cases send, in registry order. */
  function RequestsAmong(cases: seq<TestCase>, replies: seq<CaseReplies>, n: nat): seq<Request>
    requires n <= |cases| && n <= |replies|
  {
    if n == 0 then [] else RequestsAmong(cases, replies, n - 1) + CaseRequests(cases[n - 1], replies[n - 1])
  }

  /** The queries among `rs`, in order. */
  function Queries(rs: seq<Request>): seq<Request> {
    if rs == [] then [] else (if rs[0].Query? then [rs[0]] else []) + Queries(rs[1..])
  }

  /** The saves among `rs`, in order. */
  function Saves(rs: seq<Request>): seq<Request> {
    if rs == [] then [] else (if rs[0].Save? then [rs[0]] else []) + Saves(rs[1..])
  }

  lemma {:induction false} QueriesAppend(a: seq<Request>, b: seq<Request>)
    ensures Queries(a + b) == Queries(a) + Queries(b)
  {
    if a == [] {
      assert a + b == b;
    } else {
      assert (a + b)[0] == a[0] && (a + b)[1..] == a[1..] + b;
      QueriesAppend(a[1..], b);
    }
  }

  lemma {:induction false} SavesAppend(a: seq<Request>, b: seq<Request>)
    ensures Saves(a + b) == Saves(a) + Saves(b)
  {
    if a == [] {
      assert a + b == b;
    } else {
      assert (a + b)[0] == a[0] && (a + b)[1..] == a[1..] + b;
      SavesAppend(a[1..], b);
    }
  }

  /** The save of case `i` under its own name. */
  function CaseSave(cases: seq<TestCase>, i: nat): Request
    requires i < |cases|
  {
    Save(SaveBodyFor(cases[i], cases[i].name, AUTO_DESCRIPTION))
  }

  /** One more case adds its query, and its save when its query passed. */
  lemma SentStep(cases: seq<TestCase>, replies: seq<CaseReplies>, n: nat)
    requires 0 < n <= |cases| && n <= |replies|
    ensures Queries(RequestsAmong(cases, replies, n)) ==
      Queries(RequestsAmong(cases, replies, n - 1)) + [Query(cases[n - 1].payload)]
    ensures Saves(RequestsAmong(cases, replies, n)) ==
      Saves(RequestsAmong(cases, replies, n - 1)) + if QueryPassed(replies[n - 1].query) then [CaseSave(cases, n - 1)] else []
  {
    var m := n - 1;
    var before, here := RequestsAmong(cases, replies, m), CaseRequests(cases[m], replies[m]);
    QueriesAppend(before, here);
    SavesAppend(before, here);
    var tail := if QueryPassed(replies[m].query) then [CaseSave(cases, m)] else [];
    assert here == [Query(cases[m].payload)] + tail;
    QueriesAppend([Query(cases[m].payload)], tail);
    SavesAppend([Query(cases[m].payload)], tail);
  }

  /** The first `n` cases send every case's query, in registry order. */
  lemma {:induction false} QueriesSent(cases: seq<TestCase>, replies: seq<CaseReplies>, n: nat)
    requires n <= |cases| && n <= |replies|
    ensures var qs := Queries(RequestsAmong(cases, replies, n));
      |qs| == n && forall i :: 0 <= i < n ==> qs[i] == Query(cases[i].payload)
  {
    if n > 0 {
      QueriesSent(cases, replies, n - 1);
      SentStep(cases, replies, n);
    }
  }

  /** The first `n` cases send one save per case whose query passed; each is
      the save of such a case, and each such case's save is sent. */
  lemma {:induction false} SavesSent(cases: seq<TestCase>, replies: seq<CaseReplies>, n: nat)
    requires n <= |cases| && n <= |replies|
    ensures |Saves(RequestsAmong(cases, replies, n))| == QueriesPassedAmong(replies, n)
    ensures forall i :: 0 <= i < n && QueryPassed(replies[i].query) ==>
      CaseSave(cases, i) in Saves(RequestsAmong(cases, replies, n))
    ensures forall r :: r in Saves(RequestsAmong(cases, replies, n)) ==>
      exists i :: 0 <= i < n && QueryPassed(replies[i].query) && r == CaseSave(cases, i)
  {
    if n > 0 {
      SavesSent(cases, replies, n - 1);
      SentStep(cases, replies, n);
    }
  }

  /** All of the first `n` cases passed exactly when the count says so. */
  lemma {:induction false} AllPassedIff(replies: seq<CaseReplies>, n: nat)
    requires n <= |replies|
    ensures PassedAmong(replies, n) == n <==> forall i :: 0 <= i < n ==> CasePassed(replies[i])
  {
    if n > 0 {
      AllPassedIff(replies, n - 1);
      var last := CasePassed(replies[n - 1]);
      assert PassedAmong(replies, n) == PassedAmong(replies, n - 1) + if last then 1 else 0;
      assert (forall i :: 0 <= i < n ==> CasePassed(replies[i])) <==>
        (forall i :: 0 <= i < n - 1 ==> CasePassed(replies[i])) && last;
    }
  }

  /** The save decides no more than whether the case survives its own
      exceptions: the HTTP status of the save never matters, and neither does
      its `success` flag once the save body is non-null and its id converts. */
  lemma SaveFlagNeverMatters(q: Reply, ok1: bool, body1: Json, ok2: bool, body2: Json)
    requires !body1.Null? && !body2.Null?
    requires !StringConversionThrows(OwnField(body1, "id")) && !StringConversionThrows(OwnField(body2, "id"))
    ensures CasePassed(CaseReplies(q, Received(ok1, body1))) == (QueryPassed(q) && ReportCompleted(q.body))
    ensures CasePassed(CaseReplies(q, Received(ok1, body1))) == CasePassed(CaseReplies(q, Received(ok2, body2)))
    ensures CasePassed(CaseReplies(q, Received(ok1, body1))) == CasePassed(CaseReplies(q, Received(ok2, body1)))
  {
  }

  /** A passing query whose save throws, or whose save body is `null`, makes
      a failed case. */
  lemma ThrowingSaveFailsCase(q: Reply, ok: bool)
    requires QueryPassed(q)
    ensures !CasePassed(CaseReplies(q, Raised))
    ensures !CasePassed(CaseReplies(q, Received(ok, Null)))
  {
  }

  /** A passing query whose report throws makes a failed case, whatever the
      save replied; a `type` that cannot be converted to text is one such
      report. */
  lemma ThrowingReportFailsCase(q: Reply, save: Reply)
    requires QueryPassed(q)
    ensures !ReportCompleted(q.body) ==> !CasePassed(CaseReplies(q, save))
    ensures StringConversionThrows(OwnField(q.body, "type")) ==> !ReportCompleted(q.body)
  {
  }

  /** For example, `{"success": true, "type": {"toString": 0}}` passes as a
      query and fails as a case. */
  lemma UnprintableTypeExample(save: Reply)
    ensures var q := Received(true, Obj([Property("success", Bool(true)), Property("type", Obj([Property("toString", Num(0))]))]));
      QueryPassed(q) && !CasePassed(CaseReplies(q, save))
  {
    var props := [Property("success", Bool(true)), Property("type", Obj([Property("toString", Num(0))]))];
    assert props[1..] == [props[1]];
    assert props[0].key != "type" by { assert |props[0].key| != |"type"|; }
    assert Lookup(props[1..], "type") == Defined(props[1].value);
    PrimitivesConvert(Undefined, []);
  }

  /** The tally of passing cases is at most that of passing queries, and the
      two agree when nothing after a passing query threw. */
  lemma {:induction false} PassedAtMostQueriesPassed(replies: seq<CaseReplies>, n: nat)
    requires n <= |replies|
    ensures PassedAmong(replies, n) <= QueriesPassedAmong(replies, n)
    ensures (forall i :: 0 <= i < n && QueryPassed(replies[i].query) ==>
               SaveCompleted(replies[i].save) && ReportCompleted(replies[i].query.body)) ==>
      PassedAmong(replies, n) == QueriesPassedAmong(replies, n)
  {
    if n > 0 {
      PassedAtMostQueriesPassed(replies, n - 1);
    }
  }

  /** `runTests()`: `stamp` stands for `Date.now()` in the replay check's
      save name, and `first`, `save`, `list`, `replay` are that check's
      exchanges. Returns the summary, the exit status and every request sent. */
  method RunTests(cases: seq<TestCase>, replies: seq<CaseReplies>, stamp: string,
                  first: Reply, save: Reply, list: Reply, replay: Reply)
    returns (summary: Summary, exitCode: int, requests: seq<Request>)
    requires |cases| > 0 && |replies| == |cases|
    ensures var check := SaveAndReplay(cases[0], stamp, first, save, list, replay);
      && summary.total == |cases| + 1
      && summary.passed + summary.failed == summary.total
      && summary.passed == PassedAmong(replies, |cases|) + (if Passed(check.verdict) then 1 else 0)
      && requests == RequestsAmong(cases, replies, |cases|) + check.requests
    ensures exitCode == if summary.failed > 0 then 1 else 0
    ensures exitCode == 0 <==>
      (forall i :: 0 <= i < |cases| ==> CasePassed(replies[i])) &&
      Passed(SaveAndReplay(cases[0], stamp, first, save, list, replay).verdict)
  {
    var passed, failed := 0, 0;
    requests := [];
    for i := 0 to |cases|
      invariant passed == PassedAmong(replies, i)
      invariant passed + failed == i
      invariant requests == RequestsAmong(cases, replies, i)
    {
      var test := cases[i];
      var response := replies[i].query;
      requests := requests + [Query(test.payload)];
      if response.Received? && response.ok && Truthy(OwnField(response.body, "success")) {
        requests := requests + [Save(SaveBodyFor(test, test.name, AUTO_DESCRIPTION))];
        var saveRes := replies[i].save;
        if saveRes.Raised? || saveRes.body.Null? {
          // The save exchange threw, or `saveData.success` was read from `null`.
          failed := failed + 1;
        } else if Truthy(OwnField(saveRes.body, "success")) && StringConversionThrows(OwnField(saveRes.body, "id")) {
          failed := failed + 1;
        } else if !ReportCompleted(response.body) {
          failed := failed + 1;
        } else {
          passed := passed + 1;
        }
      } else {
        failed := failed + 1;
      }
    }
    var check := SaveAndReplay(cases[0], stamp, first, save, list, replay);
    requests := requests + check.requests;
    if Passed(check.verdict) {
      passed := passed + 1;
    } else {
      failed := failed + 1;
    }
    summary := Summary(|cases| + 1, passed, failed);
    exitCode := if failed > 0 then 1 else 0;
    AllPassedIff(replies, |cases|);
  }
}
