/**
 * The save-and-replay consistency check of `testSaveAndReplay`: run a query,
 * save its filters and aggregation as a named configuration, look the saved
 * configuration up in the configuration list, replay it, and compare the two
 * results in two tiers (the serialised rows, then the counts).
 *
 * The four network exchanges are inputs, as `Reply` values; the check returns
 * its verdict together with the requests it issued, in order, so that what it
 * does NOT send after an early failure is part of the result.
 */
module SaveReplay {
  import opened JsValues

  const DATABASE := "salesDB"
  const REPLAY_DESCRIPTION := "Automated test save"

  /** A query body: `database`, `filters`, and the optional `aggregation`,
      `groupBy` and `having` clauses (an absent one is `Undefined`). */
  datatype Payload = Payload(
    database: string,
    filters: Value,
    aggregation: Value,
    groupBy: Value,
    having: Value)

  datatype TestCase = TestCase(name: string, payload: Payload)

  /** The body of a save-query-config request. */
  datatype SaveBody = SaveBody(name: string, description: string, filters: Value, aggregation: Value)

  /** A request the harness sends: a query, a save, or a fetch of the list. */
  datatype Request = Query(payload: Payload) | Save(body: SaveBody) | ListConfigs

  /** One `fetch` followed by `response.json()`: the HTTP `ok` flag and the
      parsed body, or `Raised` when the fetch or the parse threw. */
  datatype Reply = Received(ok: bool, body: Json) | Raised

  /** Why the check gave up before comparing: an exchange threw, a property
      was read from `null` (or `find` called on a non-array), the save was not
      reported successful, or the saved id was not in the list. */
  datatype Failure = Transport | TypeError | SaveRejected | ConfigMissing

  datatype Verdict =
    | Structural                                    // tier 1: same serialised rows
    | SameCount(count: Value)                       // tier 2: rows differ, counts agree
    | CountMismatch(original: Value, replayed: Value)
    | Aborted(failure: Failure)

  /** The boolean that `testSaveAndReplay` returns. */
  predicate Passed(v: Verdict) {
    v.Structural? || v.SameCount?
  }

  datatype Check = Check(verdict: Verdict, requests: seq<Request>)

  /** The save body built from a test case: its filters as they are, and its
      aggregation, or `[]` when the case has none (`aggregation || []`). */
  function SaveBodyFor(tc: TestCase, name: string, description: string): SaveBody {
    SaveBody(name, description, tc.payload.filters, Or(tc.payload.aggregation, Defined(Arr([]))))
  }

  /** The saved aggregation is the case's own when that is truthy, and `[]`
      otherwise; it is never absent, and saving it again changes nothing. */
  lemma SavedAggregation(tc: TestCase, name: string, description: string)
    ensures var b := SaveBodyFor(tc, name, description);
      && b.name == name && b.description == description
      && b.filters == tc.payload.filters
      && (Truthy(tc.payload.aggregation) ==> b.aggregation == tc.payload.aggregation)
      && (!Truthy(tc.payload.aggregation) ==> b.aggregation == Defined(Arr([])))
      && Truthy(b.aggregation)
      && SaveBodyFor(TestCase(tc.name, tc.payload.(aggregation := b.aggregation)), name, description) == b
  {
  }

  /** `c._id === id`, for a list element that is not `null`. */
  predicate Matches(c: Json, id: Value) {
    !c.Null? && StrictEquals(OwnField(c, "_id"), id)
  }

  /** The outcome of `configs.find(c => c._id === id)`: the index of the
      element found, no element, or a TypeError raised by the callback on a
      `null` element reached before any match. */
  datatype Search = Hit(index: nat) | Miss | Fault

  function Find(configs: seq<Json>, id: Value): (s: Search)
    ensures s.Hit? ==>
      && s.index < |configs| && Matches(configs[s.index], id)
      && forall j :: 0 <= j < s.index ==> !configs[j].Null? && !Matches(configs[j], id)
    ensures s.Miss? <==> forall j :: 0 <= j < |configs| ==> !configs[j].Null? && !Matches(configs[j], id)
    ensures s.Fault? ==>
      exists j :: 0 <= j < |configs| && configs[j].Null? &&
        forall k :: 0 <= k < j ==> !Matches(configs[k], id)
  {
    if configs == [] then Miss
    else if configs[0].Null? then Fault
    else if Matches(configs[0], id) then Hit(0)
    else
      var s := Find(configs[1..], id);
      assert forall j :: 1 <= j < |configs| ==> configs[j] == configs[1..][j - 1];
      match s
      case Hit(i) => Hit(i + 1)
      case Miss => Miss
      case Fault =>
        ghost var j :| 0 <= j < |configs[1..]| && configs[1..][j].Null? &&
          forall k :: 0 <= k < j ==> !Matches(configs[1..][k], id);
        assert configs[j + 1].Null?;
        Fault
  }

  /** `find` returns the first element that matches, provided the callback
      did not throw on an earlier element. */
  lemma {:induction false} FindFirst(configs: seq<Json>, id: Value, i: nat)
    requires i < |configs| && Matches(configs[i], id)
    requires forall j :: 0 <= j < i ==> !configs[j].Null? && !Matches(configs[j], id)
    ensures Find(configs, id) == Hit(i)
  {
    if i > 0 {
      assert forall j :: 1 <= j < |configs| ==> configs[j] == configs[1..][j - 1];
      FindFirst(configs[1..], id, i - 1);
    }
  }

  /** The replay query: the constant database, with the filters and the
      aggregation read from the retrieved configuration. */
  function ReplayPayload(saved: Json): Payload {
    Payload(DATABASE, OwnField(saved, "filters"), OwnField(saved, "aggregation"), Undefined, Undefined)
  }

  /** `r.primary || r.fallback` on a parsed body; reading from `null` throws. */
  function Either(r: Json, primary: string, fallback: string): (c: Completion<Value>)
    ensures c.Throws? <==> r.Null?
  {
    if r.Null? then Throws else Normal(Or(OwnField(r, primary), OwnField(r, fallback)))
  }

  /** The rows a result carries: `data || detailed_data`. */
  function Rows(r: Json): Completion<Value> {
    Either(r, "data", "detailed_data")
  }

  /** The count a result carries: `count || detailed_count`. */
  function Count(r: Json): Completion<Value> {
    Either(r, "count", "detailed_count")
  }

  /** A count of `0` is falsy and falls through to `detailed_count`, and an
      empty `data` array is truthy and is kept. */
  lemma FalsyCountFallsThrough(x: Json)
    ensures Count(Obj([Property("count", Num(0)), Property("detailed_count", x)])) == Normal(Defined(x))
    ensures Rows(Obj([Property("data", Arr([])), Property("detailed_data", x)])) == Normal(Defined(Arr([])))
  {
    var props := [Property("count", Num(0)), Property("detailed_count", x)];
    assert props[1..] == [Property("detailed_count", x)];
    assert props[0].key != "detailed_count" by { assert |props[0].key| != |"detailed_count"|; }
    assert Lookup(props[1..], "detailed_count") == Defined(x);
    assert OwnField(Obj(props), "detailed_count") == Defined(x);
  }

  /** The two-tier comparison of the original and the replayed result. */
  function Compare(r1: Json, r2: Json): Verdict {
    match (Rows(r1), Rows(r2))
    case (Throws, _) => Aborted(TypeError)
    case (_, Throws) => Aborted(TypeError)
    case (Normal(d1), Normal(d2)) =>
      if Stringify(d1) == Stringify(d2) then Structural
      else
        match (Count(r1), Count(r2))
        case (Normal(n1), Normal(n2)) =>
          if StrictEquals(n1, n2) then SameCount(n1)
          // The mismatch message converts both counts to text.
          else if StringConversionThrows(n1) || StringConversionThrows(n2) then Aborted(TypeError)
          else CountMismatch(n1, n2)
        case _ => Aborted(TypeError)
  }

  /** The tiers: equal rows pass at once; otherwise the check passes exactly
      when the counts are `===`-equal. It gives up on a `null` body, and on
      differing counts one of which cannot be converted to text; otherwise a
      failure reports both counts. */
  lemma CompareTiers(r1: Json, r2: Json)
    ensures r1.Null? || r2.Null? ==> Compare(r1, r2) == Aborted(TypeError)
    ensures !r1.Null? && !r2.Null? ==>
      var d1, d2 := Rows(r1).value, Rows(r2).value;
      var n1, n2 := Count(r1).value, Count(r2).value;
      && (Compare(r1, r2) == Structural <==> d1 == d2)
      && (d1 != d2 ==> (Passed(Compare(r1, r2)) <==> StrictEquals(n1, n2)))
      && (d1 != d2 && !StrictEquals(n1, n2) ==>
           (Compare(r1, r2).Aborted? <==> StringConversionThrows(n1) || StringConversionThrows(n2)))
      && (d1 != d2 && !StrictEquals(n1, n2) && !Compare(r1, r2).Aborted? ==> Compare(r1, r2) == CountMismatch(n1, n2))
  {
    if !r1.Null? && !r2.Null? {
      StringifyInjective(Rows(r1).value, Rows(r2).value);
    }
  }

  /** When the rows agree, the counts are never consulted: results that carry
      the same rows get the same verdict, whatever their counts. */
  lemma Tier1IgnoresCounts(r1: Json, r2: Json, s1: Json, s2: Json)
    requires Rows(r1) == Rows(s1) && Rows(r2) == Rows(s2)
    requires Compare(r1, r2) == Structural
    ensures Compare(s1, s2) == Structural
  {
    assert Rows(r1).Normal? && Rows(r2).Normal?;
  }

  /** Replaying a result that did not change passes at tier 1, and whether
      the check passes does not depend on which result came first. */
  lemma CompareReflexiveAndSymmetric(r1: Json, r2: Json)
    ensures !r1.Null? ==> Compare(r1, r1) == Structural
    ensures Passed(Compare(r1, r2)) <==> Passed(Compare(r2, r1))
  {
    CompareTiers(r1, r2);
    CompareTiers(r2, r1);
  }

  /** The part of `testSaveAndReplay` after the save's reply `saved` arrived:
      the check of `success`, the list fetch, the search and the replay.
      Returns the verdict and the requests sent in this part. */
  function AfterSave(original: Json, saved: Json, list: Reply, replay: Reply): (t: Check)
    ensures |t.requests| <= 2
    ensures |t.requests| >= 1 ==> t.requests[0] == ListConfigs
    ensures |t.requests| == 2 ==> t.requests[1].Query? && t.requests[1].payload.database == DATABASE
    ensures Passed(t.verdict) ==> |t.requests| == 2 && replay.Received? && t.verdict == Compare(original, replay.body)
    ensures t.verdict == Aborted(SaveRejected) ==> |t.requests| == 0
    ensures t.verdict == Aborted(ConfigMissing) ==> |t.requests| == 1
  {
    match GetProperty(Defined(saved), "success")
    case Throws => Check(Aborted(TypeError), [])
    case Normal(success) =>
      if !Truthy(success) then Check(Aborted(SaveRejected), [])
      else
        var configId := OwnField(saved, "id");
        // The confirmation message converts the id to text.
        if StringConversionThrows(configId) then Check(Aborted(TypeError), [])
        else if list.Raised? then Check(Aborted(Transport), [ListConfigs])
        else
          match GetProperty(Defined(list.body), "configs")
          case Throws => Check(Aborted(TypeError), [ListConfigs])
          case Normal(configs) =>
            if !(configs.Defined? && configs.json.Arr?) then Check(Aborted(TypeError), [ListConfigs])
            else
              var items := configs.json.items;
              match Find(items, configId)
              case Fault => Check(Aborted(TypeError), [ListConfigs])
              case Miss => Check(Aborted(ConfigMissing), [ListConfigs])
              case Hit(i) =>
                if !Truthy(Defined(items[i])) then Check(Aborted(ConfigMissing), [ListConfigs])
                else
                  var sent := [ListConfigs, Query(ReplayPayload(items[i]))];
                  if replay.Raised? then Check(Aborted(Transport), sent)
                  else Check(Compare(original, replay.body), sent)
  }

  /** `testSaveAndReplay(tc)`: `stamp` stands for `Date.now()` in the save
      name; `first`, `save`, `list` and `replay` are the four exchanges. */
  function SaveAndReplay(tc: TestCase, stamp: string, first: Reply, save: Reply, list: Reply, replay: Reply): (c: Check)
    ensures 1 <= |c.requests| <= 4
    ensures c.requests[0] == Query(tc.payload)
    ensures |c.requests| >= 2 ==> c.requests[1] == Save(SaveBodyFor(tc, "Test-" + stamp, REPLAY_DESCRIPTION))
    ensures |c.requests| >= 3 ==> c.requests[2] == ListConfigs
    ensures |c.requests| == 4 ==> c.requests[3].Query? && c.requests[3].payload.database == DATABASE
    ensures Passed(c.verdict) ==> |c.requests| == 4 && first.Received? && replay.Received? && c.verdict == Compare(first.body, replay.body)
    ensures c.verdict == Aborted(SaveRejected) ==> |c.requests| == 2
    ensures c.verdict == Aborted(ConfigMissing) ==> |c.requests| == 3
  {
    var original := Query(tc.payload);
    var saving := Save(SaveBodyFor(tc, "Test-" + stamp, REPLAY_DESCRIPTION));
    if first.Raised? then Check(Aborted(Transport), [original])
    else if save.Raised? then Check(Aborted(Transport), [original, saving])
    else
      var rest := AfterSave(first.body, save.body, list, replay);
      Check(rest.verdict, [original, saving] + rest.requests)
  }

  /** A save whose `success` is falsy ends the check as failed, before the
      list is fetched and before the replay; that is the only way the check
      ends with `SaveRejected`. */
  lemma SaveRejectionIsFatal(tc: TestCase, stamp: string, first: Reply, save: Reply, list: Reply, replay: Reply)
    ensures var c := SaveAndReplay(tc, stamp, first, save, list, replay);
      c.verdict == Aborted(SaveRejected) <==>
        first.Received? && save.Received? && !save.body.Null? && !Truthy(OwnField(save.body, "success"))
    ensures var c := SaveAndReplay(tc, stamp, first, save, list, replay);
      c.verdict == Aborted(SaveRejected) ==>
        !Passed(c.verdict) && c.requests == [Query(tc.payload), Save(SaveBodyFor(tc, "Test-" + stamp, REPLAY_DESCRIPTION))]
  {
  }

  /** A list in which no element carries the returned id ends the check as
      failed, after the list fetch and without a replay. */
  lemma MissingConfigIsFatal(tc: TestCase, stamp: string, first: Reply, save: Reply, list: Reply, replay: Reply)
    requires first.Received? && save.Received? && Truthy(OwnField(save.body, "success"))
    requires !StringConversionThrows(OwnField(save.body, "id"))
    requires list.Received? && OwnField(list.body, "configs").Defined?
    requires OwnField(list.body, "configs").json.Arr?
    requires var items := OwnField(list.body, "configs").json.items;
      forall j :: 0 <= j < |items| ==> !items[j].Null? && !Matches(items[j], OwnField(save.body, "id"))
    ensures var c := SaveAndReplay(tc, stamp, first, save, list, replay);
      c.verdict == Aborted(ConfigMissing) && c.requests == [Query(tc.payload), Save(SaveBodyFor(tc, "Test-" + stamp, REPLAY_DESCRIPTION)), ListConfigs]
  {
    assert !save.body.Null?;
    assert !list.body.Null?;
  }

  /** Whatever else the list holds (a `null` element makes the callback
      throw), a list without an element carrying the returned id never lets
      the check pass, and no replay is sent. */
  lemma NoMatchNeverPasses(tc: TestCase, stamp: string, first: Reply, save: Reply, list: Reply, replay: Reply)
    requires save.Received? && list.Received? && !list.body.Null?
    requires OwnField(list.body, "configs").Defined? && OwnField(list.body, "configs").json.Arr?
    requires var items := OwnField(list.body, "configs").json.items;
      forall j :: 0 <= j < |items| ==> !Matches(items[j], OwnField(save.body, "id"))
    ensures var c := SaveAndReplay(tc, stamp, first, save, list, replay);
      !Passed(c.verdict) && |c.requests| <= 3
  {
  }

  /** A saved id that cannot be converted to text makes the confirmation
      message throw: the check fails before the list is fetched. */
  lemma UnprintableIdIsFatal(tc: TestCase, stamp: string, first: Reply, save: Reply, list: Reply, replay: Reply)
    requires first.Received? && save.Received? && Truthy(OwnField(save.body, "success"))
    requires StringConversionThrows(OwnField(save.body, "id"))
    ensures var c := SaveAndReplay(tc, stamp, first, save, list, replay);
      c.verdict == Aborted(TypeError) && |c.requests| == 2
  {
    assert !save.body.Null?;
  }

  /** A pass means the list held the saved configuration: `find` hit an
      element that is truthy, and that element is what was replayed. */
  lemma PassFoundConfig(tc: TestCase, stamp: string, first: Reply, save: Reply, list: Reply, replay: Reply)
    requires Passed(SaveAndReplay(tc, stamp, first, save, list, replay).verdict)
    ensures save.Received? && Truthy(OwnField(save.body, "success")) && !StringConversionThrows(OwnField(save.body, "id"))
    ensures list.Received? && OwnField(list.body, "configs").Defined? && OwnField(list.body, "configs").json.Arr?
    ensures var items := OwnField(list.body, "configs").json.items;
      var f := Find(items, OwnField(save.body, "id"));
      && f.Hit? && Truthy(Defined(items[f.index]))
      && SaveAndReplay(tc, stamp, first, save, list, replay).requests[3] == Query(ReplayPayload(items[f.index]))
  {
  }

  /** The replay sends the FIRST listed configuration whose `_id` is the
      returned id: the constant database with that configuration's filters
      and aggregation, whatever the test case held. */
  lemma ReplayUsesRetrievedConfig(tc: TestCase, stamp: string, first: Reply, save: Reply, list: Reply, replay: Reply, i: nat)
    requires first.Received? && save.Received? && Truthy(OwnField(save.body, "success"))
    requires !StringConversionThrows(OwnField(save.body, "id"))
    requires list.Received? && OwnField(list.body, "configs").Defined?
    requires OwnField(list.body, "configs").json.Arr?
    requires var items := OwnField(list.body, "configs").json.items;
      && i < |items| && Matches(items[i], OwnField(save.body, "id")) && Truthy(Defined(items[i]))
      && forall j :: 0 <= j < i ==> !items[j].Null? && !Matches(items[j], OwnField(save.body, "id"))
    ensures var c := SaveAndReplay(tc, stamp, first, save, list, replay);
      var saved := OwnField(list.body, "configs").json.items[i];
      && |c.requests| == 4
      && c.requests[3] == Query(Payload(DATABASE, OwnField(saved, "filters"), OwnField(saved, "aggregation"), Undefined, Undefined))
      && (replay.Received? ==> c.verdict == Compare(first.body, replay.body))
      && (replay.Raised? ==> c.verdict == Aborted(Transport))
  {
    assert !save.body.Null?;
    assert !list.body.Null?;
    FindFirst(OwnField(list.body, "configs").json.items, OwnField(save.body, "id"), i);
  }

  /** The verdict depends on the four replies only: a different test case or
      save name changes the first two requests and nothing else. */
  lemma VerdictIgnoresTestCase(tc1: TestCase, tc2: TestCase, stamp1: string, stamp2: string, first: Reply, save: Reply, list: Reply, replay: Reply)
    ensures var c1 := SaveAndReplay(tc1, stamp1, first, save, list, replay);
      var c2 := SaveAndReplay(tc2, stamp2, first, save, list, replay);
      && c1.verdict == c2.verdict
      && |c1.requests| == |c2.requests|
      && forall k :: 2 <= k < |c1.requests| ==> c1.requests[k] == c2.requests[k]
  {
    if first.Received? && save.Received? {
      var rest := AfterSave(first.body, save.body, list, replay);
      var c1 := SaveAndReplay(tc1, stamp1, first, save, list, replay);
      var c2 := SaveAndReplay(tc2, stamp2, first, save, list, replay);
      assert c1.requests[2..] == rest.requests == c2.requests[2..];
    }
  }
}
