/**
 * The verification step of `testWithAvailableFields`: the `forEach` over the
 * detailed rows that groups invoices by customer id into a dictionary of
 * entries { name, invoices, total }, and the label printed for each
 * aggregation row.
 *
 * Rows are decoded invoices: the customer id already converted to the string
 * that keys a JavaScript object, the name as a JavaScript value, and the
 * amount as an integer.
 */
module CustomerGroups {
  import opened JsValues

  /** Keys that a `{}` literal inherits from `Object.prototype`: reading one
      of them yields a truthy value that is not an entry. */
  const INHERITED_KEYS: set<string> := {
    "constructor", "__proto__", "hasOwnProperty", "isPrototypeOf",
    "propertyIsEnumerable", "toString", "toLocaleString", "valueOf",
    "__defineGetter__", "__defineSetter__", "__lookupGetter__", "__lookupSetter__"
  }

  /** `invoicesByCustomer[key]` finds a value that `{}` inherits. */
  predicate Inherited(key: string) {
    key in INHERITED_KEYS
  }

  datatype Invoice = Invoice(customerId: string, customersName: Value, totalAmount: int)

  /** One dictionary entry: the customer's name, the amounts in row order,
      and their running total. */
  datatype Group = Group(name: Value, invoices: seq<int>, total: int)

  /** `result.detailed_data`: `Missing` stands for any falsy value. */
  datatype Detailed = Missing | Rows(rows: seq<Invoice>)

  /** The step's outcome: skipped because there are no rows, the grouped
      dictionary, or a TypeError that ended the step. */
  datatype Grouping = Skipped | Grouped(groups: map<string, Group>) | Threw

  /** `invoice.customers_name || 'Unknown'`. */
  function NameOf(row: Invoice): (n: Value)
    ensures Truthy(n)
    ensures n == row.customersName || n == UNKNOWN
    ensures Truthy(row.customersName) <==> n == row.customersName
  {
    Or(row.customersName, UNKNOWN)
  }

  /** The iteration for `row` throws: pushing onto an inherited value of
      `invoicesByCustomer[customerId]`, or converting the name to text in the
      per-invoice message (the id is a string and the amount a number, so
      those two always convert). */
  predicate RowThrows(row: Invoice) {
    Inherited(row.customerId) || StringConversionThrows(NameOf(row))
  }

  function Sum(xs: seq<int>): int {
    if xs == [] then 0 else Sum(xs[..|xs| - 1]) + xs[|xs| - 1]
  }

  /** Every row's amount, in row order. */
  function Amounts(rows: seq<Invoice>): seq<int> {
    if rows == [] then [] else Amounts(rows[..|rows| - 1]) + [rows[|rows| - 1].totalAmount]
  }

  /** The amounts of the rows whose customer id is `id`, in row order. */
  function AmountsOf(rows: seq<Invoice>, id: string): seq<int> {
    if rows == [] then []
    else
      var last := rows[|rows| - 1];
      AmountsOf(rows[..|rows| - 1], id) + if last.customerId == id then [last.totalAmount] else []
  }

  /** The customer ids that occur in the rows. */
  function Ids(rows: seq<Invoice>): set<string> {
    set j | 0 <= j < |rows| :: rows[j].customerId
  }

  /** Row `j` is the first row of its customer. */
  predicate IsFirstOf(rows: seq<Invoice>, j: nat)
    requires j < |rows|
  {
    forall k :: 0 <= k < j ==> rows[k].customerId != rows[j].customerId
  }

  /** One entry per customer id that occurs in the rows. */
  predicate KeysMatch(rows: seq<Invoice>, groups: map<string, Group>) {
    groups.Keys == Ids(rows)
  }

  /** Each entry lists its customer's amounts in row order. */
  predicate AmountsMatch(rows: seq<Invoice>, groups: map<string, Group>) {
    forall id :: id in groups ==> groups[id].invoices == AmountsOf(rows, id)
  }

  /** Each entry's total is the sum of its list. */
  predicate TotalsMatch(groups: map<string, Group>) {
    forall id :: id in groups ==> groups[id].total == Sum(groups[id].invoices)
  }

  /** Each entry is named after its customer's first row. */
  predicate NamesMatch(rows: seq<Invoice>, groups: map<string, Group>) {
    forall j :: 0 <= j < |rows| && IsFirstOf(rows, j) ==>
      rows[j].customerId in groups && groups[rows[j].customerId].name == NameOf(rows[j])
  }

  /** What the dictionary holds after the rows: one entry per customer id
      that occurs, whose amounts are that customer's in row order, whose
      total is their sum, and whose name comes from the customer's first row. */
  predicate IsGrouping(rows: seq<Invoice>, groups: map<string, Group>) {
    KeysMatch(rows, groups) && AmountsMatch(rows, groups) && TotalsMatch(groups) && NamesMatch(rows, groups)
  }

  lemma SumAppend(xs: seq<int>, x: int)
    ensures Sum(xs + [x]) == Sum(xs) + x
  {
    assert (xs + [x])[..|xs|] == xs;
  }

  /** A customer that does not occur has no amounts. */
  lemma {:induction false} AmountsOfAbsent(rows: seq<Invoice>, id: string)
    requires id !in Ids(rows)
    ensures AmountsOf(rows, id) == []
  {
    if rows != [] {
      var init := rows[..|rows| - 1];
      assert Ids(init) <= Ids(rows) by {
        forall x | x in Ids(init) ensures x in Ids(rows) {
          var j :| 0 <= j < |init| && init[j].customerId == x;
          assert rows[j].customerId == x;
        }
      }
      AmountsOfAbsent(init, id);
      assert rows[|rows| - 1].customerId in Ids(rows);
    }
  }

  lemma IdsAppend(rows: seq<Invoice>, i: nat)
    requires i < |rows|
    ensures Ids(rows[..i + 1]) == Ids(rows[..i]) + {rows[i].customerId}
  {
    var p, q := rows[..i], rows[..i + 1];
    forall x | x in Ids(q) ensures x in Ids(p) + {rows[i].customerId} {
      var j :| 0 <= j < |q| && q[j].customerId == x;
      if j < i { assert p[j] == q[j]; }
    }
    forall x | x in Ids(p) + {rows[i].customerId} ensures x in Ids(q) {
      if x == rows[i].customerId {
        assert q[i].customerId == x;
      } else {
        var j :| 0 <= j < |p| && p[j].customerId == x;
        assert q[j] == p[j];
      }
    }
  }

  /** The entry the `forEach` keeps for `row`'s customer after the row:
      the existing entry, or a fresh one named after `row`, with the amount
      pushed and added to the total. */
  function AddRow(groups: map<string, Group>, row: Invoice): map<string, Group> {
    var entry := if row.customerId in groups then groups[row.customerId] else Group(NameOf(row), [], 0);
    groups[row.customerId := Group(entry.name, entry.invoices + [row.totalAmount], entry.total + row.totalAmount)]
  }

  lemma StepAmounts(rows: seq<Invoice>, i: nat, groups: map<string, Group>)
    requires i < |rows|
    requires KeysMatch(rows[..i], groups) && AmountsMatch(rows[..i], groups) && TotalsMatch(groups)
    ensures AmountsMatch(rows[..i + 1], AddRow(groups, rows[i])) && TotalsMatch(AddRow(groups, rows[i]))
  {
    var p, q, row := rows[..i], rows[..i + 1], rows[i];
    var next := AddRow(groups, row);
    assert q[..i] == p;
    forall id | id in next
      ensures next[id].invoices == AmountsOf(q, id)
      ensures next[id].total == Sum(next[id].invoices)
    {
      if id == row.customerId {
        var before := if id in groups then groups[id].invoices else [];
        if id !in groups {
          AmountsOfAbsent(p, id);
        }
        assert AmountsOf(q, id) == AmountsOf(p, id) + [row.totalAmount];
        SumAppend(before, row.totalAmount);
      } else {
        assert AmountsOf(q, id) == AmountsOf(p, id) + [];
      }
    }
  }

  lemma StepNames(rows: seq<Invoice>, i: nat, groups: map<string, Group>)
    requires i < |rows|
    requires KeysMatch(rows[..i], groups) && NamesMatch(rows[..i], groups)
    ensures NamesMatch(rows[..i + 1], AddRow(groups, rows[i]))
  {
    var p, q, row := rows[..i], rows[..i + 1], rows[i];
    var next := AddRow(groups, row);
    forall j | 0 <= j < |q| && IsFirstOf(q, j)
      ensures q[j].customerId in next && next[q[j].customerId].name == NameOf(q[j])
    {
      if j < i {
        assert p[j] == q[j];
        assert IsFirstOf(p, j) by {
          forall k | 0 <= k < j ensures p[k].customerId != p[j].customerId {
            assert p[k] == q[k];
          }
        }
      } else {
        assert q[j] == row;
        forall k | 0 <= k < i ensures p[k].customerId != row.customerId {
          assert p[k] == q[k];
        }
        assert row.customerId !in Ids(p);
      }
    }
  }

  /** The dictionary after the `forEach` has visited `rows`, one `AddRow`
      per row in row order. */
  function GroupRows(rows: seq<Invoice>): map<string, Group> {
    if rows == [] then map[] else AddRow(GroupRows(rows[..|rows| - 1]), rows[|rows| - 1])
  }

  /** Adding row `i` to a grouping of the rows before it, as one iteration
      of the `forEach` does, gives a grouping of the rows up to `i`. */
  lemma GroupingStep(rows: seq<Invoice>, i: nat, groups: map<string, Group>)
    requires i < |rows|
    requires IsGrouping(rows[..i], groups)
    ensures IsGrouping(rows[..i + 1], AddRow(groups, rows[i]))
  {
    IdsAppend(rows, i);
    assert KeysMatch(rows[..i + 1], AddRow(groups, rows[i]));
    StepAmounts(rows, i, groups);
    StepNames(rows, i, groups);
  }

  /** One more row is one more `AddRow`. */
  lemma GroupRowsSnoc(rows: seq<Invoice>, i: nat)
    requires i < |rows|
    ensures GroupRows(rows[..i + 1]) == AddRow(GroupRows(rows[..i]), rows[i])
  {
    assert rows[..i + 1][..i] == rows[..i];
  }

  lemma EmptyGrouping()
    ensures IsGrouping([], map[])
  {
    assert Ids([]) == {};
  }

  /** The fold builds a grouping of the rows. */
  lemma {:induction false} GroupRowsIsGrouping(rows: seq<Invoice>)
    ensures IsGrouping(rows, GroupRows(rows))
  {
    if rows == [] {
      EmptyGrouping();
    } else {
      var n := |rows| - 1;
      GroupRowsIsGrouping(rows[..n]);
      GroupingStep(rows, n, GroupRows(rows[..n]));
      assert rows[..n + 1] == rows;
    }
  }

  /** The `forEach` callback for a row whose iteration does not throw: the
      customer's entry is created on first sight, then the amount is pushed
      and added to the total; every other entry stays as it was. */
  method Visit(invoicesByCustomer: map<string, Group>, invoice: Invoice) returns (next: map<string, Group>)
    ensures next == AddRow(invoicesByCustomer, invoice)
    ensures next.Keys == invoicesByCustomer.Keys + {invoice.customerId}
    ensures forall k :: k in invoicesByCustomer && k != invoice.customerId ==> next[k] == invoicesByCustomer[k]
  {
    var customerId := invoice.customerId;
    var customerName := NameOf(invoice);
    // A new customer's entry starts as { name, invoices: [], total: 0 }.
    var entry := if customerId in invoicesByCustomer then invoicesByCustomer[customerId]
                 else Group(customerName, [], 0);
    next := invoicesByCustomer[customerId :=
      Group(entry.name, entry.invoices + [invoice.totalAmount], entry.total + invoice.totalAmount)];
  }

  /** The step guarded by `detailed_data && detailed_data.length > 0`. It
      stops with a TypeError at the first row whose iteration throws, and
      otherwise returns the dictionary the `forEach` builds. */
  method GroupByCustomer(detailed: Detailed) returns (o: Grouping)
    ensures o.Skipped? <==> detailed.Missing? || |detailed.rows| == 0
    ensures o.Threw? <==>
      detailed.Rows? && exists j :: 0 <= j < |detailed.rows| && RowThrows(detailed.rows[j])
    ensures o.Grouped? ==> o.groups == GroupRows(detailed.rows) && IsGrouping(detailed.rows, o.groups)
  {
    if detailed.Missing? || |detailed.rows| == 0 {
      return Skipped;
    }
    var rows := detailed.rows;
    var invoicesByCustomer: map<string, Group> := map[];
    var i := 0;
    while i < |rows|
      invariant 0 <= i <= |rows|
      invariant forall j :: 0 <= j < i ==> !RowThrows(rows[j])
      invariant invoicesByCustomer == GroupRows(rows[..i])
    {
      var invoice := rows[i];
      if RowThrows(invoice) {
        // Either `invoicesByCustomer[customerId].invoices` is undefined and
        // `push` throws, or the per-invoice message after the update cannot
        // convert the name to text. The dictionary is discarded either way,
        // so the update in between is not observable.
        return Threw;
      }
      GroupRowsSnoc(rows, i);
      invoicesByCustomer := Visit(invoicesByCustomer, invoice);
      i := i + 1;
    }
    assert rows[..|rows|] == rows;
    GroupRowsIsGrouping(rows);
    return Grouped(invoicesByCustomer);
  }

  /** Amounts keep their row order: the amounts of a longer run of rows are
      those of its first part followed by those of the rest. */
  lemma {:induction false} AmountsOfConcat(rows: seq<Invoice>, rest: seq<Invoice>, id: string)
    ensures AmountsOf(rows + rest, id) == AmountsOf(rows, id) + AmountsOf(rest, id)
  {
    if rest == [] {
      assert rows + rest == rows;
    } else {
      var init := rest[..|rest| - 1];
      assert (rows + rest)[..|rows + rest| - 1] == rows + init;
      assert (rows + rest)[|rows + rest| - 1] == rest[|rest| - 1];
      AmountsOfConcat(rows, init, id);
    }
  }

  /** The customer ids in the order of their first row. */
  function FirstSeenIds(rows: seq<Invoice>): (ids: seq<string>)
    ensures forall a, b :: 0 <= a < b < |ids| ==> ids[a] != ids[b]
    ensures forall id :: id in ids <==> id in Ids(rows)
  {
    if rows == [] then []
    else
      var init := rows[..|rows| - 1];
      var last := rows[|rows| - 1];
      var d := FirstSeenIds(init);
      IdsAppend(rows, |rows| - 1);
      assert rows[..|rows|] == rows;
      if last.customerId in d then d else d + [last.customerId]
  }

  /** The number of amounts over the given customers. */
  function CountAcross(groups: map<string, Group>, ids: seq<string>): int
    requires forall id :: id in ids ==> id in groups
  {
    if ids == [] then 0 else CountAcross(groups, ids[..|ids| - 1]) + |groups[ids[|ids| - 1]].invoices|
  }

  /** The sum of the totals over the given customers. */
  function TotalAcross(groups: map<string, Group>, ids: seq<string>): int
    requires forall id :: id in ids ==> id in groups
  {
    if ids == [] then 0 else TotalAcross(groups, ids[..|ids| - 1]) + groups[ids[|ids| - 1]].total
  }

  /** The number and the sum of the amounts of the given customers. */
  function CountOf(rows: seq<Invoice>, ids: seq<string>): int {
    if ids == [] then 0 else CountOf(rows, ids[..|ids| - 1]) + |AmountsOf(rows, ids[|ids| - 1])|
  }

  function TotalOf(rows: seq<Invoice>, ids: seq<string>): int {
    if ids == [] then 0 else TotalOf(rows, ids[..|ids| - 1]) + Sum(AmountsOf(rows, ids[|ids| - 1]))
  }

  /** One more row adds one amount to the customer it belongs to, if that
      customer is among `ids`, and nothing elsewhere. */
  lemma {:induction false} CountOfAppend(rows: seq<Invoice>, x: Invoice, ids: seq<string>)
    requires forall a, b :: 0 <= a < b < |ids| ==> ids[a] != ids[b]
    ensures CountOf(rows + [x], ids) == CountOf(rows, ids) + if x.customerId in ids then 1 else 0
  {
    if ids != [] {
      var init, k := ids[..|ids| - 1], ids[|ids| - 1];
      CountOfAppend(rows, x, init);
      AmountsOfLast(rows, x, k);
      assert x.customerId in ids <==> x.customerId in init || x.customerId == k;
      assert k !in init;
    }
  }

  /** One more row adds its amount to the total of the customer it belongs
      to, if that customer is among `ids`, and nothing elsewhere. */
  lemma {:induction false} TotalOfAppend(rows: seq<Invoice>, x: Invoice, ids: seq<string>)
    requires forall a, b :: 0 <= a < b < |ids| ==> ids[a] != ids[b]
    ensures TotalOf(rows + [x], ids) == TotalOf(rows, ids) + if x.customerId in ids then x.totalAmount else 0
  {
    if ids != [] {
      var init, k := ids[..|ids| - 1], ids[|ids| - 1];
      TotalOfAppend(rows, x, init);
      AmountsOfLast(rows, x, k);
      SumAppend(AmountsOf(rows, k), x.totalAmount);
      assert x.customerId in ids <==> x.customerId in init || x.customerId == k;
      assert k !in init;
    }
  }

  /** One more row extends its own customer's amounts, and only those. */
  lemma AmountsOfLast(rows: seq<Invoice>, x: Invoice, k: string)
    ensures x.customerId == k ==> AmountsOf(rows + [x], k) == AmountsOf(rows, k) + [x.totalAmount]
    ensures x.customerId != k ==> AmountsOf(rows + [x], k) == AmountsOf(rows, k)
  {
    assert (rows + [x])[..|rows|] == rows;
    if x.customerId != k {
      assert AmountsOf(rows + [x], k) == AmountsOf(rows, k) + [];
    }
  }

  /** Over the customers in first-seen order, the amounts number the rows. */
  lemma {:induction false} CountFirstSeen(rows: seq<Invoice>)
    ensures CountOf(rows, FirstSeenIds(rows)) == |rows|
  {
    if rows != [] {
      var init, x := rows[..|rows| - 1], rows[|rows| - 1];
      assert rows == init + [x];
      var d := FirstSeenIds(init);
      CountFirstSeen(init);
      CountOfAppend(init, x, d);
      if x.customerId !in d {
        NewCustomer(init, x, d);
        NewCustomerCount(init, x, d);
      }
    }
  }

  /** Over the customers in first-seen order, the amounts sum to the sum of
      all amounts. */
  lemma {:induction false} TotalFirstSeen(rows: seq<Invoice>)
    ensures TotalOf(rows, FirstSeenIds(rows)) == Sum(Amounts(rows))
  {
    if rows != [] {
      var init, x := rows[..|rows| - 1], rows[|rows| - 1];
      assert rows == init + [x];
      var d := FirstSeenIds(init);
      TotalFirstSeen(init);
      TotalOfAppend(init, x, d);
      SumAppend(Amounts(init), x.totalAmount);
      if x.customerId !in d {
        NewCustomer(init, x, d);
        NewCustomerTotal(init, x, d);
      }
    }
  }

  /** A row whose customer has not been seen adds that customer at the end
      of the first-seen order. */
  lemma NewCustomer(init: seq<Invoice>, x: Invoice, d: seq<string>)
    requires d == FirstSeenIds(init) && x.customerId !in d
    ensures FirstSeenIds(init + [x]) == d + [x.customerId]
  {
    var rows := init + [x];
    assert rows[..|rows| - 1] == init;
  }

  /** The only amount of a customer not seen before is the new row's. */
  lemma NewCustomerAmounts(init: seq<Invoice>, x: Invoice, d: seq<string>)
    requires d == FirstSeenIds(init) && x.customerId !in d
    ensures AmountsOf(init + [x], x.customerId) == [x.totalAmount]
  {
    AmountsOfAbsent(init, x.customerId);
    AmountsOfLast(init, x, x.customerId);
  }

  /** A customer not seen before brings one amount. */
  lemma NewCustomerCount(init: seq<Invoice>, x: Invoice, d: seq<string>)
    requires d == FirstSeenIds(init) && x.customerId !in d
    ensures CountOf(init + [x], d + [x.customerId]) == CountOf(init + [x], d) + 1
  {
    NewCustomerAmounts(init, x, d);
    assert (d + [x.customerId])[..|d|] == d;
  }

  /** A customer not seen before brings the new row's amount. */
  lemma NewCustomerTotal(init: seq<Invoice>, x: Invoice, d: seq<string>)
    requires d == FirstSeenIds(init) && x.customerId !in d
    ensures TotalOf(init + [x], d + [x.customerId]) == TotalOf(init + [x], d) + x.totalAmount
  {
    NewCustomerAmounts(init, x, d);
    assert (d + [x.customerId])[..|d|] == d;
    assert [x.totalAmount][..0] == [];
    assert Sum([x.totalAmount]) == x.totalAmount;
  }

  lemma {:induction false} AcrossIsOf(rows: seq<Invoice>, groups: map<string, Group>, ids: seq<string>)
    requires IsGrouping(rows, groups)
    requires forall id :: id in ids ==> id in groups
    ensures CountAcross(groups, ids) == CountOf(rows, ids)
    ensures TotalAcross(groups, ids) == TotalOf(rows, ids)
  {
    if ids != [] {
      AcrossIsOf(rows, groups, ids[..|ids| - 1]);
    }
  }

  /** Conservation: every row lands in exactly one entry, so the entries'
      lists hold as many amounts as there are rows, and their totals add up
      to the sum of all the rows' amounts. */
  lemma Conservation(rows: seq<Invoice>, groups: map<string, Group>)
    requires IsGrouping(rows, groups)
    ensures forall id :: id in FirstSeenIds(rows) <==> id in groups
    ensures CountAcross(groups, FirstSeenIds(rows)) == |rows|
    ensures TotalAcross(groups, FirstSeenIds(rows)) == Sum(Amounts(rows))
  {
    AcrossIsOf(rows, groups, FirstSeenIds(rows));
    CountFirstSeen(rows);
    TotalFirstSeen(rows);
  }

  /** A grouping of the rows is unique: whatever satisfies `IsGrouping` is
      the dictionary the `forEach` builds. */
  lemma GroupingIsUnique(rows: seq<Invoice>, g1: map<string, Group>, g2: map<string, Group>)
    requires IsGrouping(rows, g1) && IsGrouping(rows, g2)
    ensures g1 == g2
  {
    forall id | id in g1 ensures g1[id] == g2[id] {
      var j :| 0 <= j < |rows| && rows[j].customerId == id;
      var first := FirstOf(rows, j);
      assert g1[id].name == NameOf(rows[first]) == g2[id].name;
    }
  }

  /** The first row with the same customer as row `j`. */
  ghost function FirstOf(rows: seq<Invoice>, j: nat): (f: nat)
    requires j < |rows|
    ensures f <= j && rows[f].customerId == rows[j].customerId && IsFirstOf(rows, f)
    decreases j
  {
    if IsFirstOf(rows, j) then j
    else
      var k :| 0 <= k < j && rows[k].customerId == rows[j].customerId;
      FirstOf(rows, k)
  }

  /** The label of an aggregation row:
      `agg._id && agg._id.customer_id ? agg._id.customer_id : 'Unknown'`. */
  function AggregationLabel(agg: Json): (shown: Completion<Value>)
    ensures shown.Throws? <==> agg.Null?
    ensures shown.Normal? ==> Truthy(shown.value)
    ensures var id := OwnField(agg, "_id");
      && (shown.Normal? && !Truthy(id) ==> shown.value == UNKNOWN)
      && (shown.Normal? && Truthy(id) ==>
            var customerId := OwnField(id.json, "customer_id");
            shown.value == if Truthy(customerId) then customerId else UNKNOWN)
  {
    match GetProperty(Defined(agg), "_id")
    case Throws => Throws
    case Normal(id) =>
      if !Truthy(id) then Normal(UNKNOWN)
      else
        match GetProperty(id, "customer_id")
        case Throws => Throws
        case Normal(customerId) =>
          if Truthy(customerId) then Normal(customerId) else Normal(UNKNOWN)
  }
}
