/** The investor's portfolio (MyInvestments.jsx): every project in which the connected
    account holds a positive stake, with the founder's profile. There is no founder filter. */
module MyInvestments {
  import opened Outcomes
  import opened Chain

  /** One portfolio row (lines 24-33); the amount is in wei. */
  datatype InvestmentEntry = InvestmentEntry(
    id: nat,
    name: string,
    description: string,
    amount: nat,
    founder: Address,
    founderName: string,
    founderTelegram: string,
    isActive: bool)

  // ---------------------------------------------------------------- what a fault-free fetch lists

  /** The row of project `i`: the account's stake in it and its founder's profile. */
  function ExpectedEntry(c: Chain, account: Address, i: nat): InvestmentEntry
    requires i < |c.projects|
  {
    var p := c.projects[i];
    InvestmentEntry(i, p.name, p.description, StakeOf(c, i, account), p.founder,
                    UserOf(c, p.founder).name, UserOf(c, p.founder).telegram, p.isActive)
  }

  /** What project `i` adds to the list: its row when the account's stake is positive. */
  function ExpectedRow(c: Chain, account: Address, i: nat): seq<InvestmentEntry>
    requires i < |c.projects|
  {
    if StakeOf(c, i, account) > 0 then [ExpectedEntry(c, account, i)] else []
  }

  /** The rows of the projects below index `n` the account holds a stake in, by index. */
  function Expected(c: Chain, account: Address, n: nat): seq<InvestmentEntry>
    requires n <= |c.projects|
  {
    if n == 0 then [] else Expected(c, account, n - 1) + ExpectedRow(c, account, n - 1)
  }

  // ---------------------------------------------------------------- the reads a fetch issues

  /** The reads the loop issues for index `i` when none of them throws. */
  function RowReads(c: Chain, account: Address, i: nat): set<Read>
    requires i < |c.projects|
  {
    {InvestmentRead(i, account)} +
    if StakeOf(c, i, account) > 0 then {ProjectRead(i), UserRead(c.projects[i].founder)} else {}
  }

  /** The reads the loop issues for the indices below `n` when none of them throws. */
  function LoopReads(c: Chain, account: Address, n: nat): set<Read>
    requires n <= |c.projects|
  {
    if n == 0 then {} else LoopReads(c, account, n - 1) + RowReads(c, account, n - 1)
  }

  function FetchReads(c: Chain, account: Address): set<Read>
  {
    {CountRead} + LoopReads(c, account, |c.projects|)
  }

  // ---------------------------------------------------------------- the fetch, read by read

  /** One pass of the loop (lines 18-34): the stake, then the project and its founder's
      profile when the stake is positive. */
  function CollectRow(c: Chain, account: Address, i: nat): (r: Result<seq<InvestmentEntry>>)
    ensures r.Ok? ==> |r.value| <= 1
    ensures r.Ok? && r.value != [] ==> r.value[0].id == i && r.value[0].amount == StakeOf(c, i, account) > 0
  {
    match GetInvestment(c, i, account)
    case Failed => Failed
    case Ok(amount) =>
      if amount > 0 then
        match GetProject(c, i)
        case Failed => Failed
        case Ok(p) =>
          match GetUserInfo(c, p.founder)
          case Failed => Failed
          case Ok(founder) =>
            Ok([InvestmentEntry(i, p.name, p.description, amount, p.founder, founder.name, founder.telegram,
                                p.isActive)])
      else Ok([])
  }

  /** The loop (lines 17-35) over the indices below `n`; the first read that throws aborts it. */
  function CollectInvestments(c: Chain, account: Address, n: nat): (r: Result<seq<InvestmentEntry>>)
    ensures r.Ok? ==> |r.value| <= n && forall e :: e in r.value ==> e.id < n && e.amount > 0
  {
    if n == 0 then Ok([])
    else
      match CollectInvestments(c, account, n - 1)
      case Failed => Failed
      case Ok(rows) =>
        match CollectRow(c, account, n - 1)
        case Failed => Failed
        case Ok(row) => Ok(rows + row)
  }

  /** The whole of `fetchInvestments` (lines 14-37) as a value: `Failed` when a read threw. */
  function Investments(c: Chain, account: Address): (r: Result<seq<InvestmentEntry>>)
    ensures r.Ok? ==> CountRead !in c.faults && |r.value| <= |c.projects|
  {
    match GetProjectCount(c)
    case Failed => Failed
    case Ok(n) => CollectInvestments(c, account, n)
  }

  /** `fetchInvestments` (lines 10-44): the loop over the project indices, pushing a row for
      every project with a positive stake. */
  method FetchInvestments(c: Chain, account: Address) returns (r: Result<seq<InvestmentEntry>>)
    ensures r == Investments(c, account)
  {
    var count := GetProjectCount(c);
    if count.Failed? {
      return Failed;
    }
    var userInvestments: seq<InvestmentEntry> := [];
    var i := 0;
    while i < count.value
      invariant 0 <= i <= count.value == |c.projects|
      invariant CollectInvestments(c, account, i) == Ok(userInvestments)
    {
      var amount := GetInvestment(c, i, account);
      if amount.Failed? {
        FailureSticks(c, account, i + 1, count.value);
        return Failed;
      }
      if amount.value > 0 {
        var project := GetProject(c, i);
        if project.Failed? {
          FailureSticks(c, account, i + 1, count.value);
          return Failed;
        }
        var p := project.value;
        var founder := GetUserInfo(c, p.founder);
        if founder.Failed? {
          FailureSticks(c, account, i + 1, count.value);
          return Failed;
        }
        userInvestments := userInvestments +
          [InvestmentEntry(i, p.name, p.description, amount.value, p.founder, founder.value.name,
                           founder.value.telegram, p.isActive)];
      } else {
        assert userInvestments + [] == userInvestments;
      }
      i := i + 1;
    }
    return Ok(userInvestments);
  }

  // ---------------------------------------------------------------- what the fetch answers

  lemma CollectRowSpec(c: Chain, account: Address, i: nat)
    requires i < |c.projects|
    ensures CollectRow(c, account, i) ==
            if RowReads(c, account, i) !! c.faults then Ok(ExpectedRow(c, account, i)) else Failed
  {
  }

  /** The loop succeeds exactly when none of its reads throws, and then lists the account's
      investments. */
  lemma {:induction false} CollectInvestmentsSpec(c: Chain, account: Address, n: nat)
    requires n <= |c.projects|
    ensures CollectInvestments(c, account, n) ==
            if LoopReads(c, account, n) !! c.faults then Ok(Expected(c, account, n)) else Failed
  {
    if n > 0 {
      CollectInvestmentsSpec(c, account, n - 1);
      CollectRowSpec(c, account, n - 1);
    }
  }

  /** The fetch answers `Ok` exactly when no read it issues throws, and then answers the
      fault-free list: one throwing read anywhere loses the whole list. */
  lemma InvestmentsSpec(c: Chain, account: Address)
    ensures Investments(c, account) ==
            if FetchReads(c, account) !! c.faults then Ok(Expected(c, account, |c.projects|)) else Failed
  {
    CollectInvestmentsSpec(c, account, |c.projects|);
  }

  /** On a chain where no read throws, the portfolio lists exactly the account's stakes. */
  lemma NoFaultNoError(c: Chain, account: Address)
    requires c.faults == {}
    ensures Investments(c, account) == Ok(Expected(c, account, |c.projects|))
  {
    InvestmentsSpec(c, account);
  }

  /** Once a read threw, the loop's answer stays `Failed`. */
  lemma {:induction false} FailureSticks(c: Chain, account: Address, m: nat, n: nat)
    requires m <= n && CollectInvestments(c, account, m).Failed?
    ensures CollectInvestments(c, account, n).Failed?
    decreases n - m
  {
    if m < n {
      FailureSticks(c, account, m + 1, n);
    }
  }

  /** Some row of `rows` has id `i`. */
  predicate Listed(rows: seq<InvestmentEntry>, i: nat)
  {
    exists k :: 0 <= k < |rows| && rows[k].id == i
  }

  lemma ListedAppend(a: seq<InvestmentEntry>, b: seq<InvestmentEntry>, i: nat)
    ensures Listed(a + b, i) <==> Listed(a, i) || Listed(b, i)
  {
    if Listed(a, i) {
      var k :| 0 <= k < |a| && a[k].id == i;
      assert (a + b)[k] == a[k];
    }
    if Listed(b, i) {
      var k :| 0 <= k < |b| && b[k].id == i;
      assert (a + b)[|a| + k] == b[k];
    }
    if Listed(a + b, i) {
      var k :| 0 <= k < |a + b| && (a + b)[k].id == i;
      if k < |a| {
        assert a[k] == (a + b)[k];
      } else {
        assert b[k - |a|] == (a + b)[k];
      }
    }
  }

  /** A project is listed exactly when the account's stake in it is positive. */
  lemma {:induction false} ListedIffStake(c: Chain, account: Address, n: nat, i: nat)
    requires n <= |c.projects|
    ensures Listed(Expected(c, account, n), i) <==> i < n && StakeOf(c, i, account) > 0
  {
    if n > 0 {
      ListedIffStake(c, account, n - 1, i);
      ListedAppend(Expected(c, account, n - 1), ExpectedRow(c, account, n - 1), i);
      var row := ExpectedRow(c, account, n - 1);
      if row != [] {
        assert row == [ExpectedEntry(c, account, n - 1)];
        assert Listed(row, i) <==> i == n - 1 by {
          if i == n - 1 {
            assert row[0].id == i;
          }
        }
      }
    }
  }

  /** Every row is the row of the project at its index, below `n`: its amount is the
      account's stake and its founder the project's founder. */
  lemma {:induction false} RowsAreEntries(c: Chain, account: Address, n: nat)
    requires n <= |c.projects|
    ensures forall k :: 0 <= k < |Expected(c, account, n)| ==>
              Expected(c, account, n)[k].id < n &&
              Expected(c, account, n)[k] == ExpectedEntry(c, account, Expected(c, account, n)[k].id)
  {
    if n > 0 {
      RowsAreEntries(c, account, n - 1);
      var before := Expected(c, account, n - 1);
      var row := ExpectedRow(c, account, n - 1);
      var rows := Expected(c, account, n);
      assert rows == before + row;
      forall k | 0 <= k < |rows|
        ensures rows[k].id < n && rows[k] == ExpectedEntry(c, account, rows[k].id)
      {
        if k >= |before| {
          assert row == [ExpectedEntry(c, account, n - 1)];
          assert rows[k] == ExpectedEntry(c, account, n - 1);
        } else {
          assert rows[k] == before[k];
          assert before[k].id < n - 1 && before[k] == ExpectedEntry(c, account, before[k].id);
        }
      }
    }
  }

  /** The rows come in strictly ascending index order. */
  lemma {:induction false} RowsAscending(c: Chain, account: Address, n: nat)
    requires n <= |c.projects|
    ensures forall j, k :: 0 <= j < k < |Expected(c, account, n)| ==>
              Expected(c, account, n)[j].id < Expected(c, account, n)[k].id
  {
    if n > 0 {
      RowsAscending(c, account, n - 1);
      RowsAreEntries(c, account, n - 1);
      var before := Expected(c, account, n - 1);
      var row := ExpectedRow(c, account, n - 1);
      var rows := Expected(c, account, n);
      assert rows == before + row;
      forall j, k | 0 <= j < k < |rows|
        ensures rows[j].id < rows[k].id
      {
        assert rows[j] == before[j];
        assert before[j].id < n - 1;
        if k >= |before| {
          assert row == [ExpectedEntry(c, account, n - 1)];
          assert rows[k] == ExpectedEntry(c, account, n - 1);
        } else {
          assert rows[k] == before[k];
        }
      }
    }
  }

  // ---------------------------------------------------------------- the panel

  /** The three state cells of the portfolio (lines 5-7). */
  class InvestmentsPanel {
    var investments: seq<InvestmentEntry>
    var loading: bool
    var error: string

    constructor ()
      ensures investments == [] && loading && error == ""
    {
      investments := [];
      loading := true;
      error := "";
    }

    /** The effect (lines 9-49): nothing happens without a contract or an account; otherwise
        the fetch runs, a failure sets the error message and keeps the old list, and loading
        ends either way. */
    method Refresh(hasContract: bool, account: Address, c: Chain)
      modifies this
      ensures !hasContract || account == "" ==>
                investments == old(investments) && loading == old(loading) && error == old(error)
      ensures hasContract && account != "" ==>
                && !loading
                && (Investments(c, account).Ok? ==> investments == Investments(c, account).value && error == "")
                && (Investments(c, account).Failed? ==>
                      investments == old(investments) && error == "Error loading investments. Please try again.")
    {
      if !hasContract || account == "" {
        return;
      }
      loading := true;
      error := "";
      var r := FetchInvestments(c, account);
      if r.Ok? {
        investments := r.value;
      } else {
        error := "Error loading investments. Please try again.";
      }
      loading := false;
    }
  }
}
