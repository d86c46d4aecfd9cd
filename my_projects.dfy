/** The founder's project overview (MyProjects.jsx): every project the connected account
    founded, each with the investors whose stake in it is positive. */
module MyProjects {
  import opened Outcomes
  import opened Text
  import opened Chain

  /** One investor row (lines 30-35); the amount is in wei. */
  datatype InvestorEntry = InvestorEntry(address: Address, name: string, telegram: string, amount: nat)

  /** One project row (lines 39-47); funding amounts are in wei. */
  datatype ProjectEntry = ProjectEntry(
    id: nat,
    name: string,
    description: string,
    requiredFunding: nat,
    currentFunding: nat,
    isActive: bool,
    investors: seq<InvestorEntry>)

  // ---------------------------------------------------------------- what a fault-free fetch lists

  /** The addresses of `addrs` with a positive stake in project `i`, in their order. */
  function Backers(c: Chain, i: nat, addrs: seq<Address>): seq<Address>
    decreases |addrs|
  {
    if addrs == [] then []
    else
      var n := |addrs| - 1;
      Backers(c, i, addrs[..n]) + if StakeOf(c, i, addrs[n]) > 0 then [addrs[n]] else []
  }

  /** The row of investor `a` of project `i`: their registered name and handle and their stake. */
  function InvestorEntryOf(c: Chain, i: nat, a: Address): InvestorEntry
  {
    InvestorEntry(a, UserOf(c, a).name, UserOf(c, a).telegram, StakeOf(c, i, a))
  }

  /** The investor rows of project `i`: one per backer, in the order of `addrs`. */
  function ExpectedInvestors(c: Chain, i: nat, addrs: seq<Address>): (rows: seq<InvestorEntry>)
    ensures |rows| == |Backers(c, i, addrs)|
    ensures forall k :: 0 <= k < |rows| ==> rows[k] == InvestorEntryOf(c, i, Backers(c, i, addrs)[k])
  {
    var b := Backers(c, i, addrs);
    seq(|b|, k requires 0 <= k < |b| => InvestorEntryOf(c, i, b[k]))
  }

  /** The row of project `i`. */
  function ExpectedEntry(c: Chain, i: nat): ProjectEntry
    requires i < |c.projects|
  {
    var p := c.projects[i];
    ProjectEntry(i, p.name, p.description, p.requiredFunding, p.currentFunding, p.isActive,
                 ExpectedInvestors(c, i, p.projectInvestors))
  }

  /** What project `i` adds to the list: its row when `account` founded it, nothing otherwise. */
  function ExpectedRow(c: Chain, account: Address, i: nat): seq<ProjectEntry>
    requires i < |c.projects|
  {
    if SameAddress(c.projects[i].founder, account) then [ExpectedEntry(c, i)] else []
  }

  /** The rows of the projects below index `n` that `account` founded, by index. */
  function Expected(c: Chain, account: Address, n: nat): seq<ProjectEntry>
    requires n <= |c.projects|
  {
    if n == 0 then [] else Expected(c, account, n - 1) + ExpectedRow(c, account, n - 1)
  }

  // ---------------------------------------------------------------- the reads a fetch issues

  /** The reads the investor loop of project `i` issues for investor `a`. */
  function InvestorReadsOf(c: Chain, i: nat, a: Address): set<Read>
  {
    {InvestmentRead(i, a)} + if StakeOf(c, i, a) > 0 then {UserRead(a)} else {}
  }

  /** The reads the investor loop of project `i` issues when none of them throws. */
  function InvestorReads(c: Chain, i: nat, addrs: seq<Address>): set<Read>
    decreases |addrs|
  {
    if addrs == [] then {}
    else
      var n := |addrs| - 1;
      InvestorReads(c, i, addrs[..n]) + InvestorReadsOf(c, i, addrs[n])
  }

  /** The reads the project loop issues for index `i` when none of them throws. */
  function RowReads(c: Chain, account: Address, i: nat): set<Read>
    requires i < |c.projects|
  {
    var p := c.projects[i];
    {ProjectRead(i)} + if SameAddress(p.founder, account) then InvestorReads(c, i, p.projectInvestors) else {}
  }

  /** The reads the project loop issues for the indices below `n` when none of them throws. */
  function ProjectReads(c: Chain, account: Address, n: nat): set<Read>
    requires n <= |c.projects|
  {
    if n == 0 then {} else ProjectReads(c, account, n - 1) + RowReads(c, account, n - 1)
  }

  function FetchReads(c: Chain, account: Address): set<Read>
  {
    {CountRead} + ProjectReads(c, account, |c.projects|)
  }

  // ---------------------------------------------------------------- the fetch, read by read

  /** One pass of the inner loop (lines 27-36): the stake of `a`, and their profile when the
      stake is positive. */
  function CollectInvestor(c: Chain, i: nat, a: Address): (r: Result<seq<InvestorEntry>>)
    ensures r.Ok? ==> |r.value| <= 1 && forall e :: e in r.value ==> e.address == a && e.amount > 0
  {
    match GetInvestment(c, i, a)
    case Failed => Failed
    case Ok(amount) =>
      if amount > 0 then
        match GetUserInfo(c, a)
        case Failed => Failed
        case Ok(user) => Ok([InvestorEntry(a, user.name, user.telegram, amount)])
      else Ok([])
  }

  /** The inner loop (lines 26-37) over `addrs`; the first read that throws aborts it. */
  function CollectInvestors(c: Chain, i: nat, addrs: seq<Address>): (r: Result<seq<InvestorEntry>>)
    ensures r.Ok? ==> |r.value| <= |addrs| && forall e :: e in r.value ==> e.address in addrs && e.amount > 0
    decreases |addrs|
  {
    if addrs == [] then Ok([])
    else
      var n := |addrs| - 1;
      match CollectInvestors(c, i, addrs[..n])
      case Failed => Failed
      case Ok(rows) =>
        match CollectInvestor(c, i, addrs[n])
        case Failed => Failed
        case Ok(row) => Ok(rows + row)
  }

  /** One pass of the outer loop (lines 18-48): the project, and its row when the account
      founded it. */
  function CollectRow(c: Chain, account: Address, i: nat): (r: Result<seq<ProjectEntry>>)
    ensures r.Ok? ==> |r.value| <= 1
    ensures r.Ok? && r.value != [] ==>
              i < |c.projects| && SameAddress(c.projects[i].founder, account) && r.value[0].id == i
  {
    match GetProject(c, i)
    case Failed => Failed
    case Ok(p) =>
      if SameAddress(p.founder, account) then
        match CollectInvestors(c, i, p.projectInvestors)
        case Failed => Failed
        case Ok(investors) =>
          Ok([ProjectEntry(i, p.name, p.description, p.requiredFunding, p.currentFunding, p.isActive, investors)])
      else Ok([])
  }

  /** The outer loop (lines 17-49) over the indices below `n`. */
  function CollectProjects(c: Chain, account: Address, n: nat): (r: Result<seq<ProjectEntry>>)
    ensures r.Ok? ==> |r.value| <= n && forall e :: e in r.value ==> e.id < n
  {
    if n == 0 then Ok([])
    else
      match CollectProjects(c, account, n - 1)
      case Failed => Failed
      case Ok(rows) =>
        match CollectRow(c, account, n - 1)
        case Failed => Failed
        case Ok(row) => Ok(rows + row)
  }

  /** The whole of `fetchProjects` (lines 14-51) as a value: `Failed` when a read threw. */
  function Projects(c: Chain, account: Address): (r: Result<seq<ProjectEntry>>)
    ensures r.Ok? ==> CountRead !in c.faults && |r.value| <= |c.projects|
  {
    match GetProjectCount(c)
    case Failed => Failed
    case Ok(n) => CollectProjects(c, account, n)
  }

  /** `fetchProjects` (lines 10-58): the loop over the project indices, pushing a row for
      every project the account founded. */
  method FetchProjects(c: Chain, account: Address) returns (r: Result<seq<ProjectEntry>>)
    ensures r == Projects(c, account)
  {
    var count := GetProjectCount(c);
    if count.Failed? {
      return Failed;
    }
    var userProjects: seq<ProjectEntry> := [];
    var i := 0;
    while i < count.value
      invariant 0 <= i <= count.value == |c.projects|
      invariant CollectProjects(c, account, i) == Ok(userProjects)
    {
      var project := GetProject(c, i);
      if project.Failed? {
        ProjectsFailureSticks(c, account, i + 1, count.value);
        return Failed;
      }
      var p := project.value;
      if SameAddress(p.founder, account) {
        var investors := FetchInvestors(c, i, p.projectInvestors);
        if investors.Failed? {
          ProjectsFailureSticks(c, account, i + 1, count.value);
          return Failed;
        }
        var entry := ProjectEntry(i, p.name, p.description, p.requiredFunding, p.currentFunding,
                                  p.isActive, investors.value);
        userProjects := userProjects + [entry];
      } else {
        assert userProjects + [] == userProjects;
      }
      i := i + 1;
    }
    return Ok(userProjects);
  }

  /** The inner loop of `fetchProjects` (lines 23-37): the investors of project `i` whose stake
      is positive, each with their profile. */
  method FetchInvestors(c: Chain, i: nat, addrs: seq<Address>) returns (r: Result<seq<InvestorEntry>>)
    ensures r == CollectInvestors(c, i, addrs)
  {
    var investors: seq<InvestorEntry> := [];
    var k := 0;
    while k < |addrs|
      invariant 0 <= k <= |addrs|
      invariant CollectInvestors(c, i, addrs[..k]) == Ok(investors)
    {
      var a := addrs[k];
      InvestorsStep(c, i, addrs, k);
      var amount := GetInvestment(c, i, a);
      if amount.Failed? {
        InvestorsFailureSticks(c, i, addrs, k + 1);
        return Failed;
      }
      if amount.value > 0 {
        var user := GetUserInfo(c, a);
        if user.Failed? {
          InvestorsFailureSticks(c, i, addrs, k + 1);
          return Failed;
        }
        investors := investors + [InvestorEntry(a, user.value.name, user.value.telegram, amount.value)];
      } else {
        assert investors + [] == investors;
      }
      k := k + 1;
    }
    assert addrs[..k] == addrs;
    return Ok(investors);
  }

  /** The investor loop over the first k + 1 addresses is the loop over the first k followed
      by one more pass. */
  lemma InvestorsStep(c: Chain, i: nat, addrs: seq<Address>, k: nat)
    requires k < |addrs|
    ensures CollectInvestors(c, i, addrs[..k + 1]) ==
            match CollectInvestors(c, i, addrs[..k])
            case Failed => Failed
            case Ok(rows) =>
              match CollectInvestor(c, i, addrs[k])
              case Failed => Failed
              case Ok(row) => Ok(rows + row)
  {
    assert addrs[..k + 1][..k] == addrs[..k];
  }

  // ---------------------------------------------------------------- what the fetch answers

  lemma CollectInvestorSpec(c: Chain, i: nat, a: Address)
    ensures CollectInvestor(c, i, a) ==
            if InvestorReadsOf(c, i, a) !! c.faults
            then Ok(if StakeOf(c, i, a) > 0 then [InvestorEntryOf(c, i, a)] else [])
            else Failed
  {
  }

  /** The investor loop succeeds exactly when none of its reads throws, and then lists the
      backers. */
  lemma {:induction false} CollectInvestorsSpec(c: Chain, i: nat, addrs: seq<Address>)
    ensures CollectInvestors(c, i, addrs) ==
            if InvestorReads(c, i, addrs) !! c.faults then Ok(ExpectedInvestors(c, i, addrs)) else Failed
    decreases |addrs|
  {
    if addrs != [] {
      var n := |addrs| - 1;
      CollectInvestorsSpec(c, i, addrs[..n]);
      CollectInvestorSpec(c, i, addrs[n]);
      var before := ExpectedInvestors(c, i, addrs[..n]);
      var after := ExpectedInvestors(c, i, addrs);
      if StakeOf(c, i, addrs[n]) > 0 {
        assert after == before + [InvestorEntryOf(c, i, addrs[n])];
      } else {
        assert after == before + [];
      }
    }
  }

  lemma CollectRowSpec(c: Chain, account: Address, i: nat)
    requires i < |c.projects|
    ensures CollectRow(c, account, i) ==
            if RowReads(c, account, i) !! c.faults then Ok(ExpectedRow(c, account, i)) else Failed
  {
    CollectInvestorsSpec(c, i, c.projects[i].projectInvestors);
  }

  /** The project loop succeeds exactly when none of its reads throws, and then lists the
      account's projects. */
  lemma {:induction false} CollectProjectsSpec(c: Chain, account: Address, n: nat)
    requires n <= |c.projects|
    ensures CollectProjects(c, account, n) ==
            if ProjectReads(c, account, n) !! c.faults then Ok(Expected(c, account, n)) else Failed
  {
    if n > 0 {
      CollectProjectsSpec(c, account, n - 1);
      CollectRowSpec(c, account, n - 1);
    }
  }

  /** Failure isolation does not exist here: the fetch answers `Ok` exactly when no read it
      issues throws, and then answers the fault-free list. */
  lemma ProjectsSpec(c: Chain, account: Address)
    ensures Projects(c, account) ==
            if FetchReads(c, account) !! c.faults then Ok(Expected(c, account, |c.projects|)) else Failed
  {
    CollectProjectsSpec(c, account, |c.projects|);
  }

  /** On a chain where no read throws, the overview lists exactly the account's projects. */
  lemma NoFaultNoError(c: Chain, account: Address)
    requires c.faults == {}
    ensures Projects(c, account) == Ok(Expected(c, account, |c.projects|))
  {
    ProjectsSpec(c, account);
  }

  /** Once a read of the investor loop threw, the loop's answer stays `Failed`. */
  lemma {:induction false} InvestorsFailureSticks(c: Chain, i: nat, addrs: seq<Address>, k: nat)
    requires k <= |addrs| && CollectInvestors(c, i, addrs[..k]).Failed?
    ensures CollectInvestors(c, i, addrs).Failed?
    decreases |addrs| - k
  {
    if k < |addrs| {
      assert addrs[..k + 1][..k] == addrs[..k];
      InvestorsFailureSticks(c, i, addrs, k + 1);
    } else {
      assert addrs[..k] == addrs;
    }
  }

  /** Once a read of the project loop threw, the loop's answer stays `Failed`. */
  lemma {:induction false} ProjectsFailureSticks(c: Chain, account: Address, m: nat, n: nat)
    requires m <= n && CollectProjects(c, account, m).Failed?
    ensures CollectProjects(c, account, n).Failed?
    decreases n - m
  {
    if m < n {
      ProjectsFailureSticks(c, account, m + 1, n);
    }
  }

  /** Some row of `rows` has id `i`. */
  predicate Listed(rows: seq<ProjectEntry>, i: nat)
  {
    exists k :: 0 <= k < |rows| && rows[k].id == i
  }

  lemma ListedAppend(a: seq<ProjectEntry>, b: seq<ProjectEntry>, i: nat)
    ensures Listed(a + b, i) <==> Listed(a, i) || Listed(b, i)
  {
    if Listed(a, i) {
      var k :| 0 <= k < |a| && a[k].id == i;
      assert (a + b)[k] == a[k];
    }
    if Listed(b, i) {
      var k :| 0 <= k < |b| && b[k].id == i;
      assert (a + b)[|a| + k] == b[k];
    }
    if Listed(a + b, i) {
      var k :| 0 <= k < |a + b| && (a + b)[k].id == i;
      if k < |a| {
        assert a[k] == (a + b)[k];
      } else {
        assert b[k - |a|] == (a + b)[k];
      }
    }
  }

  /** A project is listed exactly when the account founded it, compared case-insensitively. */
  lemma {:induction false} ListedIffFounder(c: Chain, account: Address, n: nat, i: nat)
    requires n <= |c.projects|
    ensures Listed(Expected(c, account, n), i) <==> i < n && SameAddress(c.projects[i].founder, account)
  {
    if n > 0 {
      ListedIffFounder(c, account, n - 1, i);
      ListedAppend(Expected(c, account, n - 1), ExpectedRow(c, account, n - 1), i);
      var row := ExpectedRow(c, account, n - 1);
      if row != [] {
        assert row == [ExpectedEntry(c, n - 1)];
        assert Listed(row, i) <==> i == n - 1 by {
          if i == n - 1 {
            assert row[0].id == i;
          }
        }
      }
    }
  }

  /** Every row is the row of the project at its index, below `n`. */
  lemma {:induction false} RowsAreEntries(c: Chain, account: Address, n: nat)
    requires n <= |c.projects|
    ensures forall k :: 0 <= k < |Expected(c, account, n)| ==>
              Expected(c, account, n)[k].id < n && Expected(c, account, n)[k] == ExpectedEntry(c, Expected(c, account, n)[k].id)
  {
    if n > 0 {
      RowsAreEntries(c, account, n - 1);
      var before := Expected(c, account, n - 1);
      var row := ExpectedRow(c, account, n - 1);
      var rows := Expected(c, account, n);
      assert rows == before + row;
      forall k | 0 <= k < |rows|
        ensures rows[k].id < n && rows[k] == ExpectedEntry(c, rows[k].id)
      {
        if k >= |before| {
          assert row == [ExpectedEntry(c, n - 1)];
          assert rows[k] == ExpectedEntry(c, n - 1);
        } else {
          assert rows[k] == before[k];
          assert before[k].id < n - 1 && before[k] == ExpectedEntry(c, before[k].id);
        }
      }
    }
  }

  /** The rows come in strictly ascending index order. */
  lemma {:induction false} RowsAscending(c: Chain, account: Address, n: nat)
    requires n <= |c.projects|
    ensures forall j, k :: 0 <= j < k < |Expected(c, account, n)| ==>
              Expected(c, account, n)[j].id < Expected(c, account, n)[k].id
  {
    if n > 0 {
      RowsAscending(c, account, n - 1);
      RowsAreEntries(c, account, n - 1);
      var before := Expected(c, account, n - 1);
      var row := ExpectedRow(c, account, n - 1);
      var rows := Expected(c, account, n);
      assert rows == before + row;
      forall j, k | 0 <= j < k < |rows|
        ensures rows[j].id < rows[k].id
      {
        assert rows[j] == before[j];
        assert before[j].id < n - 1;
        if k >= |before| {
          assert row == [ExpectedEntry(c, n - 1)];
          assert rows[k] == ExpectedEntry(c, n - 1);
        } else {
          assert rows[k] == before[k];
        }
      }
    }
  }

  /** An investor is listed exactly when their stake in the project is positive. */
  lemma {:induction false} BackerIffStake(c: Chain, i: nat, addrs: seq<Address>, a: Address)
    ensures a in Backers(c, i, addrs) <==> a in addrs && StakeOf(c, i, a) > 0
    decreases |addrs|
  {
    if addrs != [] {
      var n := |addrs| - 1;
      BackerIffStake(c, i, addrs[..n], a);
      assert addrs == addrs[..n] + [addrs[n]];
    }
  }

  /** The backers of one address: the address itself when its stake is positive. */
  lemma BackersOfOne(c: Chain, i: nat, a: Address)
    ensures Backers(c, i, [a]) == if StakeOf(c, i, a) > 0 then [a] else []
  {
    assert [a][..0] == [];
  }

  /** The backers of `a + b` are the backers of `a` followed by those of `b`: with
      `BackersOfOne`, the backers are the positive-stake addresses of `projectInvestors`
      kept in exactly their order and multiplicity. */
  lemma {:induction false} BackersAppend(c: Chain, i: nat, a: seq<Address>, b: seq<Address>)
    ensures Backers(c, i, a + b) == Backers(c, i, a) + Backers(c, i, b)
    decreases |b|
  {
    if b == [] {
      assert a + b == a;
    } else {
      var n := |b| - 1;
      assert (a + b)[..|a + b| - 1] == a + b[..n];
      assert (a + b)[|a + b| - 1] == b[n];
      BackersAppend(c, i, a, b[..n]);
    }
  }

  /** A founded project with no positive stake is still listed, with an empty investor list. */
  lemma {:induction false} NoBackersNoRows(c: Chain, i: nat, addrs: seq<Address>)
    requires forall a :: a in addrs ==> StakeOf(c, i, a) == 0
    ensures ExpectedInvestors(c, i, addrs) == []
    decreases |addrs|
  {
    if addrs != [] {
      var n := |addrs| - 1;
      assert addrs[n] in addrs;
      forall a | a in addrs[..n] ensures StakeOf(c, i, a) == 0 {
        assert a in addrs;
      }
      NoBackersNoRows(c, i, addrs[..n]);
    }
  }

  // ---------------------------------------------------------------- the panel

  /** The three state cells of the overview (lines 5-7). */
  class ProjectsPanel {
    var projects: seq<ProjectEntry>
    var loading: bool
    var error: string

    constructor ()
      ensures projects == [] && loading && error == ""
    {
      projects := [];
      loading := true;
      error := "";
    }

    /** The effect (lines 9-63): nothing happens without a contract or an account; otherwise
        the fetch runs, a failure sets the error message and keeps the old list, and loading
        ends either way. */
    method Refresh(hasContract: bool, account: Address, c: Chain)
      modifies this
      ensures !hasContract || account == "" ==>
                projects == old(projects) && loading == old(loading) && error == old(error)
      ensures hasContract && account != "" ==>
                && !loading
                && (Projects(c, account).Ok? ==> projects == Projects(c, account).value && error == "")
                && (Projects(c, account).Failed? ==>
                      projects == old(projects) && error == "Error loading projects. Please try again.")
    {
      if !hasContract || account == "" {
        return;
      }
      loading := true;
      error := "";
      var r := FetchProjects(c, account);
      if r.Ok? {
        projects := r.value;
      } else {
        error := "Error loading projects. Please try again.";
      }
      loading := false;
    }
  }
}
