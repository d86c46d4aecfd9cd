/** The crowdfunding contract as the frontend reads it: a snapshot of its storage, and the set
    of reads that throw instead of answering (an unreachable node, a rejected call). */
module Chain {
  import opened Outcomes
  import opened Text

  type Address = string

  /** The tuple `getProject(i)` returns. */
  datatype Project = Project(
    founder: Address,
    name: string,
    description: string,
    requiredFunding: nat,   // wei
    currentFunding: nat,    // wei
    isActive: bool,
    projectInvestors: seq<Address>)

  /** The tuple `getUserInfo(a)` returns: name, role, telegram handle, registered flag. */
  datatype UserInfo = UserInfo(name: string, role: string, telegram: string, registered: bool)

  /** One view call of the contract. */
  datatype Read =
    | CountRead
    | ProjectRead(index: nat)
    | InvestmentRead(index: nat, who: Address)
    | UserRead(who: Address)

  /** `projects` holds the projects by index; `stakes` and `users` are the contract's mappings,
      keyed by the lower-cased address (an address is a 20-byte value, so the case of its
      hexadecimal text does not matter to the contract); `faults` lists the reads that throw. */
  datatype Chain = Chain(
    projects: seq<Project>,
    stakes: map<(nat, Address), nat>,
    users: map<Address, UserInfo>,
    faults: set<Read>)

  /** `investments(i, who)` as stored: a missing mapping entry reads as zero. */
  function StakeOf(c: Chain, i: nat, who: Address): nat
  {
    var key := (i, Lower(who));
    if key in c.stakes then c.stakes[key] else 0
  }

  /** `getUserInfo(who)` as stored: an unregistered address reads as the empty record. */
  function UserOf(c: Chain, who: Address): UserInfo
  {
    var key := Lower(who);
    if key in c.users then c.users[key] else UserInfo("", "", "", false)
  }

  /** `getProjectCount()` against the snapshot. */
  function GetProjectCount(c: Chain): Result<nat>
  {
    if CountRead in c.faults then Failed else Ok(|c.projects|)
  }

  /** `getProject(i)`; an index past the last project reverts. */
  function GetProject(c: Chain, i: nat): Result<Project>
  {
    if ProjectRead(i) in c.faults || i >= |c.projects| then Failed else Ok(c.projects[i])
  }

  /** `investments(i, who)` against the snapshot. */
  function GetInvestment(c: Chain, i: nat, who: Address): Result<nat>
  {
    if InvestmentRead(i, who) in c.faults then Failed else Ok(StakeOf(c, i, who))
  }

  /** `getUserInfo(who)` against the snapshot. */
  function GetUserInfo(c: Chain, who: Address): Result<UserInfo>
  {
    if UserRead(who) in c.faults then Failed else Ok(UserOf(c, who))
  }
}
