# Crowdfunding frontend: founder notifications and the project and investment lists

This project is a Dafny model of three React components of a crowdfunding dApp's frontend.

**Founder notification panel** (`Notifications.jsx`). While the connected user is a founder, the panel:

- listens for `ProjectFunded` events;
- backfills the events already on chain, stopping at the first entry it cannot decode;
- keys each log entry by `<transactionHash>-<logIndex>`;
- looks up the funded project for every event not yet processed or dismissed;
- shows a notification only when the connected account founded the project, comparing addresses case-insensitively;
- remembers which ids it has processed and which ids the user dismissed;
- stores the dismissed ids in the browser's local storage under `dismissedNotifications-<account>`.

**Project overview** (`MyProjects.jsx`) lists the projects the account founded. Each project carries the investors whose stake in it is positive.

**Portfolio** (`MyInvestments.jsx`) lists the projects in which the account holds a positive stake.

Modules:

- `Outcomes`: `Result` and `Option`.
- `Text`: ASCII lower-casing, address comparison, decimal formatting of an index and its parser.
- `Chain`: the contract as the frontend reads it. This is a snapshot of the project array, of the `investments` and user mappings (keyed by lower-cased address), and of the set of reads that throw.
- `EventIds`: the event key, and its inverse.
- `Ledger`: the notification list and the dismissed-id set as values. A JavaScript `Set` keeps insertion order, so the dismissed set is a sequence without repeats.
- `Session`: what `processFundingEvent`, the backfill loop, removal, clear-all and the effect cleanup do to the three state cells, as pure functions of the previous state. The properties of the pipeline are proved here.
- `Notifications`: the panel as a class. Its fields are the three state cells, local storage, and whether a listener is registered. Each method is proved to move the state exactly as the `Session` function says. Each method also keeps the invariant `Wellformed`:
  - ids are distinct on the list;
  - the dismissed ids have no repeats;
  - no dismissed id is listed;
  - every processed, undismissed id is listed.
- `MyProjects` and `MyInvestments`: the fetch loops as methods. Each is proved equal to a read-by-read function, and that function is proved equal to a fault-free reference list exactly when none of the reads it issues throws. The state cells are a small panel class.

## Model

| member | source | states |
|---|---|---|
| `EventIds.MakeId` | frontend/src/components/Notifications.jsx:87 | the key is the transaction hash, then `-`, then the log index in decimal |
| `EventIds.IdOf` | frontend/src/components/Notifications.jsx:87 | the key of a backfilled log entry and of a live one is built the same way from hash and index (no contract of its own; `IdRoundTrip` and `SameIdIffSameEntry` state what it keeps) |
| `EventIds.IdRoundTrip` | frontend/src/components/Notifications.jsx:87 | splitting a key at its last `-` gives back the hash and the index it was built from |
| `EventIds.SameIdIffSameEntry` | frontend/src/components/Notifications.jsx:99 | two log entries get the same key exactly when they share hash and index, so distinct entries never collide and an entry delivered twice in the same shape keys the same |
| `EventIds.DecodedPrefix` | frontend/src/components/Notifications.jsx:85-89 | the backfill handles the decoded entries before the first undecoded one, in order; that entry, if any, is undecoded |
| `EventIds.DecodedPrefixCut` | frontend/src/components/Notifications.jsx:86 | an undecoded entry at position k hides every entry from k on |
| `Text.DecimalRoundTrip` | frontend/src/components/Notifications.jsx:87 | the decimal rendering of the index parses back to the index |
| `Text.Lower` | frontend/src/components/Notifications.jsx:51 | lower-casing keeps the length and lower-cases each character in place, changing only `A`..`Z` |
| `Text.SameAddress` | frontend/src/components/MyProjects.jsx:21 | two addresses compare equal exactly when they have the same length and agree character by character up to case |
| `Text.LowerIdempotent` | frontend/src/components/Notifications.jsx:51 | lower-casing twice is lower-casing once |
| `Text.SameAddressIgnoresCase` | frontend/src/components/Notifications.jsx:51 | the founder comparison is symmetric and insensitive to the case of either side |
| `Ledger.Insert` | frontend/src/components/Notifications.jsx:59-65 | a new id goes in front of the list; an id already listed leaves the list unchanged; the id is listed afterwards |
| `Ledger.InsertIdempotent` | frontend/src/components/Notifications.jsx:59-65 | inserting a second notification with the same id changes nothing |
| `Ledger.Remove` | frontend/src/components/Notifications.jsx:124 | no entry with the removed id is left and the list does not grow |
| `Ledger.RemoveMembers` | frontend/src/components/Notifications.jsx:124 | an entry survives removal exactly when its id differs from the removed one |
| `Ledger.RemoveSplices` | frontend/src/components/Notifications.jsx:124 | in a list of distinct ids, removal cuts out exactly the entry with that id and keeps the others in relative order |
| `Ledger.RemoveAbsent` | frontend/src/components/Notifications.jsx:124 | removing an id that is not listed leaves the list as it was |
| `Ledger.RemoveKeepsDistinct` | frontend/src/components/Notifications.jsx:124 | removal keeps the ids of the list distinct |
| `Ledger.RemoveKeepsOtherIds` | frontend/src/components/Notifications.jsx:124 | every other listed id stays listed |
| `Ledger.Add` | frontend/src/components/Notifications.jsx:125 | the set afterwards holds the old members and the new id, the old members keep their order, at most one member is added, no repeats |
| `Ledger.AddAll` | frontend/src/components/Notifications.jsx:130 | the set afterwards holds exactly the old members and the added ids, the old members form its prefix, no repeats |
| `Ledger.Dedup` | frontend/src/components/Notifications.jsx:13 | `new Set(array)` holds exactly the array's members, without repeats |
| `Ledger.AddAllFresh` | frontend/src/components/Notifications.jsx:130 | adding ids that are all new appends them in their order |
| `Ledger.DedupOfDistinct` | frontend/src/components/Notifications.jsx:13 | reading back an array without repeats gives the same sequence |
| `Session.Step` | frontend/src/components/Notifications.jsx:36-75 | a processed or dismissed id, a failed lookup and a founder mismatch all leave the state unchanged; otherwise the id is listed and added to the processed set; the dismissed set never changes |
| `Session.StepPreserves` | frontend/src/components/Notifications.jsx:59-68 | a step adds at most one notification, in front and with the event's id, only grows the processed set, and keeps ids distinct |
| `Session.StepMarks` | frontend/src/components/Notifications.jsx:68 | a delivering, undismissed event is processed after its step |
| `Session.StepKeepsWellformed` | frontend/src/components/Notifications.jsx:36-75 | a step keeps the panel invariant |
| `Session.Handler` | frontend/src/components/Notifications.jsx:86-88 | the backfill's handler for one log entry is `processFundingEvent` with the entry's arguments and key (no contract of its own; `ReplayLast` states it) |
| `Session.Fold` | frontend/src/components/Notifications.jsx:85-89 | the entries are handled one at a time, in the order given (no contract of its own; `FoldAppend` states how it splits) |
| `Session.Replay` | frontend/src/components/Notifications.jsx:85-89 | the backfill of decoded entries (no contract of its own; the `Replay` lemmas below state its properties) |
| `Session.ReplayPreserves` | frontend/src/components/Notifications.jsx:85-89 | the backfill keeps the dismissed set, only prepends notifications, only grows the processed set and keeps ids distinct |
| `Session.FoldAppend` | frontend/src/components/Notifications.jsx:85-89 | handling `a + b` one event at a time is handling `a`, then `b` |
| `Session.ReplayAppend` | frontend/src/components/Notifications.jsx:85-89 | the backfill of `a + b` is the backfill of `a` followed by the backfill of `b` |
| `Session.FailedLookupIsSkipped` | frontend/src/components/Notifications.jsx:72-74 | an event whose project lookup throws has the same effect as if it were absent from the batch; the events before and after it are handled as without it |
| `Session.ReplayMarks` | frontend/src/components/Notifications.jsx:85-89 | after the backfill, every delivering, undismissed event of the batch is processed, whatever failed around it |
| `Session.ReplayDelivers` | frontend/src/components/Notifications.jsx:85-89 | starting from a state whose processed ids are listed, the backfill lists every delivering, undismissed event |
| `Session.StepListsOnlyDelivering` | frontend/src/components/Notifications.jsx:38-68 | an id a step lists that was not listed before is the step's own id, its event delivers to the account and the id was not dismissed |
| `Session.ReplayListsOnlyDelivering` | frontend/src/components/Notifications.jsx:85-89 | conversely to `ReplayDelivers`, every id the backfill adds is the key of an event of the batch that delivers to the account and was not dismissed |
| `Session.Backfill` | frontend/src/components/Notifications.jsx:78-93 | a backfill over the queried entries is the replay of the decoded prefix (no contract of its own; `BackfillStopsAtUndecoded` states its property) |
| `Session.BackfillStopsAtUndecoded` | frontend/src/components/Notifications.jsx:79-92 | an undecoded entry aborts the loop: the backfill equals the backfill of the entries before it, whatever follows |
| `Session.DismissedNeverReturns` | frontend/src/components/Notifications.jsx:38-41 | a dismissed id that is not listed is still not listed after any backfill |
| `Session.LiveRedeliveryIsIgnored` | frontend/src/components/Notifications.jsx:97-101 | a live delivery of an entry the backfill already turned into a notification changes nothing, whatever the chain answers by then |
| `Session.ReplayKeepsCoveredList` | frontend/src/components/Notifications.jsx:59-65 | once every delivering, undismissed event is listed, a backfill leaves the list unchanged |
| `Session.RestartKeepsList` | frontend/src/components/Notifications.jsx:109-113 | after a teardown, the backfill of the re-run effect adds no duplicate and leaves the list unchanged |
| `Session.Dismiss` | frontend/src/components/Notifications.jsx:123-126 | the id is no longer listed; the dismissed set afterwards holds exactly the old ids and this one, the old ids first and in their order; an entry stays exactly when its id differs; the processed set is unchanged |
| `Session.DismissKeepsWellformed` | frontend/src/components/Notifications.jsx:123-126 | removing a notification keeps the panel invariant |
| `Session.ClearAll` | frontend/src/components/Notifications.jsx:128-132 | the list empties; the dismissed set afterwards is exactly the old one plus every listed id, with the old members first |
| `Session.ClearAllInListOrder` | frontend/src/components/Notifications.jsx:129-130 | on a well-formed state the dismissed set afterwards is the old one followed by the listed ids in list order |
| `Session.Teardown` | frontend/src/components/Notifications.jsx:109-113 | the cleanup empties the processed set and keeps both the list and the dismissed set |
| `Session.MountWellformed` | frontend/src/components/Notifications.jsx:5-15 | the state the panel mounts with satisfies the panel invariant |
| `Session.ClearAllKeepsWellformed` | frontend/src/components/Notifications.jsx:128-132 | clearing all keeps the panel invariant |
| `Session.TeardownKeepsWellformed` | frontend/src/components/Notifications.jsx:109-113 | the cleanup keeps the panel invariant |
| `Session.DismissThenRedeliver` | frontend/src/components/Notifications.jsx:38-41 | after a dismissal, a later delivery of the same id, live or from a backfill, changes nothing |
| `Notifications.StorageKey` | frontend/src/components/Notifications.jsx:11 | the key ends with the account it is built from |
| `Notifications.StorageKeyInjective` | frontend/src/components/Notifications.jsx:21 | two accounts share a storage key exactly when they are the same account |
| `Notifications.Saved` | frontend/src/components/Notifications.jsx:18-25 | a non-empty set is written under the account's key, an empty one writes nothing, and every other key is left as it was |
| `Notifications.Loaded` | frontend/src/components/Notifications.jsx:10-15 | the mounted dismissed set has no repeats, is empty when nothing is stored, and otherwise holds exactly the stored ids |
| `Notifications.SaveThenLoad` | frontend/src/components/Notifications.jsx:18-25 | a non-empty dismissed set that is saved is read back as the same sequence; an empty one writes nothing and the old entry is read back |
| `Notifications.SaveKeepsOtherAccounts` | frontend/src/components/Notifications.jsx:20-23 | saving one account's set leaves every other account's stored set as it was |
| `Notifications.NotificationCenter.constructor` | frontend/src/components/Notifications.jsx:5-15 | the panel mounts with an empty list, an empty processed set, the stored dismissed set and no listener |
| `Notifications.NotificationCenter.SaveDismissed` | frontend/src/components/Notifications.jsx:18-25 | storage is updated as the save effect writes it; the state cells are untouched |
| `Notifications.NotificationCenter.ProcessFundingEvent` | frontend/src/components/Notifications.jsx:36-75 | the state cells move exactly as `Session.Step` says and the invariant is kept |
| `Notifications.NotificationCenter.FetchPastEvents` | frontend/src/components/Notifications.jsx:78-93 | the loop leaves the state `Session.Backfill` gives for the queried entries: the decoded ones before the first undecoded entry, in order; a failed query changes nothing |
| `Notifications.NotificationCenter.HandleNewEvent` | frontend/src/components/Notifications.jsx:97-101 | with a listener registered, a live event is one `Session.Step` with the key built as the backfill builds it; without one, nothing changes |
| `Notifications.NotificationCenter.Start` | frontend/src/components/Notifications.jsx:27-106 | without a contract or for a non-founder, nothing happens; otherwise the listener is registered and the backfill of `Session.Backfill` runs |
| `Notifications.NotificationCenter.Cleanup` | frontend/src/components/Notifications.jsx:109-113 | the listener is gone, and the processed set is emptied if a listener was registered |
| `Notifications.NotificationCenter.RemoveNotification` | frontend/src/components/Notifications.jsx:123-126 | the state moves as `Session.Dismiss` says and the new dismissed set is saved |
| `Notifications.NotificationCenter.ClearAllNotifications` | frontend/src/components/Notifications.jsx:128-132 | the state moves as `Session.ClearAll` says and the new dismissed set is saved |
| `Notifications.NotificationCenter.Restart` | frontend/src/components/Notifications.jsx:114 | a change of the dismissed set tears the listener down and runs the setup again: the listener is registered afterwards exactly for a founder with a contract, and the state is the teardown followed by the backfill |
| `MyProjects.FetchProjects` | frontend/src/components/MyProjects.jsx:10-58 | the loop answers exactly the read-by-read result of `getProjectCount`, `getProject`, `investments` and `getUserInfo` |
| `MyProjects.FetchInvestors` | frontend/src/components/MyProjects.jsx:23-37 | the inner loop answers exactly the read-by-read investor list of one project |
| `MyProjects.CollectInvestor` | frontend/src/components/MyProjects.jsx:27-36 | one pass of the inner loop adds at most one row, for that address and with a positive amount |
| `MyProjects.CollectInvestors` | frontend/src/components/MyProjects.jsx:26-37 | the inner loop lists no more rows than there are addresses, each for an address of `projectInvestors` with a positive amount; an address that appears twice is listed twice |
| `MyProjects.CollectRow` | frontend/src/components/MyProjects.jsx:18-48 | one pass of the outer loop adds at most one row, and only for a project at that index that the account founded |
| `MyProjects.CollectProjects` | frontend/src/components/MyProjects.jsx:17-49 | the outer loop lists no more rows than indices, each with an index below the count |
| `MyProjects.Projects` | frontend/src/components/MyProjects.jsx:14-51 | a successful fetch read the count and lists no more rows than there are projects |
| `MyProjects.ExpectedInvestors` | frontend/src/components/MyProjects.jsx:30-35 | there is one investor row per backer, in order, carrying exactly that backer's stake and profile |
| `MyProjects.CollectInvestorsSpec` | frontend/src/components/MyProjects.jsx:26-37 | the investor loop succeeds exactly when none of its reads throws, and then lists the backers |
| `MyProjects.CollectInvestorSpec` | frontend/src/components/MyProjects.jsx:27-36 | one pass succeeds exactly when its reads do not throw, and then adds the investor's row when the stake is positive |
| `MyProjects.CollectProjectsSpec` | frontend/src/components/MyProjects.jsx:17-49 | the project loop succeeds exactly when none of its reads throws, and then lists the account's projects |
| `MyProjects.CollectRowSpec` | frontend/src/components/MyProjects.jsx:18-48 | one pass of the outer loop succeeds exactly when its reads do not throw, and then adds the expected row |
| `MyProjects.ProjectsSpec` | frontend/src/components/MyProjects.jsx:14-54 | the fetch answers the fault-free list when no read it issues throws, and fails when any one does |
| `MyProjects.NoFaultNoError` | frontend/src/components/MyProjects.jsx:14-51 | on a chain where no read throws, the fetch answers the fault-free list |
| `MyProjects.InvestorsFailureSticks` | frontend/src/components/MyProjects.jsx:52-54 | once a read of the investor loop threw, the result stays a failure |
| `MyProjects.ProjectsFailureSticks` | frontend/src/components/MyProjects.jsx:52-54 | once a read of the project loop threw, the result stays a failure |
| `MyProjects.ListedIffFounder` | frontend/src/components/MyProjects.jsx:17-21 | a project index is listed exactly when the account founded that project, compared case-insensitively |
| `MyProjects.RowsAreEntries` | frontend/src/components/MyProjects.jsx:39-47 | every row carries its project's index, name, description, funding, status and investor rows |
| `MyProjects.RowsAscending` | frontend/src/components/MyProjects.jsx:39-40 | rows come in strictly ascending index order |
| `MyProjects.BackerIffStake` | frontend/src/components/MyProjects.jsx:26-28 | an investor is listed exactly when they appear in `projectInvestors` with a positive stake |
| `MyProjects.BackersOfOne` | frontend/src/components/MyProjects.jsx:27-28 | a single address is a backer exactly when its stake is positive |
| `MyProjects.BackersAppend` | frontend/src/components/MyProjects.jsx:26 | the backers of a concatenation are the backers of each part in turn; with `BackersOfOne`, the investor list is exactly the positive-stake subsequence of `projectInvestors`, in order |
| `MyProjects.NoBackersNoRows` | frontend/src/components/MyProjects.jsx:39-47 | a founded project without a positive stake is listed with an empty investor list |
| `MyProjects.ProjectsPanel.constructor` | frontend/src/components/MyProjects.jsx:5-7 | the panel mounts loading, with no rows and no error |
| `MyProjects.ProjectsPanel.Refresh` | frontend/src/components/MyProjects.jsx:9-63 | without a contract or an account nothing changes; otherwise loading ends, a success replaces the rows and clears the error, and a failure sets the error and keeps the old rows |
| `MyInvestments.FetchInvestments` | frontend/src/components/MyInvestments.jsx:10-44 | the loop answers exactly the read-by-read result of `getProjectCount`, `investments`, `getProject` and `getUserInfo` |
| `MyInvestments.CollectRow` | frontend/src/components/MyInvestments.jsx:18-34 | one pass adds at most one row, for that index and carrying the account's positive stake |
| `MyInvestments.CollectInvestments` | frontend/src/components/MyInvestments.jsx:17-35 | the loop lists no more rows than indices, each with an index below the count and a positive amount |
| `MyInvestments.Investments` | frontend/src/components/MyInvestments.jsx:14-37 | a successful fetch read the count and lists no more rows than there are projects |
| `MyInvestments.CollectInvestmentsSpec` | frontend/src/components/MyInvestments.jsx:17-35 | the loop succeeds exactly when none of its reads throws, and then lists the account's stakes |
| `MyInvestments.CollectRowSpec` | frontend/src/components/MyInvestments.jsx:18-34 | one pass succeeds exactly when its reads do not throw, and then adds the expected row |
| `MyInvestments.InvestmentsSpec` | frontend/src/components/MyInvestments.jsx:14-40 | the fetch answers the fault-free list when no read it issues throws, and fails when any one does |
| `MyInvestments.NoFaultNoError` | frontend/src/components/MyInvestments.jsx:14-37 | on a chain where no read throws, the fetch answers the fault-free list |
| `MyInvestments.FailureSticks` | frontend/src/components/MyInvestments.jsx:38-40 | once a read threw, the result stays a failure |
| `MyInvestments.ListedIffStake` | frontend/src/components/MyInvestments.jsx:17-20 | a project index is listed exactly when the account's stake in it is positive, whoever founded it |
| `MyInvestments.RowsAreEntries` | frontend/src/components/MyInvestments.jsx:24-33 | every row carries its index, the account's stake as amount, the project's founder and that founder's profile |
| `MyInvestments.RowsAscending` | frontend/src/components/MyInvestments.jsx:17-25 | rows come in strictly ascending index order |
| `MyInvestments.InvestmentsPanel.constructor` | frontend/src/components/MyInvestments.jsx:5-7 | the panel mounts loading, with no rows and no error |
| `MyInvestments.InvestmentsPanel.Refresh` | frontend/src/components/MyInvestments.jsx:9-49 | without a contract or an account nothing changes; otherwise loading ends, a success replaces the rows and clears the error, and a failure sets the error and keeps the old rows |
| `Chain.GetProjectCount` | frontend/src/components/MyProjects.jsx:14 | the view call answered from the snapshot, `Failed` when the read throws (definition of the view call; no contract of its own) |
| `Chain.GetProject` | frontend/src/components/MyProjects.jsx:18 | the view call answered from the snapshot, `Failed` when the read throws (definition of the view call; no contract of its own) |
| `Chain.GetInvestment` | frontend/src/components/MyProjects.jsx:27 | the view call answered from the snapshot, `Failed` when the read throws (definition of the view call; no contract of its own) |
| `Chain.GetUserInfo` | frontend/src/components/MyProjects.jsx:29 | the view call answered from the snapshot, `Failed` when the read throws (definition of the view call; no contract of its own) |

## Left out

- React scheduling is not modelled:
  - Each handler runs to completion on the current state. Stale closure reads of `processedEvents` and `dismissedNotifications` are not modelled.
  - A live event is not handled in the middle of a backfill.
  - Updates that React batches are not modelled.
  - The effect that re-runs when the dismissed set changes is the separate `Restart` method. It is not triggered automatically.
- The listener registration (`contract.on`, `removeAllListeners`) is modelled only as the `listening` flag. Logging to the console is left out.
- Chain reads are answers from a fixed snapshot, together with a set of reads that throw. Nothing changes the chain while a fetch runs.
- The clock reading for each notification is a parameter (`now`, or `stamps` for a backfill). Timestamps are opaque numbers, not ISO strings.
- `ethers.formatEther` is not modelled. Amounts stay naturals in wei, and the notification text is the record of investor, amount and project name.
- Both the backfill and the live handler are modelled as reading a log entry with `transactionHash` and a numeric `logIndex` (`Notifications.jsx` lines 87 and 99). The ethers library's shapes are not part of this model: a queried log may name the index `index`, and the payload of a `contract.on` listener may carry the log under another property. So the keys, their agreement across the two paths, and the deduplication across them hold only under that assumption.
- Lower-casing is ASCII only. That is all that hexadecimal addresses need.
- Local storage holds id arrays directly, so JSON encoding and decoding are not modelled. `JSON.parse` of corrupt storage throws in the source and is not modelled.
- The load effect is modelled as part of mounting. The account is fixed for the lifetime of the panel, so switching accounts, which reloads under another key, is not modelled.
- Dismissed notifications come back after a reload in the program, and the model does not show it. In `Notifications.jsx` the load effect (lines 10-15) and the listener effect (lines 27-114) run in the same commit, so the first backfill's closure still holds the empty dismissed set of line 7. That backfill is not cancelled when the loaded set arrives, because the cleanup at lines 109-113 only removes the listener. It therefore lists again every founder-matching event dismissed earlier. The model mounts with the stored set already loaded, so `Session.DismissedNeverReturns`, `Session.Hidden` and `Session.MountWellformed` hold only for that all-at-once mount.
- `MyProjects.FetchInvestors`: the inner `for` loop of `fetchProjects` is a method of its own. The nested loops do not change in behaviour.
- Rendering is not modelled, and neither are the other files: `App.jsx`, `Auth.jsx`, `ProjectForm.jsx`, `ProjectList.jsx` and `main.jsx` are not part of this model.
