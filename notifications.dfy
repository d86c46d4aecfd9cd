/** The notification panel of a founder (Notifications.jsx): its three state cells, the
    listener it sets up while the user is a founder, and the dismissed ids it keeps in the
    browser's local storage. */
module Notifications {
  import opened Outcomes
  import opened Text
  import opened Chain
  import opened EventIds
  import opened Ledger
  import opened Session

  /** The local-storage key of an account's dismissed ids (lines 11 and 21). */
  function StorageKey(account: Address): (key: string)
    ensures |key| > |account| && key[|key| - |account|..] == account
  {
    "dismissedNotifications-" + account
  }

  /** Each account has a key of its own. */
  lemma StorageKeyInjective(a: Address, b: Address)
    ensures StorageKey(a) == StorageKey(b) <==> a == b
  {
    if StorageKey(a) == StorageKey(b) {
      assert a == StorageKey(a)[|"dismissedNotifications-"|..];
    }
  }

  /** The dismissed set the panel mounts with (lines 10-15): the stored array read back
      into a set, or the empty set when nothing is stored. */
  function Loaded(storage: map<string, seq<EventId>>, account: Address): (d: seq<EventId>)
    ensures Distinct(d)
    ensures StorageKey(account) !in storage ==> d == []
    ensures StorageKey(account) in storage ==> forall y :: y in d <==> y in storage[StorageKey(account)]
  {
    var key := StorageKey(account);
    if key in storage then Dedup(storage[key]) else []
  }

  /** Local storage after the save effect ran on `dismissed` (lines 18-25): an empty set is
      not written, so an old entry stays. */
  function Saved(storage: map<string, seq<EventId>>, account: Address, dismissed: seq<EventId>)
    : (r: map<string, seq<EventId>>)
    ensures |dismissed| > 0 ==> StorageKey(account) in r && r[StorageKey(account)] == dismissed
    ensures |dismissed| == 0 ==> r == storage
    ensures forall k :: k != StorageKey(account) ==> (k in r <==> k in storage)
    ensures forall k :: k != StorageKey(account) && k in storage ==> r[k] == storage[k]
  {
    if |dismissed| > 0 then storage[StorageKey(account) := dismissed] else storage
  }

  /** Saving and mounting again restores the dismissed set in the same order; an empty set
      leaves whatever was stored before. */
  lemma SaveThenLoad(storage: map<string, seq<EventId>>, account: Address, dismissed: seq<EventId>)
    requires Distinct(dismissed)
    ensures Loaded(Saved(storage, account, dismissed), account) ==
            if |dismissed| > 0 then dismissed else Loaded(storage, account)
  {
    if |dismissed| > 0 {
      DedupOfDistinct(dismissed);
    }
  }

  /** Saving one account's dismissed set leaves every other account's as it was. */
  lemma SaveKeepsOtherAccounts(storage: map<string, seq<EventId>>, account: Address, other: Address,
                               dismissed: seq<EventId>)
    requires other != account
    ensures Loaded(Saved(storage, account, dismissed), other) == Loaded(storage, other)
  {
    StorageKeyInjective(account, other);
  }

  class NotificationCenter {
    const account: Address
    var notifications: seq<Notification>
    var processed: set<EventId>
    var dismissed: seq<EventId>
    /** The browser's local storage. */
    var storage: map<string, seq<EventId>>
    /** A `ProjectFunded` listener is registered (between lines 103 and 111). */
    var listening: bool

    /** The three state cells as one value. */
    ghost function State(): Session
      reads this
    {
      Session(notifications, processed, dismissed)
    }

    ghost predicate Valid()
      reads this
    {
      Wellformed(State())
    }

    /** Mounting the panel: empty state cells, then the load effect (lines 5-15). */
    constructor (account: Address, storage: map<string, seq<EventId>>)
      ensures Valid() && !listening
      ensures this.account == account && this.storage == storage
      ensures notifications == [] && processed == {} && dismissed == Loaded(storage, account)
    {
      this.account := account;
      this.storage := storage;
      notifications := [];
      processed := {};
      dismissed := Loaded(storage, account);
      listening := false;
      new;
      MountWellformed(dismissed);
    }

    /** The save effect (lines 18-25). */
    method SaveDismissed()
      modifies this
      ensures storage == Saved(old(storage), account, dismissed)
      ensures State() == old(State()) && listening == old(listening)
    {
      if |dismissed| > 0 {
        storage := storage[StorageKey(account) := dismissed];
      }
    }

    /** `processFundingEvent` (lines 36-75) with `c` the chain as the lookup sees it and
        `now` the clock reading for the new notification. */
    method ProcessFundingEvent(args: Funding, id: EventId, c: Chain, now: Timestamp)
      requires Valid()
      modifies this
      ensures Valid()
      ensures State() == Step(old(State()), account, c, args, id, now)
      ensures storage == old(storage) && listening == old(listening)
    {
      StepKeepsWellformed(State(), account, c, args, id, now);
      if id in processed || id in dismissed {
        return;
      }
      var project := GetProject(c, args.projectId);
      if project.Failed? {
        return;
      }
      if SameAddress(project.value.founder, account) {
        var n := Notification(id, Funded(args.investor, args.amount, project.value.name), now);
        notifications := Insert(notifications, n);
        processed := processed + {id};
      }
    }

    /** `fetchPastEvents` (lines 78-93): `query` is what `queryFilter` answered, and
        `stamps[k]` the clock reading while handling the k-th entry. A failed query is caught
        and changes nothing; an undecoded entry throws at line 86, which ends the loop with
        the entries before it handled. */
    method FetchPastEvents(query: Result<seq<QueriedLog>>, c: Chain, stamps: seq<Timestamp>)
      requires Valid()
      requires query.Ok? ==> |stamps| == |query.value|
      modifies this
      ensures Valid()
      ensures query.Failed? ==> State() == old(State())
      ensures query.Ok? ==> State() == Backfill(old(State()), account, c, query.value, stamps)
      ensures storage == old(storage) && listening == old(listening)
    {
      if query.Failed? {
        return;
      }
      var logs := query.value;
      ghost var events := DecodedPrefix(logs);
      var k := 0;
      while k < |logs| && logs[k].Decoded?
        invariant 0 <= k <= |events|
        invariant Valid()
        invariant State() == Replay(old(State()), account, c, events[..k], stamps[..k])
        invariant storage == old(storage) && listening == old(listening)
      {
        var event := logs[k].log;
        assert event == events[k];
        ProcessFundingEvent(event.args, IdOf(event), c, stamps[k]);
        assert events[..k + 1][..k] == events[..k];
        assert stamps[..k + 1][..k] == stamps[..k];
        ReplayLast(old(State()), account, c, events[..k + 1], stamps[..k + 1]);
        k := k + 1;
      }
      assert k == |events| && events[..k] == events;
    }

    /** `handleNewEvent` (lines 97-101): a live event reaches the panel only while its
        listener is registered. */
    method HandleNewEvent(log: FundingLog, c: Chain, now: Timestamp)
      requires Valid()
      modifies this
      ensures Valid()
      ensures old(listening) ==> State() == Step(old(State()), account, c, log.args, IdOf(log), now)
      ensures !old(listening) ==> State() == old(State())
      ensures storage == old(storage) && listening == old(listening)
    {
      if listening {
        ProcessFundingEvent(log.args, IdOf(log), c, now);
      }
    }

    /** The setup of the listener effect (lines 27-106): nothing without a contract or for a
        user who is not a founder; otherwise the listener is registered and the backfill runs. */
    method Start(hasContract: bool, userRole: string, query: Result<seq<QueriedLog>>, c: Chain,
                 stamps: seq<Timestamp>)
      requires Valid()
      requires query.Ok? ==> |stamps| == |query.value|
      modifies this
      ensures Valid() && storage == old(storage)
      ensures !hasContract || userRole != "founder" ==> State() == old(State()) && listening == old(listening)
      ensures hasContract && userRole == "founder" ==>
                listening &&
                State() == (if query.Ok? then Backfill(old(State()), account, c, query.value, stamps) else old(State()))
    {
      if !hasContract || userRole != "founder" {
        return;
      }
      listening := true;
      FetchPastEvents(query, c, stamps);
    }

    /** The cleanup the listener effect returns (lines 109-113); an effect that returned
        early registered nothing and has nothing to clean up. */
    method Cleanup()
      requires Valid()
      modifies this
      ensures Valid() && !listening && storage == old(storage)
      ensures State() == if old(listening) then Teardown(old(State())) else old(State())
    {
      if listening {
        TeardownKeepsWellformed(State());
        listening := false;
        processed := {};
      }
    }

    /** `removeNotification(id)` (lines 123-126), followed by the save effect it triggers. */
    method RemoveNotification(id: EventId)
      requires Valid()
      modifies this
      ensures Valid() && listening == old(listening)
      ensures State() == Dismiss(old(State()), id)
      ensures storage == Saved(old(storage), account, dismissed)
    {
      DismissKeepsWellformed(State(), id);
      notifications := Remove(notifications, id);
      dismissed := Add(dismissed, id);
      SaveDismissed();
    }

    /** `clearAllNotifications()` (lines 128-132), followed by the save effect it triggers. */
    method ClearAllNotifications()
      requires Valid()
      modifies this
      ensures Valid() && listening == old(listening)
      ensures State() == ClearAll(old(State()))
      ensures storage == Saved(old(storage), account, dismissed)
    {
      ClearAllKeepsWellformed(State());
      dismissed := AddAll(dismissed, Ids(notifications));
      notifications := [];
      SaveDismissed();
    }

    /** A change of the dismissed set re-runs the listener effect (its dependencies include
        `dismissedNotifications`, line 114): the old listener is cleaned up, then the setup
        runs again with the new set. */
    method Restart(hasContract: bool, userRole: string, query: Result<seq<QueriedLog>>, c: Chain,
                   stamps: seq<Timestamp>)
      requires Valid()
      requires query.Ok? ==> |stamps| == |query.value|
      modifies this
      ensures Valid() && storage == old(storage)
      ensures listening == (hasContract && userRole == "founder")
      ensures var t := if old(listening) then Teardown(old(State())) else old(State());
              State() == (if hasContract && userRole == "founder" && query.Ok?
                          then Backfill(t, account, c, query.value, stamps) else t)
    {
      Cleanup();
      Start(hasContract, userRole, query, c, stamps);
    }
  }
}
