/** What `processFundingEvent` and the backfill loop do to the panel's state, as functions of
    the previous state (Notifications.jsx, lines 36-93). */
module Session {
  import opened Outcomes
  import opened Text
  import opened Chain
  import opened EventIds
  import opened Ledger

  /** The three state cells of the panel: notifications, processed ids, dismissed ids. */
  datatype Session = Session(list: seq<Notification>, processed: set<EventId>, dismissed: seq<EventId>)

  /** The project lookup for this event succeeds and names the connected account as founder,
      compared case-insensitively (line 51). */
  predicate Delivers(c: Chain, account: Address, args: Funding)
  {
    GetProject(c, args.projectId).Ok? && SameAddress(GetProject(c, args.projectId).value.founder, account)
  }

  /** The event has been handled already or the user dismissed it (line 38). */
  predicate Seen(s: Session, id: EventId)
  {
    id in s.processed || id in s.dismissed
  }

  /** Every processed id is on the list. Holds in a fresh session and after a teardown. */
  predicate Accounted(s: Session)
  {
    forall x :: x in s.processed ==> x in Ids(s.list)
  }

  /** `processFundingEvent(projectId, investor, amount, eventId)` against the chain `c`, with
      `now` the wall-clock reading taken for the notification. A failed lookup is caught
      (lines 72-74) and, like a founder mismatch, leaves the state as it was. */
  function Step(s: Session, account: Address, c: Chain, args: Funding, id: EventId, now: Timestamp): (r: Session)
    ensures r.dismissed == s.dismissed
    ensures Seen(s, id) || !Delivers(c, account, args) ==> r == s
    ensures !Seen(s, id) && Delivers(c, account, args) ==>
              id in Ids(r.list) && r.processed == s.processed + {id}
  {
    if Seen(s, id) then s
    else match GetProject(c, args.projectId)
      case Failed => s
      case Ok(project) =>
        if SameAddress(project.founder, account) then
          var n := Notification(id, Funded(args.investor, args.amount, project.name), now);
          Session(Insert(s.list, n), s.processed + {id}, s.dismissed)
        else s
  }

  /** A step adds at most one notification, in front, and keeps the ids distinct and the
      processed ids listed. */
  lemma StepPreserves(s: Session, account: Address, c: Chain, args: Funding, id: EventId, now: Timestamp)
    ensures var r := Step(s, account, c, args, id, now);
            && Extends(r.list, s.list) && s.processed <= r.processed
            && (r.list != s.list ==> |r.list| == |s.list| + 1 && r.list[0].id == id)
            && (DistinctIds(s.list) ==> DistinctIds(r.list))
            && (Accounted(s) ==> Accounted(r))
  {
    var r := Step(s, account, c, args, id, now);
    if r.list != s.list {
      assert r.list[1..] == s.list;
      if DistinctIds(s.list) {
        InsertKeepsDistinct(s.list, r.list[0]);
      }
    }
  }

  /** `small` is what is left of `big` after dropping entries from its front. */
  predicate Extends(big: seq<Notification>, small: seq<Notification>)
  {
    |small| <= |big| && big[|big| - |small|..] == small
  }

  lemma ExtendsTransitive(a: seq<Notification>, b: seq<Notification>, c: seq<Notification>)
    requires Extends(a, b) && Extends(b, c)
    ensures Extends(a, c)
  {
    assert a[|a| - |c|..] == a[|a| - |b|..][|b| - |c|..];
  }

  /** The handler the backfill applies to each log entry (lines 86-88). */
  function Handler(account: Address, c: Chain): (Session, FundingLog, Timestamp) -> Session
  {
    (s: Session, e: FundingLog, t: Timestamp) => Step(s, account, c, e.args, IdOf(e), t)
  }

  /** Applies `f` to the events one at a time, in order. */
  function Fold(s: Session, events: seq<FundingLog>, stamps: seq<Timestamp>,
                f: (Session, FundingLog, Timestamp) -> Session): Session
    requires |stamps| == |events|
    decreases |events|
  {
    if events == [] then s
    else
      var n := |events| - 1;
      f(Fold(s, events[..n], stamps[..n], f), events[n], stamps[n])
  }

  /** The backfill loop (lines 85-89): every event in the order `queryFilter` returned them,
      `stamps[k]` being the clock reading while handling `events[k]`. */
  function Replay(s: Session, account: Address, c: Chain, events: seq<FundingLog>, stamps: seq<Timestamp>): Session
    requires |stamps| == |events|
  {
    Fold(s, events, stamps, Handler(account, c))
  }

  /** The backfill handles its last event after all the others. */
  lemma ReplayLast(s: Session, account: Address, c: Chain, events: seq<FundingLog>, stamps: seq<Timestamp>)
    requires |stamps| == |events| && events != []
    ensures var n := |events| - 1;
            Replay(s, account, c, events, stamps) ==
            Step(Replay(s, account, c, events[..n], stamps[..n]), account, c, events[n].args, IdOf(events[n]), stamps[n])
  {
  }

  /** The backfill never touches the dismissed set, only adds notifications in front of the
      existing ones, only adds processed ids, and keeps the list free of duplicate ids. */
  lemma {:induction false} ReplayPreserves(s: Session, account: Address, c: Chain,
                                           events: seq<FundingLog>, stamps: seq<Timestamp>)
    requires |stamps| == |events|
    ensures var r := Replay(s, account, c, events, stamps);
            && r.dismissed == s.dismissed
            && Extends(r.list, s.list) && s.processed <= r.processed
            && (DistinctIds(s.list) ==> DistinctIds(r.list))
            && (Accounted(s) ==> Accounted(r))
    decreases |events|
  {
    if events != [] {
      var n := |events| - 1;
      ReplayPreserves(s, account, c, events[..n], stamps[..n]);
      var mid := Replay(s, account, c, events[..n], stamps[..n]);
      var r := Step(mid, account, c, events[n].args, IdOf(events[n]), stamps[n]);
      ReplayLast(s, account, c, events, stamps);
      StepPreserves(mid, account, c, events[n].args, IdOf(events[n]), stamps[n]);
      ExtendsTransitive(r.list, mid.list, s.list);
    }
  }

  lemma {:induction false} FoldAppend(s: Session, a: seq<FundingLog>, ta: seq<Timestamp>,
                                      b: seq<FundingLog>, tb: seq<Timestamp>,
                                      f: (Session, FundingLog, Timestamp) -> Session)
    requires |ta| == |a| && |tb| == |b|
    ensures Fold(s, a + b, ta + tb, f) == Fold(Fold(s, a, ta, f), b, tb, f)
    decreases |b|
  {
    if b == [] {
      assert a + b == a && ta + tb == ta;
    } else {
      var n := |b| - 1;
      DropLastOfAppend(a, b);
      DropLastOfAppend(ta, tb);
      FoldAppend(s, a, ta, b[..n], tb[..n], f);
    }
  }

  /** Running the backfill on `a + b` is running it on `a`, then on `b`. */
  lemma ReplayAppend(s: Session, account: Address, c: Chain,
                     a: seq<FundingLog>, ta: seq<Timestamp>,
                     b: seq<FundingLog>, tb: seq<Timestamp>)
    requires |ta| == |a| && |tb| == |b|
    ensures Replay(s, account, c, a + b, ta + tb) == Replay(Replay(s, account, c, a, ta), account, c, b, tb)
  {
    FoldAppend(s, a, ta, b, tb, Handler(account, c));
  }

  lemma DropLastOfAppend<T>(a: seq<T>, b: seq<T>)
    requires b != []
    ensures (a + b)[..|a| + |b| - 1] == a + b[..|b| - 1]
    ensures (a + b)[|a| + |b| - 1] == b[|b| - 1]
  {
  }

  /** Failure isolation: an event whose project lookup fails is as if it had not been
      returned at all; the events before and after it are handled exactly as without it. */
  lemma FailedLookupIsSkipped(s: Session, account: Address, c: Chain,
                              events: seq<FundingLog>, stamps: seq<Timestamp>, k: nat)
    requires |stamps| == |events| && k < |events|
    requires GetProject(c, events[k].args.projectId).Failed?
    ensures Replay(s, account, c, events, stamps) ==
            Replay(s, account, c, events[..k] + events[k + 1..], stamps[..k] + stamps[k + 1..])
  {
    assert events == events[..k + 1] + events[k + 1..];
    assert stamps == stamps[..k + 1] + stamps[k + 1..];
    ReplayAppend(s, account, c, events[..k + 1], stamps[..k + 1], events[k + 1..], stamps[k + 1..]);
    ReplayAppend(s, account, c, events[..k], stamps[..k], events[k + 1..], stamps[k + 1..]);
    assert events[..k + 1][..k] == events[..k];
    assert stamps[..k + 1][..k] == stamps[..k];
  }

  /** After the backfill every delivering event that is not dismissed is marked processed,
      whatever failed before or after it. */
  lemma {:induction false} ReplayMarks(s: Session, account: Address, c: Chain,
                                       events: seq<FundingLog>, stamps: seq<Timestamp>, k: nat)
    requires |stamps| == |events| && k < |events|
    requires Delivers(c, account, events[k].args) && IdOf(events[k]) !in s.dismissed
    ensures IdOf(events[k]) in Replay(s, account, c, events, stamps).processed
    decreases |events|
  {
    var n := |events| - 1;
    var mid := Replay(s, account, c, events[..n], stamps[..n]);
    ReplayLast(s, account, c, events, stamps);
    if k < n {
      assert events[..n][k] == events[k];
      ReplayMarks(s, account, c, events[..n], stamps[..n], k);
      StepPreserves(mid, account, c, events[n].args, IdOf(events[n]), stamps[n]);
    } else {
      ReplayPreserves(s, account, c, events[..n], stamps[..n]);
      StepMarks(mid, account, c, events[n].args, IdOf(events[n]), stamps[n]);
    }
  }

  /** After handling a delivering event that is not dismissed, its id is processed. */
  lemma StepMarks(s: Session, account: Address, c: Chain, args: Funding, id: EventId, now: Timestamp)
    requires Delivers(c, account, args) && id !in s.dismissed
    ensures id in Step(s, account, c, args, id, now).processed
  {
  }

  /** Delivery: in a session whose processed ids are all listed (a fresh one, or one after a
      teardown), the backfill leaves a notification for every delivering, undismissed event,
      even when the lookups for other events of the batch failed. */
  lemma ReplayDelivers(s: Session, account: Address, c: Chain,
                       events: seq<FundingLog>, stamps: seq<Timestamp>, k: nat)
    requires |stamps| == |events| && k < |events| && Accounted(s)
    requires Delivers(c, account, events[k].args) && IdOf(events[k]) !in s.dismissed
    ensures IdOf(events[k]) in Ids(Replay(s, account, c, events, stamps).list)
  {
    ReplayMarks(s, account, c, events, stamps, k);
    ReplayPreserves(s, account, c, events, stamps);
  }

  /** Some event of `events` has key `x`, delivers to the account, and `x` is not dismissed. */
  predicate Announced(c: Chain, account: Address, events: seq<FundingLog>, dismissed: seq<EventId>, x: EventId)
  {
    exists k :: 0 <= k < |events| && IdOf(events[k]) == x && Delivers(c, account, events[k].args) &&
                x !in dismissed
  }

  /** A step lists nothing but its own event, and only when that event delivers and is not
      dismissed. */
  lemma StepListsOnlyDelivering(s: Session, account: Address, c: Chain, args: Funding, id: EventId,
                                now: Timestamp, x: EventId)
    requires x in Ids(Step(s, account, c, args, id, now).list) && x !in Ids(s.list)
    ensures x == id && Delivers(c, account, args) && id !in s.dismissed
  {
  }

  /** The backfill lists nothing else: every id it adds is the key of an event of the batch
      that delivers to the account and that the user had not dismissed. */
  lemma {:induction false} ReplayListsOnlyDelivering(s: Session, account: Address, c: Chain,
                                                     events: seq<FundingLog>, stamps: seq<Timestamp>, x: EventId)
    requires |stamps| == |events|
    requires x in Ids(Replay(s, account, c, events, stamps).list) && x !in Ids(s.list)
    ensures Announced(c, account, events, s.dismissed, x)
    decreases |events|
  {
    var n := |events| - 1;
    var mid := Replay(s, account, c, events[..n], stamps[..n]);
    ReplayLast(s, account, c, events, stamps);
    ReplayPreserves(s, account, c, events[..n], stamps[..n]);
    if x in Ids(mid.list) {
      ReplayListsOnlyDelivering(s, account, c, events[..n], stamps[..n], x);
      var k :| 0 <= k < n && IdOf(events[..n][k]) == x && Delivers(c, account, events[..n][k].args) &&
               x !in s.dismissed;
      assert events[..n][k] == events[k];
    } else {
      StepListsOnlyDelivering(mid, account, c, events[n].args, IdOf(events[n]), stamps[n], x);
    }
  }

  /** `fetchPastEvents` once `queryFilter` answered `logs`: the decoded entries before the
      first undecoded one are handled in order, `stamps[k]` being the clock reading while
      handling the k-th entry. */
  function Backfill(s: Session, account: Address, c: Chain, logs: seq<QueriedLog>, stamps: seq<Timestamp>): Session
    requires |stamps| == |logs|
  {
    var p := DecodedPrefix(logs);
    Replay(s, account, c, p, stamps[..|p|])
  }

  /** An undecoded entry ends the backfill: the entries after it are never handled, whatever
      they are, while those before it stay handled. */
  lemma BackfillStopsAtUndecoded(s: Session, account: Address, c: Chain,
                                 logs: seq<QueriedLog>, stamps: seq<Timestamp>, k: nat)
    requires |stamps| == |logs| && k < |logs| && logs[k].Undecoded?
    ensures Backfill(s, account, c, logs, stamps) == Backfill(s, account, c, logs[..k], stamps[..k])
  {
    DecodedPrefixCut(logs, k);
    var p := DecodedPrefix(logs);
    assert stamps[..k][..|p|] == stamps[..|p|];
  }

  /** Dismissal is permanent: an id the user dismissed never comes back onto the list. */
  lemma {:induction false} DismissedNeverReturns(s: Session, account: Address, c: Chain,
                                                 events: seq<FundingLog>, stamps: seq<Timestamp>, id: EventId)
    requires |stamps| == |events|
    requires id in s.dismissed && id !in Ids(s.list)
    ensures id !in Ids(Replay(s, account, c, events, stamps).list)
    decreases |events|
  {
    if events != [] {
      var n := |events| - 1;
      DismissedNeverReturns(s, account, c, events[..n], stamps[..n], id);
      ReplayPreserves(s, account, c, events[..n], stamps[..n]);
    }
  }

  /** A log entry the backfill already turned into a notification is ignored when the live
      listener delivers it again, whatever the chain answers by then. */
  lemma LiveRedeliveryIsIgnored(s: Session, account: Address, c: Chain,
                                events: seq<FundingLog>, stamps: seq<Timestamp>, k: nat,
                                live: Chain, now: Timestamp)
    requires |stamps| == |events| && k < |events|
    requires Delivers(c, account, events[k].args) && IdOf(events[k]) !in s.dismissed
    ensures var r := Replay(s, account, c, events, stamps);
            Step(r, account, live, events[k].args, IdOf(events[k]), now) == r
  {
    ReplayMarks(s, account, c, events, stamps, k);
  }

  /** The list is stable under a replay once every delivering, undismissed event is listed:
      the guard of line 61 then turns every insertion into a no-op. */
  lemma {:induction false} ReplayKeepsCoveredList(s: Session, account: Address, c: Chain,
                                                  events: seq<FundingLog>, stamps: seq<Timestamp>)
    requires |stamps| == |events|
    requires forall k :: 0 <= k < |events| && Delivers(c, account, events[k].args) && IdOf(events[k]) !in s.dismissed
               ==> IdOf(events[k]) in Ids(s.list)
    ensures Replay(s, account, c, events, stamps).list == s.list
    decreases |events|
  {
    if events != [] {
      var n := |events| - 1;
      forall k | 0 <= k < n && Delivers(c, account, events[..n][k].args) && IdOf(events[..n][k]) !in s.dismissed
        ensures IdOf(events[..n][k]) in Ids(s.list)
      {
        assert events[..n][k] == events[k];
      }
      ReplayKeepsCoveredList(s, account, c, events[..n], stamps[..n]);
      ReplayPreserves(s, account, c, events[..n], stamps[..n]);
    }
  }

  /** A teardown empties the processed set but keeps the list; the backfill that runs when the
      listener is set up again re-handles every event, yet adds no duplicate and changes no
      entry of the list. */
  lemma RestartKeepsList(s: Session, account: Address, c: Chain,
                         events: seq<FundingLog>, stamps: seq<Timestamp>, again: seq<Timestamp>)
    requires |stamps| == |events| && |again| == |events| && Accounted(s)
    ensures var r := Replay(s, account, c, events, stamps);
            Replay(Session(r.list, {}, r.dismissed), account, c, events, again).list == r.list
  {
    var r := Replay(s, account, c, events, stamps);
    ReplayPreserves(s, account, c, events, stamps);
    forall k | 0 <= k < |events| && Delivers(c, account, events[k].args) && IdOf(events[k]) !in r.dismissed
      ensures IdOf(events[k]) in Ids(r.list)
    {
      ReplayDelivers(s, account, c, events, stamps, k);
    }
    ReplayKeepsCoveredList(Session(r.list, {}, r.dismissed), account, c, events, again);
  }

  // ---------------------------------------------------------------- the other state changes

  /** `removeNotification(id)` (lines 123-126): the entry leaves the list and its id joins
      the dismissed set, after the ids dismissed before. */
  function Dismiss(s: Session, id: EventId): (r: Session)
    ensures id !in Ids(r.list) && id in r.dismissed
    ensures |s.dismissed| <= |r.dismissed| && r.dismissed[..|s.dismissed|] == s.dismissed
    ensures forall x :: x in r.dismissed <==> x in s.dismissed || x == id
    ensures r.processed == s.processed
    ensures forall n :: n in r.list <==> n in s.list && n.id != id
  {
    var r := Session(Remove(s.list, id), s.processed, Add(s.dismissed, id));
    forall n ensures n in r.list <==> n in s.list && n.id != id {
      RemoveMembers(s.list, id, n);
    }
    r
  }

  /** `clearAllNotifications()` (lines 128-132): every listed id joins the dismissed set and
      the list empties. */
  function ClearAll(s: Session): (r: Session)
    ensures r.list == [] && r.processed == s.processed
    ensures forall x :: x in r.dismissed <==> x in s.dismissed || x in Ids(s.list)
    ensures |s.dismissed| <= |r.dismissed| && r.dismissed[..|s.dismissed|] == s.dismissed
  {
    Session([], s.processed, AddAll(s.dismissed, Ids(s.list)))
  }

  /** On a well-formed state no listed id is dismissed yet, so clear-all appends the listed
      ids to the dismissed set in list order, newest first. */
  lemma ClearAllInListOrder(s: Session)
    requires Wellformed(s)
    ensures ClearAll(s).dismissed == s.dismissed + Ids(s.list)
  {
    var xs := s.dismissed + Ids(s.list);
    forall i, j | 0 <= i < j < |xs| ensures xs[i] != xs[j] {
      if j >= |s.dismissed| && i < |s.dismissed| {
        assert xs[i] in s.dismissed;
      }
    }
    AddAllFresh(s.dismissed, Ids(s.list));
  }

  /** The effect's cleanup (lines 109-113): the processed set empties, the rest stays. */
  function Teardown(s: Session): (r: Session)
    ensures r.processed == {} && r.list == s.list && r.dismissed == s.dismissed
  {
    s.(processed := {})
  }

  /** No dismissed id is on the list: a dismissed notification is never shown. */
  predicate Hidden(s: Session)
  {
    forall x :: x in s.dismissed ==> x !in Ids(s.list)
  }

  /** Every processed id the user has not dismissed is on the list. */
  predicate Covered(s: Session)
  {
    forall x :: x in s.processed && x !in s.dismissed ==> x in Ids(s.list)
  }

  /** The invariant of the panel's state. */
  predicate Wellformed(s: Session)
  {
    DistinctIds(s.list) && Distinct(s.dismissed) && Hidden(s) && Covered(s)
  }

  /** The state the panel mounts with, `dismissed` being what was read back from storage. */
  lemma MountWellformed(dismissed: seq<EventId>)
    requires Distinct(dismissed)
    ensures Wellformed(Session([], {}, dismissed))
  {
  }

  lemma StepKeepsWellformed(s: Session, account: Address, c: Chain, args: Funding, id: EventId, now: Timestamp)
    requires Wellformed(s)
    ensures Wellformed(Step(s, account, c, args, id, now))
  {
    var r := Step(s, account, c, args, id, now);
    StepPreserves(s, account, c, args, id, now);
    if r.list != s.list {
      assert Ids(r.list) == [id] + Ids(s.list);
    }
  }

  lemma DismissKeepsWellformed(s: Session, id: EventId)
    requires Wellformed(s)
    ensures Wellformed(Dismiss(s, id))
  {
    var r := Dismiss(s, id);
    RemoveKeepsDistinct(s.list, id);
    forall x | x in r.processed && x !in r.dismissed
      ensures x in Ids(r.list)
    {
      RemoveKeepsOtherIds(s.list, id, x);
    }
  }

  lemma ClearAllKeepsWellformed(s: Session)
    requires Wellformed(s)
    ensures Wellformed(ClearAll(s))
  {
  }

  lemma TeardownKeepsWellformed(s: Session)
    requires Wellformed(s)
    ensures Wellformed(Teardown(s))
  {
  }

  /** Dismissing an event and then receiving it again, live or from a backfill, shows
      nothing: the dismissed set wins over any later delivery. */
  lemma DismissThenRedeliver(s: Session, id: EventId, account: Address, c: Chain, args: Funding, now: Timestamp)
    ensures var d := Dismiss(s, id);
            Step(d, account, c, args, id, now) == d
  {
  }
}
