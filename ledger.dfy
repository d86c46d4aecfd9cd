/** The values behind the three state cells of the notification panel: the list of
    notifications (newest first) and the insertion-ordered set of dismissed ids
    (Notifications.jsx, lines 5-7). */
module Ledger {
  import opened EventIds

  /** `new Date().toISOString()` at the time the notification is created; treated as opaque. */
  type Timestamp = nat

  /** What the notification text says: investor, amount in wei and project name. */
  datatype Message = Funded(investor: string, amount: nat, projectName: string)

  datatype Notification = Notification(id: EventId, message: Message, timestamp: Timestamp)

  /** `list.map(n => n.id)`. */
  function Ids(list: seq<Notification>): (ids: seq<EventId>)
    ensures |ids| == |list|
    ensures forall k :: 0 <= k < |list| ==> ids[k] == list[k].id
  {
    seq(|list|, k requires 0 <= k < |list| => list[k].id)
  }

  predicate Distinct<T(==)>(s: seq<T>)
  {
    forall i, j :: 0 <= i < j < |s| ==> s[i] != s[j]
  }

  /** No two notifications in the list share an id. */
  predicate DistinctIds(list: seq<Notification>)
  {
    Distinct(Ids(list))
  }

  // ---------------------------------------------------------------- the notification list

  /** The updater handed to `setNotifications` when a notification is created
      (lines 59-65): an id already listed leaves the list alone, a new one goes in front. */
  function Insert(list: seq<Notification>, n: Notification): (r: seq<Notification>)
    ensures n.id in Ids(r)
    ensures r == list || (r == [n] + list && n.id !in Ids(list))
    ensures Ids(r) == if n.id in Ids(list) then Ids(list) else [n.id] + Ids(list)
  {
    if n.id in Ids(list) then list
    else
      var r := [n] + list;
      assert Ids(r) == [n.id] + Ids(list);
      r
  }

  /** Inserting keeps the ids of the list pairwise distinct. */
  lemma InsertKeepsDistinct(list: seq<Notification>, n: Notification)
    requires DistinctIds(list)
    ensures DistinctIds(Insert(list, n))
  {
  }

  /** Inserting a notification whose id is already listed changes nothing, so delivering the
      same log entry twice yields one notification. */
  lemma InsertIdempotent(list: seq<Notification>, n: Notification, m: Notification)
    requires m.id == n.id
    ensures Insert(Insert(list, n), m) == Insert(list, n)
  {
    assert m.id in Ids(Insert(list, n));
  }

  /** `prev.filter(notification => notification.id !== id)` (line 124). */
  function Remove(list: seq<Notification>, id: EventId): (r: seq<Notification>)
    ensures |r| <= |list|
    ensures id !in Ids(r)
  {
    if list == [] then []
    else
      var rest := Remove(list[1..], id);
      if list[0].id == id then rest
      else
        assert Ids([list[0]] + rest) == [list[0].id] + Ids(rest);
        [list[0]] + rest
  }

  /** Exactly the entries with another id survive a removal. */
  lemma {:induction false} RemoveMembers(list: seq<Notification>, id: EventId, n: Notification)
    ensures n in Remove(list, id) <==> n in list && n.id != id
  {
    if list != [] {
      RemoveMembers(list[1..], id, n);
      assert n in list <==> n == list[0] || n in list[1..];
    }
  }

  /** An id other than the removed one stays listed. */
  lemma RemoveKeepsOtherIds(list: seq<Notification>, id: EventId, x: EventId)
    requires x in Ids(list) && x != id
    ensures x in Ids(Remove(list, id))
  {
    var k :| 0 <= k < |list| && Ids(list)[k] == x;
    RemoveMembers(list, id, list[k]);
    var j :| 0 <= j < |Remove(list, id)| && Remove(list, id)[j] == list[k];
    assert Ids(Remove(list, id))[j] == x;
  }

  lemma IdsOfTail(list: seq<Notification>)
    requires list != []
    ensures Ids(list[1..]) == Ids(list)[1..]
    ensures DistinctIds(list) ==> DistinctIds(list[1..]) && list[0].id !in Ids(list[1..])
  {
    assert Ids(list) == [list[0].id] + Ids(list[1..]);
  }

  /** Removing keeps the ids of the list pairwise distinct. */
  lemma {:induction false} RemoveKeepsDistinct(list: seq<Notification>, id: EventId)
    requires DistinctIds(list)
    ensures DistinctIds(Remove(list, id))
  {
    if list != [] {
      IdsOfTail(list);
      RemoveKeepsDistinct(list[1..], id);
      var rest := Remove(list[1..], id);
      if list[0].id != id {
        assert Ids([list[0]] + rest) == [list[0].id] + Ids(rest);
        assert list[0].id !in Ids(rest) by {
          forall k | 0 <= k < |rest| ensures rest[k].id != list[0].id {
            RemoveMembers(list[1..], id, rest[k]);
            var j :| 0 <= j < |list[1..]| && list[1..][j] == rest[k];
            assert Ids(list[1..])[j] == rest[k].id;
          }
        }
      }
    }
  }

  /** Removing an id that is not listed leaves the list as it was. */
  lemma {:induction false} RemoveAbsent(list: seq<Notification>, id: EventId)
    requires id !in Ids(list)
    ensures Remove(list, id) == list
  {
    if list != [] {
      assert list[0].id != id by { assert Ids(list)[0] == list[0].id; }
      assert id !in Ids(list[1..]) by { IdsOfTail(list); }
      RemoveAbsent(list[1..], id);
      assert list == [list[0]] + list[1..];
    }
  }

  /** In a list of distinct ids, removing the id at position k cuts out exactly that entry and
      keeps every other entry in its relative order. */
  lemma {:induction false} RemoveSplices(list: seq<Notification>, id: EventId, k: nat)
    requires DistinctIds(list) && k < |list| && list[k].id == id
    ensures Remove(list, id) == list[..k] + list[k + 1..]
  {
    IdsOfTail(list);
    if k == 0 {
      assert id == Ids(list)[0];
      RemoveAbsent(list[1..], id);
      assert Remove(list, id) == Remove(list[1..], id);
    } else {
      RemoveSplices(list[1..], id, k - 1);
      assert list[0].id != id by { assert Ids(list)[0] != Ids(list)[k]; }
      assert Remove(list, id) == [list[0]] + Remove(list[1..], id);
      assert list[1..][..k - 1] + list[1..][k..] == list[1..k] + list[k + 1..];
      assert list[..k] == [list[0]] + list[1..k];
    }
  }

  // ---------------------------------------------------------------- the dismissed-id set

  /** `new Set([...prev, x])`: a JavaScript Set keeps first-insertion order, so it is a
      sequence without repeats and a new member goes at the end. */
  function Add(s: seq<EventId>, x: EventId): (r: seq<EventId>)
    ensures x in r
    ensures |s| <= |r| <= |s| + 1 && r[..|s|] == s
    ensures forall y :: y in r <==> y in s || y == x
    ensures Distinct(s) ==> Distinct(r)
  {
    if x in s then s else s + [x]
  }

  /** `new Set([...prev, ...xs])` (lines 125 and 130). */
  function AddAll(s: seq<EventId>, xs: seq<EventId>): (r: seq<EventId>)
    ensures |s| <= |r| && r[..|s|] == s
    ensures forall y :: y in r <==> y in s || y in xs
    ensures Distinct(s) ==> Distinct(r)
    decreases |xs|
  {
    if xs == [] then s
    else
      var r := AddAll(Add(s, xs[0]), xs[1..]);
      assert forall y :: y in xs <==> y == xs[0] || y in xs[1..];
      r
  }

  /** `new Set(array)`: the set a stored array is read back into (line 13). */
  function Dedup(xs: seq<EventId>): (r: seq<EventId>)
    ensures Distinct(r)
    ensures forall y :: y in r <==> y in xs
  {
    AddAll([], xs)
  }

  /** Adding members that are all new appends them in order. */
  lemma {:induction false} AddAllFresh(s: seq<EventId>, xs: seq<EventId>)
    requires Distinct(s + xs)
    ensures AddAll(s, xs) == s + xs
    decreases |xs|
  {
    if xs != [] {
      assert (s + xs)[|s|] == xs[0];
      forall k | 0 <= k < |s| ensures s[k] != xs[0] {
        assert (s + xs)[k] == s[k];
      }
      assert Add(s, xs[0]) + xs[1..] == s + xs;
      AddAllFresh(Add(s, xs[0]), xs[1..]);
    }
  }

  /** Reading back an array written from a set restores the same set, in the same order. */
  lemma DedupOfDistinct(xs: seq<EventId>)
    requires Distinct(xs)
    ensures Dedup(xs) == xs
  {
    assert [] + xs == xs;
    AddAllFresh([], xs);
  }
}
