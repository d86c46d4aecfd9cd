/** The identity of a `ProjectFunded` log entry (Notifications.jsx, lines 87 and 99). */
module EventIds {
  import opened Outcomes
  import opened Text

  type EventId = string

  /** `event.args` of a `ProjectFunded` event; the amount is in wei. */
  datatype Funding = Funding(projectId: nat, investor: string, amount: nat)

  /** One `ProjectFunded` log entry: the event's arguments and where it sits in the chain. */
  datatype FundingLog = FundingLog(args: Funding, transactionHash: string, logIndex: nat)

  /** `${transactionHash}-${logIndex}`: the key of a log entry. */
  function MakeId(transactionHash: string, logIndex: nat): (id: EventId)
    ensures |id| > |transactionHash| && id[..|transactionHash|] == transactionHash
    ensures id[|transactionHash|] == '-'
    ensures id[|transactionHash| + 1..] == Decimal(logIndex)
  {
    transactionHash + "-" + Decimal(logIndex)
  }

  /** The key of a log entry (lines 87 and 99); it depends on nothing but the hash and the
      index, and `SameIdIffSameEntry` shows it tells every two entries apart. */
  function IdOf(log: FundingLog): EventId
  {
    MakeId(log.transactionHash, log.logIndex)
  }

  /** An entry `queryFilter` answered: decoded into a `ProjectFunded` log, or a raw log
      without `args`, whose destructuring at line 86 throws. */
  datatype QueriedLog = Decoded(log: FundingLog) | Undecoded

  /** The logs the backfill loop gets to handle: those before the first undecoded entry.
      The throw at line 86 leaves the loop for the catch at lines 90-92. */
  function DecodedPrefix(logs: seq<QueriedLog>): (r: seq<FundingLog>)
    ensures |r| <= |logs|
    ensures forall k :: 0 <= k < |r| ==> logs[k] == Decoded(r[k])
    ensures |r| < |logs| ==> logs[|r|].Undecoded?
  {
    if logs == [] || logs[0].Undecoded? then []
    else [logs[0].log] + DecodedPrefix(logs[1..])
  }

  /** An undecoded entry at `k` hides everything from `k` on. */
  lemma {:induction false} DecodedPrefixCut(logs: seq<QueriedLog>, k: nat)
    requires k < |logs| && logs[k].Undecoded?
    ensures DecodedPrefix(logs) == DecodedPrefix(logs[..k])
  {
    if k > 0 && logs[0].Decoded? {
      assert logs[..k][1..] == logs[1..][..k - 1];
      DecodedPrefixCut(logs[1..], k - 1);
    }
  }

  /** The position of the last '-' in `s`, if there is one. */
  function LastDash(s: string): (r: Option<nat>)
    ensures r.Some? ==> r.value < |s| && s[r.value] == '-' && '-' !in s[r.value + 1..]
    ensures r.None? ==> '-' !in s
  {
    if |s| == 0 then None
    else if s[|s| - 1] == '-' then Some(|s| - 1)
    else
      var r := LastDash(s[..|s| - 1]);
      assert forall k :: 0 <= k < |s| - 1 ==> s[..|s| - 1][k] == s[k];
      if r.Some? then
        assert s[r.value + 1..] == s[..|s| - 1][r.value + 1..] + [s[|s| - 1]];
        r
      else r
  }

  /** Splits a key back into its transaction hash and log index. */
  function ParseId(id: EventId): Option<(string, nat)>
  {
    match LastDash(id)
    case None => None
    case Some(k) =>
      var digits := id[k + 1..];
      if |digits| > 0 && AllDigits(digits) then Some((id[..k], DecimalValue(digits))) else None
  }

  lemma LastDashOfId(h: string, n: nat)
    ensures LastDash(MakeId(h, n)) == Some(|h|)
  {
    var id := MakeId(h, n);
    assert id[|h|] in id;
    assert forall j :: |h| < j < |id| ==> id[j] == Decimal(n)[j - |h| - 1];
    var r := LastDash(id);
    assert forall j :: r.value < j < |id| ==> id[j] == id[r.value + 1..][j - r.value - 1];
  }

  /** Parsing a key gives back the hash and the index it was built from. */
  lemma IdRoundTrip(h: string, n: nat)
    ensures ParseId(MakeId(h, n)) == Some((h, n))
  {
    LastDashOfId(h, n);
    DecimalRoundTrip(n);
  }

  /** Two log entries share a key exactly when they share transaction hash and log index:
      an entry seen by the backfill and again by the live listener collapses to one key,
      and distinct entries never collide. */
  lemma SameIdIffSameEntry(a: FundingLog, b: FundingLog)
    ensures IdOf(a) == IdOf(b) <==>
            a.transactionHash == b.transactionHash && a.logIndex == b.logIndex
  {
    IdRoundTrip(a.transactionHash, a.logIndex);
    IdRoundTrip(b.transactionHash, b.logIndex);
  }
}
