// The bot's live state and the commands that read or change it: `solve`
// (check in a solved problem), `settle` (the week-end settlement),
// `resetweek` and the weekly auto-reset task. The Discord calls around them
// (replies, member name lookups, permission checks) are not modelled.

module Bot {
  import opened Ledger
  import Settlement

  type ChannelId = int

  /** Weekly check-in target and penalty per missed check-in used by `settle`. */
  const Target: nat := 5
  const PenaltyPerMiss: nat := 1000

  /** The URL prefix a check-in must start with. */
  const UrlPrefix: string := "http"

  /** A `!solve <url>` request: where it was sent, its argument, its author. */
  datatype SolveRequest = SolveRequest(channel: ChannelId, url: string, author: UserId)

  /** Why `solve` turns a request away. */
  datatype Rejection = WrongChannel | MalformedUrl

  /** The verdict of the gate of `solve`. */
  datatype Verdict = Accept | Reject(reason: Rejection)

  /** The reply `solve` sends; `Recorded` carries the author's new weekly count. */
  datatype SolveOutcome = Rejected(reason: Rejection) | Recorded(count: nat)

  /** The gate of `solve`: the channel is checked first, then the URL prefix. */
  function Gate(verifyChannel: ChannelId, channel: ChannelId, url: string): (v: Verdict)
    ensures v == Accept <==> channel == verifyChannel && UrlPrefix <= url
    ensures v == Reject(WrongChannel) <==> channel != verifyChannel
  {
    if channel != verifyChannel then Reject(WrongChannel)
    else if !(UrlPrefix <= url) then Reject(MalformedUrl)
    else Accept
  }

  /** The ledger after one `solve` request. */
  function Step(verifyChannel: ChannelId, counts: map<UserId, nat>, req: SolveRequest): (r: map<UserId, nat>)
    ensures Gate(verifyChannel, req.channel, req.url).Reject? ==> r == counts
    ensures Gate(verifyChannel, req.channel, req.url) == Accept ==>
              forall user :: Lookup(r, user) == Lookup(counts, user) + (if user == req.author then 1 else 0)
  {
    if Gate(verifyChannel, req.channel, req.url) == Accept then Increment(counts, req.author) else counts
  }

  /** The ledger after a series of `solve` requests, oldest first. */
  function Run(verifyChannel: ChannelId, counts: map<UserId, nat>, reqs: seq<SolveRequest>): map<UserId, nat>
    decreases |reqs|
  {
    if |reqs| == 0 then counts
    else Run(verifyChannel, Step(verifyChannel, counts, reqs[0]), reqs[1..])
  }

  /** How many of `reqs` are accepted check-ins by `user`. */
  function AcceptedBy(verifyChannel: ChannelId, reqs: seq<SolveRequest>, user: UserId): nat
  {
    if |reqs| == 0 then 0
    else
      (if reqs[0].author == user && Gate(verifyChannel, reqs[0].channel, reqs[0].url) == Accept then 1 else 0)
      + AcceptedBy(verifyChannel, reqs[1..], user)
  }

  /**
   * Every accepted check-in adds exactly one to its author's count and
   * nothing else changes a count: after any series of requests, a member's
   * count is the old count plus the member's accepted requests.
   */
  lemma {:induction false} RunCountsAccepted(verifyChannel: ChannelId, counts: map<UserId, nat>,
                                             reqs: seq<SolveRequest>, user: UserId)
    ensures Lookup(Run(verifyChannel, counts, reqs), user) == Lookup(counts, user) + AcceptedBy(verifyChannel, reqs, user)
    decreases |reqs|
  {
    if |reqs| > 0 {
      RunCountsAccepted(verifyChannel, Step(verifyChannel, counts, reqs[0]), reqs[1..], user);
    }
  }

  /** The module-level state of the bot: its configuration and `weekly_counts`. */
  class Bot {
    /** `VERIFY_CHANNEL_ID`: the only channel `solve` accepts. */
    const verifyChannel: ChannelId
    /** `weekly_counts`: user id to this week's number of check-ins. */
    var weeklyCounts: map<UserId, nat>
    /** The keys of `weekly_counts` in insertion order. */
    var order: seq<UserId>

    ghost predicate Valid()
      reads this
    {
      WellFormed(weeklyCounts, order)
    }

    /** `weekly_counts.get(user, 0)`. */
    function Get(user: UserId): nat
      reads this
    {
      Lookup(weeklyCounts, user)
    }

    /** `weekly_counts.items()`. */
    function Items(): seq<Entry>
      reads this
      requires Valid()
    {
      ItemsOf(weeklyCounts, order)
    }

    /** The bot starts with an empty ledger. */
    constructor (verifyChannel: ChannelId)
      ensures Valid()
      ensures this.verifyChannel == verifyChannel
      ensures weeklyCounts == map[] && order == []
    {
      this.verifyChannel := verifyChannel;
      weeklyCounts := map[];
      order := [];
    }

    /**
     * `!solve <url>`: rejected on any channel other than the verify channel,
     * then rejected when the URL does not start with "http"; otherwise the
     * author's count goes up by one and the new count is reported.
     */
    method Solve(channel: ChannelId, url: string, author: UserId) returns (outcome: SolveOutcome)
      requires Valid()
      modifies this
      ensures Valid()
      ensures weeklyCounts == Step(verifyChannel, old(weeklyCounts), SolveRequest(channel, url, author))
      ensures outcome.Rejected? <==> Gate(verifyChannel, channel, url).Reject?
      ensures outcome.Rejected? ==> outcome.reason == Gate(verifyChannel, channel, url).reason
      ensures outcome.Recorded? ==> outcome.count == old(Get(author)) + 1 == Get(author)
      ensures order == if outcome.Recorded? && author !in old(weeklyCounts) then old(order) + [author] else old(order)
    {
      if channel != verifyChannel {
        return Rejected(WrongChannel);
      }
      if !(UrlPrefix <= url) {
        return Rejected(MalformedUrl);
      }
      if author !in weeklyCounts {
        order := order + [author];
      }
      weeklyCounts := weeklyCounts[author := Lookup(weeklyCounts, author) + 1];
      outcome := Recorded(weeklyCounts[author]);
    }

    /** `!resetweek`: the ledger is replaced by an empty one. */
    method ResetWeek()
      modifies this
      ensures Valid()
      ensures weeklyCounts == map[] && order == []
      ensures forall user :: Get(user) == 0
    {
      weeklyCounts := map[];
      order := [];
    }

    /** The weekly auto-reset task: the ledger is replaced by an empty one. */
    method WeeklyAutoReset()
      modifies this
      ensures Valid()
      ensures weeklyCounts == map[] && order == []
      ensures forall user :: Get(user) == 0
    {
      weeklyCounts := map[];
      order := [];
    }

    /**
     * The loop of `settle`: walks the ledger in insertion order, sorting
     * members into receivers and payers and summing the penalties.
     */
    method ClassifyWeek() returns (payers: seq<Settlement.Payer>, receivers: seq<UserId>, totalPenalty: nat)
      requires Valid()
      ensures Settlement.Tally(payers, receivers, totalPenalty) == Settlement.Classify(Items(), Target, PenaltyPerMiss)
    {
      ghost var items := Items();
      payers, receivers, totalPenalty := [], [], 0;
      for i := 0 to |order|
        invariant Settlement.Tally(payers, receivers, totalPenalty) == Settlement.Classify(items[..i], Target, PenaltyPerMiss)
      {
        var user := order[i];
        var count := weeklyCounts[user];
        Settlement.ClassifyPrefix(items, i, Target, PenaltyPerMiss);
        assert items[i] == Entry(user, count);
        if count >= Target {
          receivers := receivers + [user];
        } else {
          var miss := Target - count;
          var amount := miss * PenaltyPerMiss;
          totalPenalty := totalPenalty + amount;
          payers := payers + [Settlement.Payer(user, amount, count)];
        }
      }
      assert items[..|order|] == items;
    }

    /**
     * `!settle`: nothing is computed on an empty ledger; otherwise the
     * classification is reported, with its two early exits (no penalty,
     * no receivers) before the floor-divided payout.
     */
    method Settle() returns (report: Settlement.Report)
      requires Valid()
      ensures report == Settlement.Compute(Items(), Target, PenaltyPerMiss)
    {
      ItemsOfEmpty(weeklyCounts, order);
      if weeklyCounts == map[] {
        return Settlement.NoRecords;
      }
      var payers, receivers, totalPenalty := ClassifyWeek();
      if totalPenalty == 0 {
        return Settlement.NoPenalty;
      }
      if |receivers| == 0 {
        return Settlement.NoReceivers(totalPenalty);
      }
      var perPerson := Settlement.PerPerson(totalPenalty, |receivers|);
      report := Settlement.Paid(payers, receivers, totalPenalty, perPerson);
    }
  }

  /**
   * On a well-formed ledger, a paid-out settlement puts every stored member
   * in exactly one of its two lists: the receivers when its count meets the
   * target, otherwise the payers.
   */
  lemma SettlementCoversLedger(counts: map<UserId, nat>, order: seq<UserId>, target: nat, penalty: nat)
    requires WellFormed(counts, order)
    ensures var r := Settlement.Compute(ItemsOf(counts, order), target, penalty);
            r.Paid? ==> forall user :: user in counts ==>
              && (user in r.receivers <==> counts[user] >= target)
              && (user in Settlement.PayerUsers(r.payers) <==> counts[user] < target)
  {
    var items := ItemsOf(counts, order);
    ItemsOfWellFormed(counts, order);
    Settlement.ClassifyPartitions(items, target, penalty);
    forall user | user in counts
      ensures Entry(user, counts[user]) in items
    {
    }
  }

  /**
   * Only members with an accepted check-in are in the ledger, so a member
   * with none this week is never charged, and every payer has at least one
   * check-in and owes at most (target - 1) penalties.
   */
  lemma LedgerPayersCheckedIn(counts: map<UserId, nat>, order: seq<UserId>, target: nat, penalty: nat)
    requires WellFormed(counts, order)
    ensures forall p :: p in Settlement.Classify(ItemsOf(counts, order), target, penalty).payers ==>
              && p.user in counts
              && 1 <= p.count < target
              && p.amount <= (target - 1) * penalty
  {
    var items := ItemsOf(counts, order);
    ItemsOfWellFormed(counts, order);
    Settlement.ClassifyAddsOnlyItems(items, target, penalty);
    Settlement.ClassifyPayersOweShortfall(items, target, penalty);
    forall p | p in Settlement.Classify(items, target, penalty).payers
      ensures p.user in counts && 1 <= p.count < target && p.amount <= (target - 1) * penalty
    {
      assert Entry(p.user, p.count) in items;
      Settlement.OwedAtMostFullShortfall(target, penalty, p.count);
    }
  }
}
