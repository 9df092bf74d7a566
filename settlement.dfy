// The week-end settlement of the `settle` command: every member in the
// ledger either met the weekly target (a receiver) or owes a penalty for each
// check-in short of it (a payer); the collected penalties are split equally
// among the receivers by floor division, and the remainder is not paid out.

module Settlement {
  import opened Ledger

  /** A member below target: who, how much is owed, and the week's count. */
  datatype Payer = Payer(user: UserId, amount: nat, count: nat)

  /** The partition built by the loop over the ledger, and the running total. */
  datatype Tally = Tally(payers: seq<Payer>, receivers: seq<UserId>, total: nat)

  /** What `settle` reports; the message text built from it is not modelled. */
  datatype Report =
    | NoRecords                  // the ledger is empty: nothing is computed
    | NoPenalty                  // the total penalty is 0
    | NoReceivers(total: nat)    // penalties were collected but nobody met the target
    | Paid(payers: seq<Payer>, receivers: seq<UserId>, total: nat, perPerson: nat)

  /** The penalty owed by a member with `count` check-ins, when below target. */
  function Owed(target: nat, penalty: nat, count: nat): nat
    requires count < target
  {
    (target - count) * penalty
  }

  /** Sum of the amounts owed by `payers`. */
  function TotalOwed(payers: seq<Payer>): nat
  {
    if |payers| == 0 then 0
    else TotalOwed(payers[..|payers| - 1]) + payers[|payers| - 1].amount
  }

  /** The members a payer list names, in order. */
  function PayerUsers(payers: seq<Payer>): (users: seq<UserId>)
    ensures |users| == |payers|
    ensures forall i :: 0 <= i < |payers| ==> users[i] == payers[i].user
  {
    if |payers| == 0 then []
    else PayerUsers(payers[..|payers| - 1]) + [payers[|payers| - 1].user]
  }

  /** A well-formed payer: below target, owing the shortfall times the penalty. */
  ghost predicate ProperPayer(p: Payer, target: nat, penalty: nat)
  {
    p.count < target && p.amount == Owed(target, penalty, p.count)
  }

  /**
   * One pass of the classification loop of `settle`: a count at or above
   * target appends the member to the receivers, any other count appends a
   * payer and adds the amount owed to the total.
   */
  function Place(t: Tally, e: Entry, target: nat, penalty: nat): Tally
  {
    if e.count >= target then Tally(t.payers, t.receivers + [e.user], t.total)
    else
      var amount := Owed(target, penalty, e.count);
      Tally(t.payers + [Payer(e.user, amount, e.count)], t.receivers, t.total + amount)
  }

  /** Appending a payer adds its amount to the sum. */
  lemma TotalOwedAppend(payers: seq<Payer>, p: Payer)
    ensures TotalOwed(payers + [p]) == TotalOwed(payers) + p.amount
  {
    assert (payers + [p])[..|payers|] == payers;
  }

  /** The classification loop of `settle` run over the ledger items, in order. */
  function Classify(items: seq<Entry>, target: nat, penalty: nat): (t: Tally)
    ensures |t.payers| + |t.receivers| == |items|
    ensures t.total == TotalOwed(t.payers)
  {
    if |items| == 0 then Tally([], [], 0)
    else
      var before := Classify(items[..|items| - 1], target, penalty);
      var e := items[|items| - 1];
      if e.count >= target then Place(before, e, target, penalty)
      else
        TotalOwedAppend(before.payers, Payer(e.user, Owed(target, penalty, e.count), e.count));
        Place(before, e, target, penalty)
  }

  /** The tally after `i + 1` loop passes is one more pass after `i` passes. */
  lemma ClassifyPrefix(items: seq<Entry>, i: nat, target: nat, penalty: nat)
    requires i < |items|
    ensures Classify(items[..i + 1], target, penalty) == Place(Classify(items[..i], target, penalty), items[i], target, penalty)
  {
    assert items[..i + 1][..i] == items[..i];
  }

  /** Every payer is below target and owes the shortfall times the penalty. */
  lemma {:induction false} ClassifyPayersOweShortfall(items: seq<Entry>, target: nat, penalty: nat)
    ensures forall p :: p in Classify(items, target, penalty).payers ==> ProperPayer(p, target, penalty)
  {
    if |items| > 0 {
      ClassifyPayersOweShortfall(items[..|items| - 1], target, penalty);
    }
  }

  /**
   * The payout per receiver, `total // receivers`: the largest amount that
   * every receiver can be paid, leaving a remainder below `receivers`
   * undistributed.
   */
  function PerPerson(total: nat, receivers: nat): (share: nat)
    requires receivers > 0
    ensures share * receivers <= total < (share + 1) * receivers
  {
    total / receivers
  }

  /** The report of `settle` for the ledger items `items`. */
  function Compute(items: seq<Entry>, target: nat, penalty: nat): (r: Report)
    ensures r.NoRecords? <==> |items| == 0
    ensures r.NoReceivers? ==> r.total > 0
    ensures r.Paid? ==> r.total > 0 && |r.receivers| > 0
    ensures r.Paid? ==> r.perPerson * |r.receivers| <= r.total < (r.perPerson + 1) * |r.receivers|
  {
    if |items| == 0 then NoRecords
    else
      var t := Classify(items, target, penalty);
      if t.total == 0 then NoPenalty
      else if |t.receivers| == 0 then NoReceivers(t.total)
      else Paid(t.payers, t.receivers, t.total, PerPerson(t.total, |t.receivers|))
  }

  /**
   * Every item lands in the list its count selects: receivers at or above
   * target, otherwise payers with the amount owed for its shortfall.
   */
  lemma {:induction false} ClassifyPlacesEveryItem(items: seq<Entry>, target: nat, penalty: nat)
    ensures forall e :: e in items && e.count >= target ==> e.user in Classify(items, target, penalty).receivers
    ensures forall e :: e in items && e.count < target ==>
              Payer(e.user, Owed(target, penalty, e.count), e.count) in Classify(items, target, penalty).payers
  {
    if |items| > 0 {
      var prefix := items[..|items| - 1];
      ClassifyPlacesEveryItem(prefix, target, penalty);
      assert items == prefix + [items[|items| - 1]];
    }
  }

  /** Nothing enters either list that is not an item with the matching count. */
  lemma {:induction false} ClassifyAddsOnlyItems(items: seq<Entry>, target: nat, penalty: nat)
    ensures forall u :: u in Classify(items, target, penalty).receivers ==>
              exists e :: e in items && e.user == u && e.count >= target
    ensures forall p :: p in Classify(items, target, penalty).payers ==>
              Entry(p.user, p.count) in items && p.count < target
  {
    if |items| > 0 {
      var prefix := items[..|items| - 1];
      ClassifyAddsOnlyItems(prefix, target, penalty);
      assert items == prefix + [items[|items| - 1]];
    }
  }

  /**
   * When no member occurs twice, each member is a receiver exactly when its
   * count meets the target and a payer exactly when it does not.
   */
  lemma ClassifyPartitions(items: seq<Entry>, target: nat, penalty: nat)
    requires DistinctUsers(items)
    ensures forall e :: e in items ==>
              (e.user in Classify(items, target, penalty).receivers <==> e.count >= target)
    ensures forall e :: e in items ==>
              (e.user in PayerUsers(Classify(items, target, penalty).payers) <==> e.count < target)
  {
    var t := Classify(items, target, penalty);
    ClassifyPlacesEveryItem(items, target, penalty);
    ClassifyAddsOnlyItems(items, target, penalty);
    forall e | e in items
      ensures e.user in t.receivers <==> e.count >= target
      ensures e.user in PayerUsers(t.payers) <==> e.count < target
    {
      if e.user in t.receivers {
        var e' :| e' in items && e'.user == e.user && e'.count >= target;
        assert e' == e;
      }
      if e.user in PayerUsers(t.payers) {
        var i :| 0 <= i < |t.payers| && PayerUsers(t.payers)[i] == e.user;
        assert Entry(t.payers[i].user, t.payers[i].count) in items;
      }
      if e.count < target {
        var p := Payer(e.user, Owed(target, penalty, e.count), e.count);
        var i :| 0 <= i < |t.payers| && t.payers[i] == p;
        assert PayerUsers(t.payers)[i] == e.user;
      }
    }
  }

  /** Falling short by `shortfall >= 1` check-ins costs at least one penalty. */
  lemma {:induction false} ShortfallCostsAtLeastPenalty(shortfall: nat, penalty: nat)
    requires shortfall >= 1
    ensures shortfall * penalty >= penalty
  {
    if shortfall > 1 {
      ShortfallCostsAtLeastPenalty(shortfall - 1, penalty);
      assert shortfall * penalty == (shortfall - 1) * penalty + penalty;
    }
  }

  /** A member with at least one check-in owes at most `target - 1` penalties. */
  lemma OwedAtMostFullShortfall(target: nat, penalty: nat, count: nat)
    requires 1 <= count < target
    ensures Owed(target, penalty, count) <= (target - 1) * penalty
  {
    assert (target - 1) * penalty == (target - count) * penalty + (count - 1) * penalty;
  }

  /** A sum of positive amounts is 0 exactly when there are none. */
  lemma {:induction false} TotalOwedZero(payers: seq<Payer>)
    requires forall p :: p in payers ==> p.amount > 0
    ensures TotalOwed(payers) == 0 <==> |payers| == 0
  {
    if |payers| > 0 {
      assert payers[|payers| - 1] in payers;
    }
  }

  /**
   * Which report `settle` gives, decided by the counts alone when the penalty
   * is positive: no penalty when everybody met the target, no receivers when
   * nobody did, a payout otherwise; the reported total and lists are those
   * of the classification.
   */
  lemma ComputeSelectsCase(items: seq<Entry>, target: nat, penalty: nat)
    requires penalty > 0
    ensures var r := Compute(items, target, penalty);
            r.NoPenalty? <==> |items| > 0 && forall e :: e in items ==> e.count >= target
    ensures var r := Compute(items, target, penalty);
            r.NoReceivers? <==> |items| > 0 && forall e :: e in items ==> e.count < target
    ensures var r := Compute(items, target, penalty);
            r.Paid? <==> (exists e :: e in items && e.count >= target) && (exists e :: e in items && e.count < target)
    ensures var r := Compute(items, target, penalty);
            r.NoReceivers? ==> r.total == Classify(items, target, penalty).total
    ensures var r := Compute(items, target, penalty); var t := Classify(items, target, penalty);
            r.Paid? ==> r.payers == t.payers && r.receivers == t.receivers && r.total == t.total
  {
    var t := Classify(items, target, penalty);
    NoPenaltyIffNoPayers(items, target, penalty);
    ClassifyPlacesEveryItem(items, target, penalty);
    ClassifyAddsOnlyItems(items, target, penalty);
    if |t.payers| > 0 {
      var p := t.payers[0];
      assert Entry(p.user, p.count) in items;
    }
    if |t.receivers| > 0 {
      assert t.receivers[0] in t.receivers;
    }
  }

  /** With a positive penalty, the total is 0 exactly when nobody is a payer. */
  lemma NoPenaltyIffNoPayers(items: seq<Entry>, target: nat, penalty: nat)
    requires penalty > 0
    ensures Classify(items, target, penalty).total == 0 <==> |Classify(items, target, penalty).payers| == 0
  {
    var t := Classify(items, target, penalty);
    ClassifyPayersOweShortfall(items, target, penalty);
    forall p | p in t.payers
      ensures p.amount > 0
    {
      ShortfallCostsAtLeastPenalty(target - p.count, penalty);
    }
    TotalOwedZero(t.payers);
  }

  /**
   * A worked week with a target of 5 and a penalty of 1000 per missed
   * check-in: two members pay 2000 and 4000, two receive 3000 each.
   */
  lemma MixedWeekExample()
    ensures Compute([Entry(1, 5), Entry(2, 3), Entry(3, 7), Entry(4, 1)], 5, 1000)
              == Paid([Payer(2, 2000, 3), Payer(4, 4000, 1)], [1, 3], 6000, 3000)
  {
    var items := [Entry(1, 5), Entry(2, 3), Entry(3, 7), Entry(4, 1)];
    assert items[..0] == [];
    ClassifyPrefix(items, 0, 5, 1000);
    assert Classify(items[..1], 5, 1000) == Tally([], [1], 0);
    ClassifyPrefix(items, 1, 5, 1000);
    assert Classify(items[..2], 5, 1000) == Tally([Payer(2, 2000, 3)], [1], 2000);
    ClassifyPrefix(items, 2, 5, 1000);
    assert Classify(items[..3], 5, 1000) == Tally([Payer(2, 2000, 3)], [1, 3], 2000);
    ClassifyPrefix(items, 3, 5, 1000);
    assert items[..4] == items;
    assert Classify(items, 5, 1000) == Tally([Payer(2, 2000, 3), Payer(4, 4000, 1)], [1, 3], 6000);
  }

  /** Nobody met the target: the 7000 collected has nobody to go to. */
  lemma NobodyMetTargetExample()
    ensures Compute([Entry(1, 1), Entry(2, 2)], 5, 1000) == NoReceivers(7000)
  {
    var items := [Entry(1, 1), Entry(2, 2)];
    assert items[..0] == [];
    ClassifyPrefix(items, 0, 5, 1000);
    ClassifyPrefix(items, 1, 5, 1000);
    assert items[..2] == items;
  }

  /** Everybody met the target: there is no penalty. */
  lemma EverybodyMetTargetExample()
    ensures Compute([Entry(1, 5), Entry(2, 6)], 5, 1000) == NoPenalty
  {
    var items := [Entry(1, 5), Entry(2, 6)];
    assert items[..0] == [];
    ClassifyPrefix(items, 0, 5, 1000);
    ClassifyPrefix(items, 1, 5, 1000);
    assert items[..2] == items;
  }
}
