// The weekly check-in ledger of the bot: a map from a member's user id to the
// number of check-ins recorded for that member since the last reset, plus the
// order in which members first checked in (a Python dict keeps its keys in
// insertion order, and that order is the order `settle` walks them in).

module Ledger {

  /** A platform-assigned member identifier (a Discord user id). */
  type UserId = int

  /** One `(user_id, count)` pair of the ledger, as `dict.items()` yields it. */
  datatype Entry = Entry(user: UserId, count: nat)

  /** `weekly_counts.get(user, 0)`: an absent member has count 0. */
  function Lookup(counts: map<UserId, nat>, user: UserId): nat
  {
    if user in counts then counts[user] else 0
  }

  /** `weekly_counts[user] = weekly_counts.get(user, 0) + 1`. */
  function Increment(counts: map<UserId, nat>, user: UserId): (r: map<UserId, nat>)
    ensures Lookup(r, user) == Lookup(counts, user) + 1
    ensures forall other :: other != user ==> Lookup(r, other) == Lookup(counts, other)
    ensures r.Keys == counts.Keys + {user}
  {
    counts[user := Lookup(counts, user) + 1]
  }

  /** No member occurs twice in `order`. */
  ghost predicate NoDuplicates(order: seq<UserId>)
  {
    forall i, j :: 0 <= i < j < |order| ==> order[i] != order[j]
  }

  /**
   * The ledger's invariant: `order` lists exactly the stored members, each
   * once, and a stored count is never 0 (it only ever comes from an
   * increment of the default 0).
   */
  ghost predicate WellFormed(counts: map<UserId, nat>, order: seq<UserId>)
  {
    && NoDuplicates(order)
    && (forall user :: user in counts ==> user in order)
    && (forall i :: 0 <= i < |order| ==> order[i] in counts)
    && (forall user :: user in counts ==> counts[user] >= 1)
  }

  /** `weekly_counts.items()`, in insertion order. */
  function ItemsOf(counts: map<UserId, nat>, order: seq<UserId>): (items: seq<Entry>)
    requires forall i :: 0 <= i < |order| ==> order[i] in counts
    ensures |items| == |order|
    ensures forall i :: 0 <= i < |order| ==> items[i] == Entry(order[i], counts[order[i]])
  {
    if |order| == 0 then []
    else ItemsOf(counts, order[..|order| - 1]) + [Entry(order[|order| - 1], counts[order[|order| - 1]])]
  }

  /** Two entries of a sequence that name the same member are the same entry. */
  ghost predicate DistinctUsers(items: seq<Entry>)
  {
    forall e1, e2 :: e1 in items && e2 in items && e1.user == e2.user ==> e1 == e2
  }

  /**
   * The items of a well-formed ledger are exactly its stored members with
   * their stored counts, and no member is listed twice.
   */
  lemma ItemsOfWellFormed(counts: map<UserId, nat>, order: seq<UserId>)
    requires WellFormed(counts, order)
    ensures DistinctUsers(ItemsOf(counts, order))
    ensures forall e: Entry :: e in ItemsOf(counts, order) <==> e.user in counts && e.count == counts[e.user]
  {
    var items := ItemsOf(counts, order);
    forall e: Entry | e.user in counts && e.count == counts[e.user]
      ensures e in items
    {
      var i :| 0 <= i < |order| && order[i] == e.user;
      assert items[i] == e;
    }
  }

  /** A well-formed ledger has no items exactly when it stores no member. */
  lemma ItemsOfEmpty(counts: map<UserId, nat>, order: seq<UserId>)
    requires WellFormed(counts, order)
    ensures |ItemsOf(counts, order)| == 0 <==> counts == map[]
  {
    if |order| == 0 {
      assert forall user :: user !in counts;
    } else {
      assert order[0] in counts;
    }
  }
}
