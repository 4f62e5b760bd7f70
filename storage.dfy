/** The in-memory store `MemStorage`: two insertion-ordered maps, users and
    payments, keyed by a freshly generated id, and the queries over them.

    A JavaScript `Map` iterates in insertion order, and both queries depend
    on that order (`find` returns the first match, the stable sort keeps it
    among equal timestamps), so each map is modelled by a `map` together
    with the sequence of its keys in insertion order. */
module Storage {
  import opened Schema

  /** The number of payments `getRecentPayments` returns when no limit is given. */
  const DefaultRecentLimit: nat := 10

  // ---------------------------------------------------------------------
  // Fresh identifiers

  /** A string longer than every string in `used`. */
  lemma {:induction false} LongerThanAll(used: set<string>) returns (w: string)
    ensures forall u :: u in used ==> |u| < |w|
    decreases |used|
  {
    if used == {} {
      w := "";
    } else {
      var u :| u in used;
      var w' := LongerThanAll(used - {u});
      w := if |u| < |w'| then w' else u + "x";
    }
  }

  /** Whatever ids are in use, some id is not: this is what lets the store
      draw a fresh id, the role `randomUUID` plays in the source. */
  lemma FreshIdExists(used: set<Id>)
    ensures exists id: Id :: id !in used
  {
    var w := LongerThanAll(used);
    assert w !in used;
  }

  // ---------------------------------------------------------------------
  // Insertion order

  /** `order` lists every key of `keys` exactly once. */
  ghost predicate ListsKeys(order: seq<Id>, keys: set<Id>)
  {
    && (forall i, j :: 0 <= i < j < |order| ==> order[i] != order[j])
    && (forall i :: 0 <= i < |order| ==> order[i] in keys)
    && (forall k :: k in keys ==> k in order)
  }

  /** The values of `m` in the order `order` lists their keys
      (`Array.from(map.values())`). */
  function InOrder<V>(order: seq<Id>, m: map<Id, V>): (r: seq<V>)
    requires forall i :: 0 <= i < |order| ==> order[i] in m
    ensures |r| == |order|
    ensures forall i :: 0 <= i < |order| ==> r[i] == m[order[i]]
  {
    seq(|order|, i requires 0 <= i < |order| => m[order[i]])
  }

  /** Storing a new key at the end of the order appends its value. */
  lemma InOrderAppend<V>(order: seq<Id>, m: map<Id, V>, id: Id, v: V)
    requires forall i :: 0 <= i < |order| ==> order[i] in m
    requires id !in m
    ensures InOrder(order + [id], m[id := v]) == InOrder(order, m) + [v]
  {
    var before := InOrder(order, m);
    var after := InOrder(order + [id], m[id := v]);
    assert forall i :: 0 <= i < |order| ==> order[i] != id;
    assert forall i :: 0 <= i < |order| ==> after[i] == before[i];
  }

  // ---------------------------------------------------------------------
  // getRecentPayments: a stable sort, newest first, then a prefix

  /** Timestamps never increase along `s`. */
  predicate NewestFirst(s: seq<Payment>)
  {
    forall i, j :: 0 <= i < j < |s| ==> s[i].timestamp >= s[j].timestamp
  }

  /** The payments of `s` created at instant `t`, in their order in `s`.
      A sort is stable exactly when it keeps this subsequence for every `t`. */
  function CreatedAt(s: seq<Payment>, t: int): seq<Payment>
  {
    if s == [] then []
    else (if s[0].timestamp == t then [s[0]] else []) + CreatedAt(s[1..], t)
  }

  /** Insert `p` into `s` just before the first payment that is not newer
      than it. */
  function InsertNewest(p: Payment, s: seq<Payment>): (r: seq<Payment>)
    ensures |r| == |s| + 1
    ensures r[0] == p || (s != [] && r[0] == s[0])
    ensures multiset(r) == multiset(s) + multiset{p}
  {
    if s == [] || p.timestamp >= s[0].timestamp then [p] + s
    else
      assert s == [s[0]] + s[1..];
      [s[0]] + InsertNewest(p, s[1..])
  }

  /** Inserting into a newest-first sequence keeps it newest first. */
  lemma {:induction false} InsertNewestKeepsOrder(p: Payment, s: seq<Payment>)
    requires NewestFirst(s)
    ensures NewestFirst(InsertNewest(p, s))
  {
    if s != [] && p.timestamp < s[0].timestamp {
      var rest := InsertNewest(p, s[1..]);
      InsertNewestKeepsOrder(p, s[1..]);
      forall i, j | 0 <= i < j < |rest| + 1
        ensures ([s[0]] + rest)[i].timestamp >= ([s[0]] + rest)[j].timestamp
      {
        if i == 0 {
          assert rest[0].timestamp >= rest[j - 1].timestamp;
        }
      }
    }
  }

  /** Inserting `p` puts it ahead of every payment of `s` with its own
      timestamp, and leaves the others of that timestamp in their order. */
  lemma {:induction false} InsertNewestCreatedAt(p: Payment, s: seq<Payment>, t: int)
    ensures CreatedAt(InsertNewest(p, s), t) == (if p.timestamp == t then [p] else []) + CreatedAt(s, t)
  {
    if s != [] && p.timestamp < s[0].timestamp {
      var rest := InsertNewest(p, s[1..]);
      var tail := CreatedAt(s[1..], t);
      assert InsertNewest(p, s) == [s[0]] + rest;
      InsertNewestCreatedAt(p, s[1..], t);
      CreatedAtCons(s[0], rest, t);
      if p.timestamp == t {
        assert CreatedAt(s, t) == tail;
        assert CreatedAt([s[0]] + rest, t) == [p] + tail;
      } else {
        assert CreatedAt(rest, t) == tail;
      }
    }
  }

  lemma CreatedAtCons(x: Payment, s: seq<Payment>, t: int)
    ensures CreatedAt([x] + s, t) == (if x.timestamp == t then [x] else []) + CreatedAt(s, t)
  {
    assert ([x] + s)[1..] == s;
  }

  /** The comparator sort of `getRecentPayments`
      (`b.timestamp - a.timestamp`, on a stable sort): newest first and a
      permutation of its input. */
  function SortNewestFirst(ps: seq<Payment>): (r: seq<Payment>)
    ensures |r| == |ps|
    ensures NewestFirst(r)
    ensures multiset(r) == multiset(ps)
  {
    if ps == [] then []
    else
      assert ps == [ps[0]] + ps[1..];
      InsertNewestKeepsOrder(ps[0], SortNewestFirst(ps[1..]));
      InsertNewest(ps[0], SortNewestFirst(ps[1..]))
  }

  /** The sort is stable: for every instant, the payments created at that
      instant come out in their input order. */
  lemma {:induction false} SortIsStable(ps: seq<Payment>, t: int)
    ensures CreatedAt(SortNewestFirst(ps), t) == CreatedAt(ps, t)
  {
    if ps != [] {
      SortIsStable(ps[1..], t);
      InsertNewestCreatedAt(ps[0], SortNewestFirst(ps[1..]), t);
    }
  }

  /** The first `limit` payments of `ps` once sorted newest first:
      `min(limit, |ps|)` payments of `ps`, newest first, and no payment left
      out is newer than one returned. */
  function Recent(ps: seq<Payment>, limit: nat): (r: seq<Payment>)
    ensures |r| == if limit < |ps| then limit else |ps|
    ensures NewestFirst(r)
    ensures multiset(r) <= multiset(ps)
    ensures forall x, y :: x in r && y in ps && y !in r ==> y.timestamp <= x.timestamp
    ensures forall t :: CreatedAt(r, t) <= CreatedAt(ps, t)
  {
    var sorted := SortNewestFirst(ps);
    var n := if limit < |ps| then limit else |ps|;
    forall t ensures CreatedAt(sorted[..n], t) <= CreatedAt(ps, t) {
      CreatedAtPrefix(sorted, n, t);
      SortIsStable(ps, t);
    }
    assert multiset(sorted) == multiset(sorted[..n]) + multiset(sorted[n..]) by {
      assert sorted == sorted[..n] + sorted[n..];
    }
    PrefixHoldsNewest(sorted, n);
    forall y | y in ps ensures y in sorted {
      assert y in multiset(ps);
    }
    sorted[..n]
  }

  /** Cutting a sequence short keeps, for every instant, a prefix of the
      payments created at that instant. */
  lemma {:induction false} CreatedAtPrefix(s: seq<Payment>, n: nat, t: int)
    requires n <= |s|
    ensures CreatedAt(s[..n], t) <= CreatedAt(s, t)
  {
    if n > 0 {
      CreatedAtPrefix(s[1..], n - 1, t);
      assert s[..n][1..] == s[1..][..n - 1];
    } else {
      assert s[..n] == [];
    }
  }

  /** In a newest-first sequence, a payment outside the first `n` is no
      newer than any payment among them. */
  lemma PrefixHoldsNewest(s: seq<Payment>, n: nat)
    requires NewestFirst(s) && n <= |s|
    ensures forall x, y :: x in s[..n] && y in s && y !in s[..n] ==> y.timestamp <= x.timestamp
  {
    var r := s[..n];
    forall x, y | x in r && y in s && y !in r
      ensures y.timestamp <= x.timestamp
    {
      var i :| 0 <= i < n && r[i] == x;
      var k :| 0 <= k < |s| && s[k] == y;
      assert n <= k;
      assert s[i] == x;
    }
  }

  /** When the payments were created at strictly increasing instants, the
      newest-first sort is their reverse insertion order. */
  lemma {:induction false} SortOfOldestFirstIsReversed(ps: seq<Payment>)
    requires forall i, j :: 0 <= i < j < |ps| ==> ps[i].timestamp < ps[j].timestamp
    ensures SortNewestFirst(ps) == Reversed(ps)
  {
    if ps != [] {
      SortOfOldestFirstIsReversed(ps[1..]);
      var tail := Reversed(ps[1..]);
      ReversedElements(ps[1..]);
      InsertOldestLast(ps[0], tail);
      assert Reversed(ps) == tail + [ps[0]];
    }
  }

  /** Reversing keeps the elements. */
  lemma {:induction false} ReversedElements(s: seq<Payment>)
    ensures forall x :: x in Reversed(s) <==> x in s
  {
    if s != [] {
      ReversedElements(s[1..]);
      assert s == [s[0]] + s[1..];
    }
  }

  /** A payment older than everything in `s` goes to the end. */
  lemma {:induction false} InsertOldestLast(p: Payment, s: seq<Payment>)
    requires forall x :: x in s ==> p.timestamp < x.timestamp
    ensures InsertNewest(p, s) == s + [p]
  {
    if s != [] {
      InsertOldestLast(p, s[1..]);
      assert s == [s[0]] + s[1..];
    }
  }

  function Reversed(s: seq<Payment>): seq<Payment>
  {
    if s == [] then [] else Reversed(s[1..]) + [s[0]]
  }

  /** Two payments created in the same millisecond come out oldest first:
      the stable sort keeps insertion order among equal timestamps. */
  lemma TiesKeepInsertionOrder(older: Payment, newer: Payment)
    requires older.timestamp == newer.timestamp
    ensures SortNewestFirst([older, newer]) == [older, newer]
  {
    assert [older, newer][1..] == [newer];
  }

  // ---------------------------------------------------------------------
  // getUserByUsername: the first user, in insertion order, with that name

  function FindByUsername(us: seq<User>, username: string): (r: Option<User>)
    ensures r.None? <==> forall i :: 0 <= i < |us| ==> us[i].username != username
    ensures r.Some? ==> exists i :: 0 <= i < |us| && us[i] == r.value
                          && r.value.username == username
                          && forall j :: 0 <= j < i ==> us[j].username != username
  {
    if us == [] then None
    else if us[0].username == username then Some(us[0])
    else
      var r := FindByUsername(us[1..], username);
      assert r.Some? ==> exists i :: 0 <= i < |us| && us[i] == r.value
                           && r.value.username == username
                           && forall j :: 0 <= j < i ==> us[j].username != username by {
        if r.Some? {
          var i :| 0 <= i < |us| - 1 && us[1..][i] == r.value
                   && forall j :: 0 <= j < i ==> us[1..][j].username != username;
          assert us[i + 1] == r.value;
          forall j | 0 <= j < i + 1 ensures us[j].username != username {
            if j > 0 { assert us[j] == us[1..][j - 1]; }
          }
        }
      }
      r
  }

  /** The currency `createPayment` stores: the given one unless it is
      missing or empty (`currency || "usd"`). */
  function CurrencyOrDefault(c: Option<string>): (r: string)
    ensures r != ""
    ensures c.Some? && c.value != "" ==> r == c.value
    ensures r != DefaultCurrency ==> c == Some(r)
  {
    match c
    case Some(s) => if s != "" then s else DefaultCurrency
    case None => DefaultCurrency
  }

  // ---------------------------------------------------------------------
  // The store

  class MemStorage {
    var users: map<Id, User>
    var userOrder: seq<Id>
    var payments: map<Id, Payment>
    var paymentOrder: seq<Id>

    /** Each map's order lists its keys once each, and every record is
        stored under its own id. */
    ghost predicate Valid()
      reads this
    {
      && ListsKeys(userOrder, users.Keys)
      && ListsKeys(paymentOrder, payments.Keys)
      && |userOrder| == |users|
      && |paymentOrder| == |payments|
      && (forall k :: k in users ==> users[k].id == k)
      && (forall k :: k in payments ==> payments[k].id == k)
    }

    constructor ()
      ensures Valid()
      ensures users == map[] && userOrder == []
      ensures payments == map[] && paymentOrder == []
    {
      users, userOrder := map[], [];
      payments, paymentOrder := map[], [];
    }

    /** The stored users in insertion order. */
    function Users(): (r: seq<User>)
      reads this
      requires Valid()
      ensures |r| == |users|
      ensures forall i :: 0 <= i < |r| ==> r[i] == users[userOrder[i]]
    {
      InOrder(userOrder, users)
    }

    /** The stored payments in insertion order. */
    function Payments(): (r: seq<Payment>)
      reads this
      requires Valid()
      ensures |r| == |payments|
      ensures forall i :: 0 <= i < |r| ==> r[i] == payments[paymentOrder[i]]
    {
      InOrder(paymentOrder, payments)
    }

    function GetUser(id: Id): (r: Option<User>)
      reads this
      requires Valid()
      ensures r.Some? <==> id in users
      ensures r.Some? ==> r.value == users[id] && r.value.id == id
    {
      if id in users then Some(users[id]) else None
    }

    /** Some stored user with that username (the first created) if there is
        one, otherwise nothing. */
    function GetUserByUsername(username: string): (r: Option<User>)
      reads this
      requires Valid()
      ensures r.Some? ==> r.value.id in users && users[r.value.id] == r.value
                          && r.value.username == username
      ensures r.None? <==> forall k :: k in users ==> users[k].username != username
    {
      var us := Users();
      var r := FindByUsername(us, username);
      assert r.None? <==> forall k :: k in users ==> users[k].username != username by {
        forall k | k in users ensures exists i :: 0 <= i < |us| && us[i] == users[k] {
          var i :| 0 <= i < |userOrder| && userOrder[i] == k;
          assert us[i] == users[k];
        }
      }
      r
    }

    method CreateUser(insertUser: InsertUser) returns (user: User)
      requires Valid()
      modifies this
      ensures Valid()
      ensures user.id !in old(users)
      ensures user.username == insertUser.username && user.password == insertUser.password
      ensures users == old(users)[user.id := user]
      ensures userOrder == old(userOrder) + [user.id]
      ensures payments == old(payments) && paymentOrder == old(paymentOrder)
      ensures GetUser(user.id) == Some(user)
    {
      FreshIdExists(users.Keys);
      var id: Id :| id !in users;
      user := User(id, insertUser.username, insertUser.password);
      users := users[id := user];
      userOrder := userOrder + [id];
    }

    /** Adds exactly one payment, under an id not used before, with the
        default currency filled in and the current instant as timestamp.
        Nothing checks `stripePaymentId` for uniqueness. */
    method CreatePayment(insertPayment: InsertPayment, now: int) returns (payment: Payment)
      requires Valid()
      modifies this
      ensures Valid()
      ensures payment.id !in old(payments)
      ensures payment.stripePaymentId == insertPayment.stripePaymentId
      ensures payment.amount == insertPayment.amount
      ensures payment.currency == CurrencyOrDefault(insertPayment.currency)
      ensures payment.timestamp == now
      ensures payments == old(payments)[payment.id := payment]
      ensures paymentOrder == old(paymentOrder) + [payment.id]
      ensures Payments() == old(Payments()) + [payment]
      ensures users == old(users) && userOrder == old(userOrder)
    {
      FreshIdExists(payments.Keys);
      var id: Id :| id !in payments;
      payment := Payment(id, insertPayment.stripePaymentId, insertPayment.amount,
                         CurrencyOrDefault(insertPayment.currency), now);
      InOrderAppend(paymentOrder, payments, id, payment);
      payments := payments[id := payment];
      paymentOrder := paymentOrder + [id];
    }

    /** At most `limit` distinct stored payments, newest first; none left
        out is newer than one returned, and among payments created at the
        same instant the earliest stored are the ones returned, in the
        order they were stored. */
    function GetRecentPayments(limit: nat := DefaultRecentLimit): (r: seq<Payment>)
      reads this
      requires Valid()
      ensures |r| <= limit && |r| <= |payments|
      ensures |r| == limit || |r| == |payments|
      ensures NewestFirst(r)
      ensures forall x :: x in r ==> x.id in payments && payments[x.id] == x
      ensures forall x, k :: x in r && k in payments && payments[k] !in r ==>
                payments[k].timestamp <= x.timestamp
      ensures multiset(r) <= multiset(Payments())
      ensures forall t :: CreatedAt(r, t) <= CreatedAt(Payments(), t)
    {
      var ps := Payments();
      var r := Recent(ps, limit);
      forall x | x in r ensures x.id in payments && payments[x.id] == x {
        assert x in multiset(ps);
        var i :| 0 <= i < |ps| && ps[i] == x;
      }
      forall k | k in payments ensures payments[k] in ps {
        var i :| 0 <= i < |paymentOrder| && paymentOrder[i] == k;
        assert ps[i] == payments[k];
      }
      r
    }
  }

  /** Two payments with the same `stripePaymentId` are both stored: the
      `unique()` constraint of the table is not enforced by the store. */
  method RepeatedStripeIdStoredTwice(insertPayment: InsertPayment, now: int)
    returns (first: Payment, second: Payment, stored: nat)
    ensures first.id != second.id
    ensures first.stripePaymentId == second.stripePaymentId == insertPayment.stripePaymentId
    ensures stored == 2
  {
    var storage := new MemStorage();
    first := storage.CreatePayment(insertPayment, now);
    second := storage.CreatePayment(insertPayment, now);
    stored := |storage.payments|;
  }
}
