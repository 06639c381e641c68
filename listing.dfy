/** The read queries the challenge endpoints send to the `challenges`
    table, as functions of a snapshot of its rows: `.order(column,
    { ascending: false })`, `.limit(n)`, the created-today window, the pick
    of `Math.floor(Math.random() * length)`, and the latest-row fallback. */
module Listing {
  import opened Base
  import opened Store

  /** The columns the queries order by. */
  datatype Column = Likes | CreatedAt

  function Key(c: Challenge, col: Column): int
  {
    match col
    case Likes => c.likes
    case CreatedAt => c.createdAt
  }

  /** Ordered by the column, largest first. */
  predicate SortedDesc(s: seq<Challenge>, col: Column)
  {
    forall i, j :: 0 <= i < j < |s| ==> Key(s[i], col) >= Key(s[j], col)
  }

  /** A row that outranks every row of a descending sequence can head it. */
  lemma PrependSorted(h: Challenge, rest: seq<Challenge>, col: Column)
    requires SortedDesc(rest, col)
    requires forall y :: y in rest ==> Key(h, col) >= Key(y, col)
    ensures SortedDesc([h] + rest, col)
  {
    var r := [h] + rest;
    forall i, j | 0 <= i < j < |r| ensures Key(r[i], col) >= Key(r[j], col) {
      assert r[j] == rest[j - 1];
      if i > 0 {
        assert r[i] == rest[i - 1];
      } else {
        assert rest[j - 1] in rest;
      }
    }
  }

  /** The head of a descending sequence outranks all of it. */
  lemma HeadOutranksAll(s: seq<Challenge>, col: Column)
    requires SortedDesc(s, col) && s != []
    ensures forall y :: y in s ==> Key(s[0], col) >= Key(y, col)
  {
    forall y | y in s ensures Key(s[0], col) >= Key(y, col) {
      var k :| 0 <= k < |s| && s[k] == y;
      if k > 0 {
        assert Key(s[0], col) >= Key(s[k], col);
      }
    }
  }

  /** A row outranking `x` and every row of `tail` outranks every row of a
      rearrangement of `tail` and `x`. */
  lemma OutranksRearrangement(h: Challenge, x: Challenge, tail: seq<Challenge>, rest: seq<Challenge>, col: Column)
    requires multiset(rest) == multiset(tail) + multiset{x}
    requires Key(h, col) >= Key(x, col)
    requires forall y :: y in tail ==> Key(h, col) >= Key(y, col)
    ensures forall y :: y in rest ==> Key(h, col) >= Key(y, col)
  {
    forall y | y in rest ensures Key(h, col) >= Key(y, col) {
      assert y in multiset(rest);
      if y != x {
        assert y in multiset(tail);
      }
    }
  }

  /** `x` placed into a descending sequence before the first row it outranks. */
  function Insert(x: Challenge, s: seq<Challenge>, col: Column): (r: seq<Challenge>)
    requires SortedDesc(s, col)
    ensures SortedDesc(r, col)
    ensures multiset(r) == multiset(s) + multiset{x}
    ensures |r| == |s| + 1
  {
    if s == [] || Key(x, col) >= Key(s[0], col) then
      assert forall y :: y in s ==> Key(x, col) >= Key(y, col) by {
        if s != [] {
          HeadOutranksAll(s, col);
        }
      }
      PrependSorted(x, s, col);
      [x] + s
    else
      assert s == [s[0]] + s[1..];
      var rest := Insert(x, s[1..], col);
      HeadOutranksAll(s, col);
      OutranksRearrangement(s[0], x, s[1..], rest, col);
      PrependSorted(s[0], rest, col);
      [s[0]] + rest
  }

  /** `.order(col, { ascending: false })`: the rows ordered by the column,
      largest first; a permutation of the snapshot. */
  function OrderDesc(s: seq<Challenge>, col: Column): (r: seq<Challenge>)
    ensures SortedDesc(r, col)
    ensures multiset(r) == multiset(s)
    ensures |r| == |s|
  {
    if s == [] then []
    else
      assert s == [s[0]] + s[1..];
      Insert(s[0], OrderDesc(s[1..], col), col)
  }

  /** `.order(col, { ascending: false }).limit(n)`. */
  function Top(s: seq<Challenge>, col: Column, n: nat): seq<Challenge>
  {
    Take(OrderDesc(s, col), n)
  }

  /** In a descending sequence every row of a prefix outranks every row
      after it. */
  lemma PrefixOutranksRest(r: seq<Challenge>, col: Column, n: nat)
    requires SortedDesc(r, col) && n <= |r|
    ensures forall x, y :: x in r[n..] && y in r[..n] ==> Key(x, col) <= Key(y, col)
  {
    forall x, y | x in r[n..] && y in r[..n] ensures Key(x, col) <= Key(y, col) {
      var j :| 0 <= j < |r[n..]| && r[n..][j] == x;
      var i :| 0 <= i < |r[..n]| && r[..n][i] == y;
      assert r[n + j] == x && r[i] == y;
    }
  }

  /** A prefix of a descending sequence is descending. */
  lemma PrefixSorted(r: seq<Challenge>, col: Column, k: nat)
    requires SortedDesc(r, col) && k <= |r|
    ensures SortedDesc(r[..k], col)
  {
    var top := r[..k];
    forall i, j | 0 <= i < j < |top| ensures Key(top[i], col) >= Key(top[j], col) {
      assert top[i] == r[i] && top[j] == r[j];
    }
  }

  /** What a prefix leaves out of a sequence is exactly the rest. */
  lemma PrefixRemainder(s: seq<Challenge>, r: seq<Challenge>, k: nat)
    requires multiset(r) == multiset(s) && k <= |r|
    ensures multiset(s) - multiset(r[..k]) == multiset(r[k..])
    ensures multiset(r[..k]) <= multiset(s)
  {
    assert r == r[..k] + r[k..];
    assert multiset(r) == multiset(r[..k]) + multiset(r[k..]);
  }

  /** A top-n query returns at most n rows, each from the table, largest
      first, and no row it leaves out outranks a row it returns. */
  lemma TopIsBest(s: seq<Challenge>, col: Column, n: nat)
    ensures |Top(s, col, n)| == Min(n, |s|)
    ensures SortedDesc(Top(s, col, n), col)
    ensures multiset(Top(s, col, n)) <= multiset(s)
    ensures forall x, y :: x in multiset(s) - multiset(Top(s, col, n)) && y in Top(s, col, n) ==>
              Key(x, col) <= Key(y, col)
  {
    var r := OrderDesc(s, col);
    var top := Top(s, col, n);
    var k := |top|;
    assert top == r[..k];
    PrefixSorted(r, col, k);
    PrefixRemainder(s, r, k);
    PrefixOutranksRest(r, col, k);
    forall x, y | x in multiset(s) - multiset(top) && y in top ensures Key(x, col) <= Key(y, col) {
      assert x in multiset(r[k..]);
    }
  }

  /** Every row a top-n query returns is a row of the table. */
  lemma TopRowsFromTable(s: seq<Challenge>, col: Column, n: nat)
    ensures forall c :: c in Top(s, col, n) ==> c in s
  {
    var r := OrderDesc(s, col);
    forall c | c in Top(s, col, n) ensures c in s {
      assert c in r;
      assert c in multiset(r);
    }
  }

  /** `.order("created_at", { ascending: false }).limit(1)` then
      `data[0] || null`: the latest row, or null for an empty table. */
  function Newest(s: seq<Challenge>): (r: Option<Challenge>)
    ensures r.None? <==> s == []
    ensures r.Some? ==> r.value in s && forall c :: c in s ==> c.createdAt <= r.value.createdAt
  {
    if s == [] then None
    else
      var ordered := OrderDesc(s, CreatedAt);
      assert ordered[0] in multiset(s);
      assert forall c :: c in s ==> c.createdAt <= ordered[0].createdAt by {
        forall c | c in s ensures c.createdAt <= ordered[0].createdAt {
          assert c in multiset(ordered);
          var j :| 0 <= j < |ordered| && ordered[j] == c;
          if j != 0 {
            assert Key(ordered[0], CreatedAt) >= Key(ordered[j], CreatedAt);
          }
        }
      }
      Some(ordered[0])
  }

  /** `Math.floor(random * length)` for a `Math.random()` value in [0, 1). */
  function PickIndex(random: real, length: nat): (i: nat)
    requires 0.0 <= random < 1.0 && length > 0
    ensures i < length
  {
    var x := random * length as real;
    assert 0.0 <= x < length as real by {
      assert random * length as real < 1.0 * length as real;
    }
    x.Floor
  }

  /** `created_at` lies in [today's UTC midnight, the next midnight). */
  predicate CreatedToday(c: Challenge, now: int)
  {
    UtcMidnight(now) <= c.createdAt < UtcMidnight(now) + DayMs
  }

  /** The `.gte(today).lt(tomorrow)` filter on `created_at`. */
  function CreatedTodayRows(s: seq<Challenge>, now: int): (r: seq<Challenge>)
    ensures forall c :: c in r <==> c in s && CreatedToday(c, now)
  {
    Filter(s, (c: Challenge) => CreatedToday(c, now))
  }

  /** The answer of a read endpoint: the preflight, an error status, one
      row (or null), or a list of rows. */
  datatype Reply = Preflight | Status(code: int) | One(row: Option<Challenge>) | Many(rows: seq<Challenge>)

  /** Today's challenge chosen by creation time, as `api/todays-challenge.js`
      and the `type=today` branch of `api/challenges.js` both compute it:
      a uniformly indexed row created today, else the latest row or null.
      `windowOk` and `recentOk` say whether each query succeeded; a failed
      one is answered 500. */
  function TodayByCreation(s: seq<Challenge>, now: int, random: real,
                           windowOk: bool, recentOk: bool): (r: Reply)
    requires 0.0 <= random < 1.0
    ensures r.One? || r == Status(500)
    ensures r.One? && r.row.Some? ==> r.row.value in s
  {
    if !windowOk then Status(500)
    else
      var today := CreatedTodayRows(s, now);
      if |today| == 0 then
        if !recentOk then Status(500) else One(Newest(s))
      else One(Some(today[PickIndex(random, |today|)]))
  }

  /** The selection rule: when some row was created today the answer is
      one of those rows; otherwise it is the latest row, or null for an
      empty table. */
  lemma TodayByCreationChoice(s: seq<Challenge>, now: int, random: real)
    requires 0.0 <= random < 1.0
    ensures var r := TodayByCreation(s, now, random, true, true);
            && r.One?
            && ((exists c :: c in s && CreatedToday(c, now)) ==>
                  r.row.Some? && CreatedToday(r.row.value, now))
            && ((forall c :: c in s ==> !CreatedToday(c, now)) ==> r.row == Newest(s))
            && (r.row.None? <==> s == [])
  {
    var today := CreatedTodayRows(s, now);
    if exists c :: c in s && CreatedToday(c, now) {
      var c :| c in s && CreatedToday(c, now);
      assert c in today;
      var i := PickIndex(random, |today|);
      assert today[i] in today;
    }
  }
}
