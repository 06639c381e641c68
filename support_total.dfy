/** The "raised so far" endpoint, `api/support/total.js`: the sum of the
    amounts of one challenge's donations, read from the `supports` table,
    or from the `support` table when that query fails. */
module SupportTotal {
  import opened Base
  import opened Js
  import opened Http
  import opened Store
  import Support

  /** `parseFloat(item.amount) || 0`: a NaN amount counts as 0. */
  function Amount(d: Donation): int
  {
    if d.amount.Some? then d.amount.value else 0
  }

  /** `rows.reduce((sum, item) => sum + Amount(item), 0)`, a left fold. */
  function Sum(rows: seq<Donation>): int
  {
    if rows == [] then 0 else Sum(rows[..|rows| - 1]) + Amount(rows[|rows| - 1])
  }

  /** `.eq("challenge_id", challengeId)`: the rows whose id reads as the
      query parameter. */
  function ForChallenge(table: seq<Donation>, id: string): (r: seq<Donation>)
    ensures forall d :: d in r <==> d in table && ToString(d.challengeId) == id
  {
    Filter(table, (d: Donation) => ToString(d.challengeId) == id)
  }

  /** The reply: the bare preflight answer, an error status, or `{ total }`
      with status 200. */
  datatype TotalReply = Preflight | Status(code: int) | Total(total: int)

  /** The handler. `configured` says whether the database URL and key are
      set; `supportsOk` and `supportOk` whether each table's query
      succeeded. */
  function Respond(req: Request, configured: bool,
                   supports: seq<Donation>, supportsOk: bool,
                   support: seq<Donation>, supportOk: bool): (r: TotalReply)
    ensures req.verb == "OPTIONS" ==> r == Preflight
    ensures req.verb != "OPTIONS" && req.verb != "GET" ==> r == Status(METHOD_NOT_ALLOWED)
    ensures req.verb == "GET" && !ParamGiven(req, "challengeId") ==> r == Status(BAD_REQUEST)
    ensures req.verb == "GET" && ParamGiven(req, "challengeId") && !configured ==> r == Status(SERVER_ERROR)
    ensures r.Total? <==> req.verb == "GET" && ParamGiven(req, "challengeId") && configured
  {
    if req.verb == "OPTIONS" then Preflight
    else if req.verb != "GET" then Status(METHOD_NOT_ALLOWED)
    else if !ParamGiven(req, "challengeId") then Status(BAD_REQUEST)
    else if !configured then Status(SERVER_ERROR)
    else
      var id := req.query["challengeId"];
      if supportsOk then
        var rows := ForChallenge(supports, id);
        if rows == [] then Total(0) else Total(Sum(rows))
      else if supportOk then Total(Sum(ForChallenge(support, id)))
      else Total(0)
  }

  /** The total a well-formed request reports: the sum over the `supports`
      table when its query succeeds, over `support` when only that one
      succeeds, and 0 when both fail. */
  lemma TotalIsSumOfMatchingRows(req: Request, supports: seq<Donation>, supportsOk: bool,
                                 support: seq<Donation>, supportOk: bool)
    requires req.verb == "GET" && ParamGiven(req, "challengeId")
    ensures var id := req.query["challengeId"];
            Respond(req, true, supports, supportsOk, support, supportOk)
              == Total(if supportsOk then Sum(ForChallenge(supports, id))
                       else if supportOk then Sum(ForChallenge(support, id))
                       else 0)
  {
  }

  lemma {:induction false} SumAppend(a: seq<Donation>, b: seq<Donation>)
    ensures Sum(a + b) == Sum(a) + Sum(b)
    decreases |b|
  {
    if b == [] {
      assert a + b == a;
    } else {
      var n := |b| - 1;
      assert (a + b)[..|a + b| - 1] == a + b[..n];
      SumAppend(a, b[..n]);
    }
  }

  /** The total does not depend on the order the database returns rows in. */
  lemma {:induction false} SumPermutation(a: seq<Donation>, b: seq<Donation>)
    requires multiset(a) == multiset(b)
    ensures Sum(a) == Sum(b)
    decreases |a|
  {
    if a == [] {
      assert |b| == |multiset(b)| == 0;
    } else {
      var n := |a| - 1;
      var x := a[n];
      assert a == a[..n] + [x];
      assert x in multiset(b);
      var j :| 0 <= j < |b| && b[j] == x;
      var rest := b[..j] + b[j + 1..];
      assert b == b[..j] + [x] + b[j + 1..];
      calc {
        multiset(a[..n]) + multiset{x};
        multiset(a);
        multiset(b);
        multiset(b[..j]) + multiset{x} + multiset(b[j + 1..]);
        multiset(rest) + multiset{x};
      }
      assert multiset(a[..n]) == multiset(a) - multiset{x};
      assert multiset(rest) == multiset(b) - multiset{x};
      SumPermutation(a[..n], rest);
      SumAppend(b[..j] + [x], b[j + 1..]);
      SumAppend(b[..j], [x]);
      SumAppend(b[..j], b[j + 1..]);
      assert Sum([x]) == Amount(x) by {
        assert [x][..0] == [];
      }
    }
  }

  /** Two snapshots holding the same rows in any order give the same reply. */
  lemma ReplyIgnoresRowOrder(req: Request, configured: bool,
                             supports: seq<Donation>, supports': seq<Donation>, supportsOk: bool,
                             support: seq<Donation>, support': seq<Donation>, supportOk: bool)
    requires multiset(supports) == multiset(supports')
    requires multiset(support) == multiset(support')
    ensures Respond(req, configured, supports, supportsOk, support, supportOk)
              == Respond(req, configured, supports', supportsOk, support', supportOk)
  {
    if req.verb == "GET" && ParamGiven(req, "challengeId") && configured {
      var id := req.query["challengeId"];
      var a, a' := ForChallenge(supports, id), ForChallenge(supports', id);
      var b, b' := ForChallenge(support, id), ForChallenge(support', id);
      assert multiset(a) == multiset(a');
      assert multiset(b) == multiset(b');
      SumPermutation(a, a');
      SumPermutation(b, b');
      assert a == [] <==> a' == [] by {
        assert |multiset(a)| == |a| && |multiset(a')| == |a'|;
      }
    }
  }

  /** A donation row adds its amount to its own challenge's total and
      nothing to any other challenge's. */
  lemma TotalAfterAppend(table: seq<Donation>, row: Donation, id: string)
    ensures Sum(ForChallenge(table + [row], id))
              == Sum(ForChallenge(table, id)) + (if ToString(row.challengeId) == id then Amount(row) else 0)
  {
    var p := (d: Donation) => ToString(d.challengeId) == id;
    FilterAppend(table, [row], p);
    SumAppend(Filter(table, p), Filter([row], p));
    assert Filter([row], p) == if p(row) then [row] else [] by {
      assert [row][1..] == [];
    }
    if p(row) {
      assert [row][..0] == [];
    }
  }

  /** A table filled only through the donation intake never shows a
      negative total. */
  lemma {:induction false} TotalOfPositiveRowsIsNonNegative(rows: seq<Donation>)
    requires Support.PositiveAmounts(rows)
    ensures Sum(rows) >= 0
    ensures Sum(rows) == 0 <==> rows == []
    decreases |rows|
  {
    if rows != [] {
      var n := |rows| - 1;
      assert Support.PositiveAmounts(rows[..n]) by {
        forall i | 0 <= i < n ensures rows[..n][i].amount.Some? && rows[..n][i].amount.value > 0 {
          assert rows[..n][i] == rows[i];
        }
      }
      TotalOfPositiveRowsIsNonNegative(rows[..n]);
    }
  }

  /** End to end: once the donation intake accepts a POST for challenge
      `id` and the insert succeeds, a total read through the `support`
      fallback is larger by exactly the parsed amount. */
  lemma DonationRaisesTotal(post: Request, get: Request, supports: seq<Donation>, support: seq<Donation>)
    requires post.verb == "POST" && Support.Validate(post.body).Accept?
    requires get.verb == "GET" && ParamGiven(get, "challengeId")
    requires ToString(Field(post.body, "challengeId")) == get.query["challengeId"]
    ensures var after := support + Rows(Support.Respond(post, true).appended);
            Respond(get, true, supports, false, after, true).Total?
            && Respond(get, true, supports, false, after, true).total
               == Sum(ForChallenge(support, get.query["challengeId"]))
                  + ParseIntValue(Field(post.body, "amount")).value
  {
    var row := Support.Validate(post.body).row;
    assert Rows(Support.Respond(post, true).appended) == [row];
    TotalAfterAppend(support, row, get.query["challengeId"]);
  }
}
