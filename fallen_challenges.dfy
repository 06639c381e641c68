/** `api/fallen-challenges/index.js`: the three most recent challenges
    whose status is "Fallen". */
module FallenChallenges {
  import opened Base
  import opened Http
  import opened Store
  import opened Listing
  import ChallengesApi

  function Respond(req: Request, s: seq<Challenge>, queryOk: bool): (r: Reply)
    ensures req.verb == "OPTIONS" ==> r == Preflight
    ensures req.verb != "OPTIONS" && req.verb != "GET" ==> r == Status(METHOD_NOT_ALLOWED)
    ensures req.verb == "GET" && !queryOk ==> r == Status(SERVER_ERROR)
    ensures r.Many? <==> req.verb == "GET" && queryOk
  {
    if req.verb == "OPTIONS" then Preflight
    else if req.verb != "GET" then Status(METHOD_NOT_ALLOWED)
    else if !queryOk then Status(SERVER_ERROR)
    else Many(Top(ChallengesApi.FallenRows(s), CreatedAt, 3))
  }

  /** Only Fallen rows, at most three, newest first, and no Fallen row left
      out is newer than one returned. */
  lemma ReturnsLatestFallen(req: Request, s: seq<Challenge>)
    requires req.verb == "GET"
    ensures var r := Respond(req, s, true);
            && (forall c :: c in r.rows ==> c in s && c.status == "Fallen")
            && |r.rows| == Min(3, |ChallengesApi.FallenRows(s)|)
            && multiset(r.rows) <= multiset(ChallengesApi.FallenRows(s))
            && SortedDesc(r.rows, CreatedAt)
            && forall x, y :: x in multiset(ChallengesApi.FallenRows(s)) - multiset(r.rows) && y in r.rows ==>
                 x.createdAt <= y.createdAt
  {
    var f := ChallengesApi.FallenRows(s);
    var rows := Top(f, CreatedAt, 3);
    assert Respond(req, s, true) == Many(rows);
    TopIsBest(f, CreatedAt, 3);
    TopRowsFromTable(f, CreatedAt, 3);
    forall c | c in rows ensures c in s && c.status == "Fallen" {
      assert c in f;
    }
    forall x: Challenge, y: Challenge | x in multiset(f) - multiset(rows) && y in rows
      ensures x.createdAt <= y.createdAt
    {
      assert Key(x, CreatedAt) <= Key(y, CreatedAt);
    }
  }
}
