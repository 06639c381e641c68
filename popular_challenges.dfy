/** `api/popular-challenges.js`: the three most liked challenges. */
module PopularChallenges {
  import opened Base
  import opened Http
  import opened Store
  import opened Listing

  function Respond(req: Request, s: seq<Challenge>, queryOk: bool): (r: Reply)
    ensures req.verb == "OPTIONS" ==> r == Preflight
    ensures req.verb != "OPTIONS" && req.verb != "GET" ==> r == Status(METHOD_NOT_ALLOWED)
    ensures req.verb == "GET" && !queryOk ==> r == Status(SERVER_ERROR)
    ensures r.Many? <==> req.verb == "GET" && queryOk
  {
    if req.verb == "OPTIONS" then Preflight
    else if req.verb != "GET" then Status(METHOD_NOT_ALLOWED)
    else if !queryOk then Status(SERVER_ERROR)
    else Many(Top(s, Likes, 3))
  }

  /** At most three rows, all from the table, most liked first, and every
      row left out has no more likes than the least liked row returned. */
  lemma ReturnsTopThree(req: Request, s: seq<Challenge>)
    requires req.verb == "GET"
    ensures var r := Respond(req, s, true);
            && |r.rows| == Min(3, |s|)
            && SortedDesc(r.rows, Likes)
            && multiset(r.rows) <= multiset(s)
            && forall x, y :: x in multiset(s) - multiset(r.rows) && y in r.rows ==> x.likes <= y.likes
  {
    TopIsBest(s, Likes, 3);
  }
}
