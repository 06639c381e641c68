/** `api/todays-challenge.js`: a random challenge created today (UTC),
    or the latest challenge when none was. */
module TodaysChallenge {
  import opened Base
  import opened Http
  import opened Store
  import opened Listing

  function Respond(req: Request, s: seq<Challenge>, now: int, random: real,
                   windowOk: bool, recentOk: bool): (r: Reply)
    requires 0.0 <= random < 1.0
    ensures req.verb == "OPTIONS" ==> r == Preflight
    ensures req.verb != "OPTIONS" && req.verb != "GET" ==> r == Status(METHOD_NOT_ALLOWED)
    ensures req.verb == "GET" && !windowOk ==> r == Status(SERVER_ERROR)
    ensures req.verb == "GET" ==> r == TodayByCreation(s, now, random, windowOk, recentOk)
  {
    if req.verb == "OPTIONS" then Preflight
    else if req.verb == "GET" then TodayByCreation(s, now, random, windowOk, recentOk)
    else Status(METHOD_NOT_ALLOWED)
  }

  /** A row created today when there is one; otherwise the latest row, or
      null for an empty table; a failed fallback query is answered 500. */
  lemma Selection(req: Request, s: seq<Challenge>, now: int, random: real)
    requires 0.0 <= random < 1.0 && req.verb == "GET"
    ensures var r := Respond(req, s, now, random, true, true);
            && ((exists c :: c in s && CreatedToday(c, now)) ==>
                  r.One? && r.row.Some? && r.row.value in s && CreatedToday(r.row.value, now))
            && ((forall c :: c in s ==> !CreatedToday(c, now)) ==> r == One(Newest(s)))
    ensures (forall c :: c in s ==> !CreatedToday(c, now)) ==>
              Respond(req, s, now, random, true, false) == Status(SERVER_ERROR)
  {
    TodayByCreationChoice(s, now, random);
    if forall c :: c in s ==> !CreatedToday(c, now) {
      var today := CreatedTodayRows(s, now);
      assert |today| == 0;
    }
  }
}
