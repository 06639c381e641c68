/** `api/todays-challenge/index.js`: a random challenge among at most ten
    whose `start_date` is today's UTC date, or the latest challenge when
    there is none. */
module TodaysChallengeIndex {
  import opened Base
  import opened Http
  import opened Store
  import opened Listing

  predicate StartsToday(c: Challenge, now: int)
  {
    c.startDay == Some(DayOf(now))
  }

  /** `.eq("start_date", today).limit(10)`. */
  function Candidates(s: seq<Challenge>, now: int): (r: seq<Challenge>)
    ensures |r| <= 10
    ensures forall c :: c in r ==> c in s && StartsToday(c, now)
    ensures (exists c :: c in s && StartsToday(c, now)) ==> r != []
  {
    var all := Filter(s, (c: Challenge) => StartsToday(c, now));
    var r := Take(all, 10);
    assert forall c :: c in r ==> c in all;
    assert (exists c :: c in s && StartsToday(c, now)) ==> r != [] by {
      if exists c :: c in s && StartsToday(c, now) {
        var c :| c in s && StartsToday(c, now);
        assert c in all;
      }
    }
    r
  }

  /** The handler. `startOk` and `latestOk` say whether each query
      succeeded; either failure is answered 500. */
  function Respond(req: Request, s: seq<Challenge>, now: int, random: real,
                   startOk: bool, latestOk: bool): (r: Reply)
    requires 0.0 <= random < 1.0
    ensures req.verb == "OPTIONS" ==> r == Preflight
    ensures req.verb != "OPTIONS" && req.verb != "GET" ==> r == Status(METHOD_NOT_ALLOWED)
    ensures req.verb == "GET" && !startOk ==> r == Status(SERVER_ERROR)
    ensures r.One? && r.row.Some? ==> r.row.value in s
  {
    if req.verb == "OPTIONS" then Preflight
    else if req.verb != "GET" then Status(METHOD_NOT_ALLOWED)
    else if !startOk then Status(SERVER_ERROR)
    else
      var candidates := Candidates(s, now);
      if |candidates| == 0 then
        if !latestOk then Status(SERVER_ERROR) else One(Newest(s))
      else One(Some(candidates[PickIndex(random, |candidates|)]))
  }

  /** With a challenge starting today the answer starts today; with none the
      answer is the latest challenge, or null, and a failed fallback query
      is answered 500. */
  lemma Selection(req: Request, s: seq<Challenge>, now: int, random: real)
    requires 0.0 <= random < 1.0 && req.verb == "GET"
    ensures (exists c :: c in s && StartsToday(c, now)) ==>
              var r := Respond(req, s, now, random, true, true);
              r.One? && r.row.Some? && StartsToday(r.row.value, now)
    ensures (forall c :: c in s ==> !StartsToday(c, now)) ==>
              && Respond(req, s, now, random, true, true) == One(Newest(s))
              && Respond(req, s, now, random, true, false) == Status(SERVER_ERROR)
  {
    var candidates := Candidates(s, now);
    if exists c :: c in s && StartsToday(c, now) {
      var i := PickIndex(random, |candidates|);
      assert candidates[i] in candidates;
    } else {
      assert |candidates| == 0;
    }
  }
}
