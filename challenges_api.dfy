/** `api/challenges.js`: the GET dispatch over the `challenges` table
    (one row by id, or a list chosen by `type`) and the POST that builds
    and inserts a new challenge. */
module ChallengesApi {
  import opened Base
  import opened Js
  import opened Http
  import opened Store
  import opened Listing
  import opened ChallengeDraft

  /** The rows whose id equals the parameter. */
  function WithId(s: seq<Challenge>, id: string): (r: seq<Challenge>)
    ensures forall c :: c in r <==> c in s && c.id == id
  {
    Filter(s, (c: Challenge) => c.id == id)
  }

  /** The rows with status "Fallen". */
  function FallenRows(s: seq<Challenge>): (r: seq<Challenge>)
    ensures forall c :: c in r <==> c in s && c.status == "Fallen"
    ensures multiset(r) <= multiset(s)
  {
    var r := Filter(s, (c: Challenge) => c.status == "Fallen");
    assert forall c :: multiset(r)[c] <= multiset(s)[c];
    r
  }

  /** The GET branch over a snapshot `s` of the table. `queryOk` says
      whether the branch's query succeeded and `recentOk` whether the
      latest-row fallback of `type=today` did; `random` is the
      `Math.random()` draw. Any failure, and an id matching other than
      exactly one row (`.single()`), is answered 500. */
  function Get(req: Request, s: seq<Challenge>, now: int, random: real,
               queryOk: bool, recentOk: bool): (r: Reply)
    requires 0.0 <= random < 1.0
    ensures !queryOk ==> r == Status(SERVER_ERROR)
    ensures r.One? || r.Many? || r == Status(SERVER_ERROR)
  {
    if ParamGiven(req, "id") then
      var matches := WithId(s, req.query["id"]);
      if !queryOk || |matches| != 1 then Status(SERVER_ERROR) else One(Some(matches[0]))
    else if !queryOk then Status(SERVER_ERROR)
    else match Param(req, "type")
      case Some("popular") => Many(Top(s, Likes, 3))
      case Some("fallen") => Many(OrderDesc(FallenRows(s), CreatedAt))
      case Some("today") => TodayByCreation(s, now, random, true, recentOk)
      case _ => Many(OrderDesc(s, CreatedAt))
  }

  /** An `id` parameter wins over `type`: the answer is the one row with
      that id, whatever `type` says. */
  lemma IdTakesPrecedence(req: Request, s: seq<Challenge>, now: int, random: real, recentOk: bool)
    requires 0.0 <= random < 1.0
    requires ParamGiven(req, "id")
    ensures var r := Get(req, s, now, random, true, recentOk);
            r.One? ==> r.row.Some? && r.row.value in s && r.row.value.id == req.query["id"]
    ensures |WithId(s, req.query["id"])| == 1 ==>
              Get(req, s, now, random, true, recentOk) == One(Some(WithId(s, req.query["id"])[0]))
    ensures |WithId(s, req.query["id"])| != 1 ==>
              Get(req, s, now, random, true, recentOk) == Status(SERVER_ERROR)
  {
    var matches := WithId(s, req.query["id"]);
    if |matches| == 1 {
      assert matches[0] in matches;
    }
  }

  /** `type=popular`: at most three rows, most liked first, and no row left
      out has more likes than a row returned. */
  lemma PopularBranch(req: Request, s: seq<Challenge>, now: int, random: real, recentOk: bool)
    requires 0.0 <= random < 1.0
    requires !ParamGiven(req, "id") && Param(req, "type") == Some("popular")
    ensures var r := Get(req, s, now, random, true, recentOk);
            && r.Many? && |r.rows| == Min(3, |s|) && SortedDesc(r.rows, Likes)
            && multiset(r.rows) <= multiset(s)
            && forall x, y :: x in multiset(s) - multiset(r.rows) && y in r.rows ==> x.likes <= y.likes
  {
    TopIsBest(s, Likes, 3);
  }

  /** `type=fallen`: exactly the Fallen rows, each as often as in the
      table, newest first. */
  lemma FallenBranch(req: Request, s: seq<Challenge>, now: int, random: real, recentOk: bool)
    requires 0.0 <= random < 1.0
    requires !ParamGiven(req, "id") && Param(req, "type") == Some("fallen")
    ensures var r := Get(req, s, now, random, true, recentOk);
            && r.Many? && SortedDesc(r.rows, CreatedAt)
            && (forall c :: c in r.rows <==> c in s && c.status == "Fallen")
            && multiset(r.rows) == multiset(FallenRows(s))
  {
    var f := FallenRows(s);
    var o := OrderDesc(f, CreatedAt);
    forall c ensures c in o <==> c in f {
      assert c in o <==> c in multiset(o);
    }
  }

  /** `type=today`: a row created today when there is one, otherwise the
      latest row or null. */
  lemma TodayBranch(req: Request, s: seq<Challenge>, now: int, random: real)
    requires 0.0 <= random < 1.0
    requires !ParamGiven(req, "id") && Param(req, "type") == Some("today")
    ensures var r := Get(req, s, now, random, true, true);
            && r.One?
            && ((exists c :: c in s && CreatedToday(c, now)) ==>
                  r.row.Some? && r.row.value in s && CreatedToday(r.row.value, now))
            && ((forall c :: c in s ==> !CreatedToday(c, now)) ==> r.row == Newest(s))
  {
    assert Get(req, s, now, random, true, true) == TodayByCreation(s, now, random, true, true);
    TodayByCreationChoice(s, now, random);
  }

  /** With no id and no recognised type, every row, newest first. */
  lemma DefaultBranch(req: Request, s: seq<Challenge>, now: int, random: real, recentOk: bool)
    requires 0.0 <= random < 1.0
    requires !ParamGiven(req, "id")
    requires Param(req, "type") !in {Some("popular"), Some("fallen"), Some("today")}
    ensures var r := Get(req, s, now, random, true, recentOk);
            r.Many? && SortedDesc(r.rows, CreatedAt) && multiset(r.rows) == multiset(s)
  {
  }

  /** The POST branch: a body that cannot be destructured is answered 500,
      a missing name, email or title 400, a refused images value 400;
      otherwise the full payload with `end_date` is inserted (201) or the
      insert fails (500). */
  function Post(body: Value, json: Json, now: int, insertOk: bool): (r: Step<Draft>)
    ensures !Destructurable(body) ==> r == Step(SERVER_ERROR, None)
    ensures Destructurable(body) && !RequiredGiven(body) ==> r == Step(BAD_REQUEST, None)
    ensures r.appended.Some? <==> r.status == CREATED
    ensures r.appended.Some? <==>
              && Destructurable(body) && RequiredGiven(body) && insertOk
              && NormalizeImages(Field(body, "images"), json).Images?
    ensures r.appended.Some? ==>
              r.appended.value == FullDraft(body, NormalizeImages(Field(body, "images"), json).value, now, true)
  {
    if !Destructurable(body) then Step(SERVER_ERROR, None)
    else if !RequiredGiven(body) then Step(BAD_REQUEST, None)
    else match NormalizeImages(Field(body, "images"), json)
      case BadImages => Step(BAD_REQUEST, None)
      case Images(images) =>
        if insertOk then Step(CREATED, Some(FullDraft(body, images, now, true)))
        else Step(SERVER_ERROR, None)
  }

  /** A created challenge runs for two weeks and starts in progress unless
      the client gave a status. */
  lemma CreatedRunsTwoWeeks(body: Value, json: Json, now: int)
    ensures var r := Post(body, json, now, true);
            r.appended.Some? ==>
              && r.appended.value.startDate == Some(DateOnly(DayOf(now)))
              && r.appended.value.endDay == Some(DayOf(now) + 14)
              && (!Truthy(Field(body, "status")) ==> r.appended.value.status == Some(Str("In Progress")))
  {
  }

  /** The reply of the whole handler and the payload it inserted, if any. */
  datatype Outcome = Outcome(reply: Reply, inserted: Option<Draft>)

  function Respond(req: Request, s: seq<Challenge>, json: Json, now: int, random: real,
                   queryOk: bool, recentOk: bool, insertOk: bool): (r: Outcome)
    requires 0.0 <= random < 1.0
    ensures req.verb == "OPTIONS" ==> r == Outcome(Preflight, None)
    ensures req.verb !in {"OPTIONS", "GET", "POST"} ==> r == Outcome(Status(METHOD_NOT_ALLOWED), None)
    ensures r.inserted.Some? ==> req.verb == "POST" && r.reply == Status(CREATED)
    ensures req.verb == "GET" ==> r == Outcome(Get(req, s, now, random, queryOk, recentOk), None)
    ensures req.verb == "POST" ==>
              r == Outcome(Status(Post(req.body, json, now, insertOk).status),
                           Post(req.body, json, now, insertOk).appended)
  {
    if HandleOptionsRequest(req) then Outcome(Preflight, None)
    else if req.verb == "GET" then Outcome(Get(req, s, now, random, queryOk, recentOk), None)
    else if req.verb == "POST" then
      var step := Post(req.body, json, now, insertOk);
      Outcome(Status(step.status), step.appended)
    else Outcome(Status(METHOD_NOT_ALLOWED), None)
  }

  /** The handler against the database: a POST that succeeds appends its
      payload to the accepted inserts; nothing else changes any table. */
  method Handle(db: Database, req: Request, s: seq<Challenge>, json: Json, now: int, random: real,
                queryOk: bool, recentOk: bool, insertOk: bool) returns (reply: Reply)
    requires 0.0 <= random < 1.0
    modifies db
    ensures reply == Respond(req, s, json, now, random, queryOk, recentOk, insertOk).reply
    ensures db.challengeInserts
              == old(db.challengeInserts) + Rows(Respond(req, s, json, now, random, queryOk, recentOk, insertOk).inserted)
    ensures db.support == old(db.support) && db.supports == old(db.supports)
    ensures db.comments == old(db.comments)
  {
    if HandleOptionsRequest(req) {
      return Preflight;
    }
    if req.verb == "GET" {
      return Get(req, s, now, random, queryOk, recentOk);
    }
    if req.verb != "POST" {
      return Status(METHOD_NOT_ALLOWED);
    }
    var step := Post(req.body, json, now, insertOk);
    if step.appended.Some? {
      db.challengeInserts := db.challengeInserts + [step.appended.value];
    }
    reply := Status(step.status);
  }
}
