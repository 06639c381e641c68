/** `api/challenges/index.js`: challenge creation with a bounded retry
    chain. The first insert carries the full payload without `end_date`;
    when it fails with a message about a date or a constraint, a second
    insert gives `start_date` as a full timestamp, and a third carries only
    the basic columns. */
module ChallengeCreate {
  import opened Base
  import opened Text
  import opened Js
  import opened Http
  import opened Store
  import opened ChallengeDraft

  /** What the database answers to one insert: success, or an error whose
      `message` may be missing. */
  datatype Attempt = Inserted | Failed(message: Option<string>)

  /** `error.message && (message.includes("date") || message.includes("constraint"))`. */
  predicate DateRelated(a: Attempt)
  {
    a.Failed? && a.message.Some? && a.message.value != ""
    && (Includes(a.message.value, "date") || Includes(a.message.value, "constraint"))
  }

  /** The retry payload: the first one with `start_date` as the ISO
      timestamp of a second clock reading. */
  function RetryDraft(first: Draft, retryNow: int): (d: Draft)
    ensures d.startDate == Some(Timestamp(retryNow))
    ensures d == first.(startDate := Some(Timestamp(retryNow)))
  {
    first.(startDate := Some(Timestamp(retryNow)))
  }

  /** The last-resort payload: name, email, title, motivation, plan, images
      and money only. */
  function BasicDraft(body: Value, images: Value): (d: Draft)
    ensures d.status.None? && d.progress.None? && d.likes.None?
    ensures d.startDate.None? && d.endDay.None?
  {
    var full := FullDraft(body, images, 0, false);
    full.(status := None, progress := None, likes := None, startDate := None)
  }

  /** The payloads a validated request tries, in order. */
  function Drafts(body: Value, images: Value, now: int, retryNow: int): (ds: seq<Draft>)
    ensures |ds| == 3
  {
    var first := FullDraft(body, images, now, false);
    [first, RetryDraft(first, retryNow), BasicDraft(body, images)]
  }

  /** The result of the handler: its status, the payload the table accepted
      (if any), and the payloads it tried, in order. */
  datatype Result = Result(status: int, inserted: Option<Draft>, tried: seq<Draft>)

  /** The insert chain of lines 143-231 over the answers `db` gives to each
      payload. */
  function Chain(drafts: seq<Draft>, db: Draft -> Attempt): (r: Result)
    requires |drafts| == 3
    ensures 1 <= |r.tried| <= 3 && r.tried == drafts[..|r.tried|]
    ensures r.inserted.Some? <==> r.status == CREATED
    ensures r.inserted.Some? ==> r.inserted.value == r.tried[|r.tried| - 1] && db(r.inserted.value).Inserted?
    ensures r.inserted.None? ==> r.status == SERVER_ERROR
    ensures forall i :: 0 <= i < |r.tried| - 1 ==> db(r.tried[i]).Failed?
    ensures db(drafts[0]).Failed? && !DateRelated(db(drafts[0])) ==> |r.tried| == 1
    ensures DateRelated(db(drafts[0])) ==> |r.tried| >= 2
    ensures DateRelated(db(drafts[0])) && db(drafts[1]).Failed? ==> |r.tried| == 3
  {
    var a1 := db(drafts[0]);
    if a1.Inserted? then Result(CREATED, Some(drafts[0]), drafts[..1])
    else if !DateRelated(a1) then Result(SERVER_ERROR, None, drafts[..1])
    else if db(drafts[1]).Inserted? then Result(CREATED, Some(drafts[1]), drafts[..2])
    else if db(drafts[2]).Inserted? then Result(CREATED, Some(drafts[2]), drafts)
    else Result(SERVER_ERROR, None, drafts)
  }

  /** The handler: OPTIONS 200, a method other than POST 405, no database
      client 500, then the validation of the shared payload and the chain.
      `now` and `retryNow` are the two clock readings. */
  function Respond(req: Request, clientOk: bool, json: Json, now: int, retryNow: int,
                   db: Draft -> Attempt): (r: Result)
    ensures req.verb == "OPTIONS" ==> r == Result(OK, None, [])
    ensures req.verb != "OPTIONS" && req.verb != "POST" ==> r == Result(METHOD_NOT_ALLOWED, None, [])
    ensures req.verb == "POST" && !clientOk ==> r == Result(SERVER_ERROR, None, [])
    ensures req.verb == "POST" && !Destructurable(req.body) ==> r == Result(SERVER_ERROR, None, [])
    ensures req.verb == "POST" && clientOk && Destructurable(req.body) && !RequiredGiven(req.body) ==>
              r == Result(BAD_REQUEST, None, [])
    ensures req.verb == "POST" && clientOk && Destructurable(req.body) && RequiredGiven(req.body) ==>
              var n := NormalizeImages(Field(req.body, "images"), json);
              && (n.BadImages? ==> r == Result(BAD_REQUEST, None, []))
              && (n.Images? ==> r == Chain(Drafts(req.body, n.value, now, retryNow), db))
    ensures r.tried != [] ==>
              && req.verb == "POST" && clientOk && Destructurable(req.body) && RequiredGiven(req.body)
              && NormalizeImages(Field(req.body, "images"), json).Images?
    ensures |r.tried| <= 3
  {
    if req.verb == "OPTIONS" then Result(OK, None, [])
    else if req.verb != "POST" then Result(METHOD_NOT_ALLOWED, None, [])
    else if !clientOk then Result(SERVER_ERROR, None, [])
    else if !Destructurable(req.body) then Result(SERVER_ERROR, None, [])
    else if !RequiredGiven(req.body) then Result(BAD_REQUEST, None, [])
    else match NormalizeImages(Field(req.body, "images"), json)
      case BadImages => Result(BAD_REQUEST, None, [])
      case Images(images) => Chain(Drafts(req.body, images, now, retryNow), db)
  }

  /** 201 exactly when one of the tried payloads was accepted, and then it
      is the last one tried; a first failure that is not about a date or a
      constraint ends the chain at once. */
  lemma CreatedIffSomeAttemptSucceeded(req: Request, clientOk: bool, json: Json, now: int, retryNow: int,
                                       db: Draft -> Attempt)
    ensures var r := Respond(req, clientOk, json, now, retryNow, db);
            r.status == CREATED <==> exists i :: 0 <= i < |r.tried| && db(r.tried[i]).Inserted?
    ensures var r := Respond(req, clientOk, json, now, retryNow, db);
            |r.tried| >= 2 ==> DateRelated(db(r.tried[0]))
    ensures var r := Respond(req, clientOk, json, now, retryNow, db);
            r.tried != [] && DateRelated(db(r.tried[0])) ==> |r.tried| >= 2
    ensures var r := Respond(req, clientOk, json, now, retryNow, db);
            |r.tried| >= 2 && db(r.tried[1]).Failed? ==> |r.tried| == 3
  {
    var r := Respond(req, clientOk, json, now, retryNow, db);
    if r.status == CREATED {
      assert db(r.tried[|r.tried| - 1]).Inserted?;
    }
  }

  /** The first payload has a date-only `start_date` and no `end_date`; the
      second differs from it only by a timestamp `start_date`; the third
      has neither date column. Each carries the client's name, email and
      title. */
  lemma DraftsShape(body: Value, images: Value, now: int, retryNow: int)
    ensures var ds := Drafts(body, images, now, retryNow);
            && ds[0].startDate == Some(DateOnly(DayOf(now))) && ds[0].endDay.None?
            && ds[1] == ds[0].(startDate := Some(Timestamp(retryNow)))
            && ds[2].startDate.None? && ds[2].endDay.None? && ds[2].status.None?
            && (forall i :: 0 <= i < 3 ==>
                  ds[i].name == Field(body, "name") && ds[i].email == Field(body, "email")
                  && ds[i].title == Field(body, "title") && ds[i].images == images)
  {
  }

  /** The request body as it is logged: a copy with a truthy `email`
      replaced by "***@***". Spreading a value that is not an object gives
      an empty object. */
  function MaskedForLog(body: Value): (r: Value)
    ensures r.Obj?
    ensures Truthy(Field(body, "email")) ==> Field(r, "email") == Str("***@***")
    ensures !Truthy(Field(body, "email")) ==> Field(r, "email") == Field(body, "email")
    ensures forall k :: k != "email" ==> Field(r, k) == Field(body, k)
  {
    if body.Obj? then
      if Truthy(Field(body, "email")) then Obj(body.fields["email" := Str("***@***")]) else body
    else Obj(map[])
  }

  /** Masking touches only the logged copy: every payload the chain tries
      carries the client's own email. */
  lemma InsertKeepsOriginalEmail(req: Request, clientOk: bool, json: Json, now: int, retryNow: int,
                                 db: Draft -> Attempt)
    ensures var r := Respond(req, clientOk, json, now, retryNow, db);
            forall i :: 0 <= i < |r.tried| ==> r.tried[i].email == Field(req.body, "email")
    ensures Truthy(Field(req.body, "email")) && Field(req.body, "email") != Str("***@***") ==>
              var r := Respond(req, clientOk, json, now, retryNow, db);
              forall i :: 0 <= i < |r.tried| ==> r.tried[i].email != Field(MaskedForLog(req.body), "email")
  {
  }

  /** The chain step by step against the database: each attempt either
      appends its payload to the accepted inserts and stops, or goes on to
      the next payload (after the first, only for a date or constraint
      error). */
  method Handle(store: Database, req: Request, clientOk: bool, json: Json, now: int, retryNow: int,
                db: Draft -> Attempt) returns (status: int, attempts: nat)
    modifies store
    ensures status == Respond(req, clientOk, json, now, retryNow, db).status
    ensures attempts == |Respond(req, clientOk, json, now, retryNow, db).tried| && attempts <= 3
    ensures store.challengeInserts
              == old(store.challengeInserts) + Rows(Respond(req, clientOk, json, now, retryNow, db).inserted)
    ensures store.support == old(store.support) && store.supports == old(store.supports)
    ensures store.comments == old(store.comments)
  {
    attempts := 0;
    if req.verb == "OPTIONS" {
      return OK, 0;
    }
    if req.verb != "POST" {
      return METHOD_NOT_ALLOWED, 0;
    }
    if !clientOk || !Destructurable(req.body) {
      return SERVER_ERROR, 0;
    }
    if !RequiredGiven(req.body) {
      return BAD_REQUEST, 0;
    }
    var normalized := NormalizeImages(Field(req.body, "images"), json);
    if normalized.BadImages? {
      return BAD_REQUEST, 0;
    }
    var drafts := Drafts(req.body, normalized.value, now, retryNow);
    var first := db(drafts[0]);
    attempts := 1;
    if first.Inserted? {
      store.challengeInserts := store.challengeInserts + [drafts[0]];
      return CREATED, attempts;
    }
    if !DateRelated(first) {
      return SERVER_ERROR, attempts;
    }
    attempts := 2;
    if db(drafts[1]).Inserted? {
      store.challengeInserts := store.challengeInserts + [drafts[1]];
      return CREATED, attempts;
    }
    attempts := 3;
    if db(drafts[2]).Inserted? {
      store.challengeInserts := store.challengeInserts + [drafts[2]];
      return CREATED, attempts;
    }
    status := SERVER_ERROR;
  }
}
