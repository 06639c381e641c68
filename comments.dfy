/** Comment intake, `api/comments.js`: a POST with a truthy `challengeId`
    and a truthy `content` appends one row to the `comments` table. */
module Comments {
  import opened Base
  import opened Js
  import opened Http
  import opened Store

  datatype Intake = Refuse(status: int) | Accept(row: Comment)

  /** Lines 26-44: destructuring an absent body throws (500); a falsy field
      is refused (400); otherwise the row carries both fields unchanged. */
  function Validate(body: Value): (r: Intake)
    ensures !Destructurable(body) ==> r == Refuse(SERVER_ERROR)
    ensures Destructurable(body) ==>
              (r.Accept? <==> Truthy(Field(body, "challengeId")) && Truthy(Field(body, "content")))
    ensures Destructurable(body) && r.Refuse? ==> r.status == BAD_REQUEST
    ensures r.Accept? ==> r.row == Comment(Field(body, "challengeId"), Field(body, "content"))
  {
    if !Destructurable(body) then Refuse(SERVER_ERROR)
    else
      var challengeId := Field(body, "challengeId");
      var content := Field(body, "content");
      if !Truthy(challengeId) || !Truthy(content) then Refuse(BAD_REQUEST)
      else Accept(Comment(challengeId, content))
  }

  /** The handler as a step: OPTIONS 200, a method other than POST 405, a
      refused body nothing appended, an insert error 500. */
  function Respond(req: Request, insertOk: bool): (r: Step<Comment>)
    ensures req.verb == "OPTIONS" ==> r == Step(OK, None)
    ensures req.verb != "OPTIONS" && req.verb != "POST" ==> r == Step(METHOD_NOT_ALLOWED, None)
    ensures r.appended.Some? <==> req.verb == "POST" && insertOk && Validate(req.body).Accept?
    ensures r.appended.Some? ==> r.status == OK && r.appended.value == Validate(req.body).row
    ensures req.verb == "POST" && Validate(req.body).Refuse? ==> r.status == Validate(req.body).status
    ensures req.verb == "POST" && Validate(req.body).Accept? && !insertOk ==> r.status == SERVER_ERROR
  {
    if req.verb == "OPTIONS" then Step(OK, None)
    else if req.verb == "POST" then
      match Validate(req.body)
      case Refuse(code) => Step(code, None)
      case Accept(row) => if insertOk then Step(OK, Some(row)) else Step(SERVER_ERROR, None)
    else Step(METHOD_NOT_ALLOWED, None)
  }

  /** Every stored comment names a challenge and has text. */
  predicate AllFilled(rows: seq<Comment>)
  {
    forall i :: 0 <= i < |rows| ==> Truthy(rows[i].challengeId) && Truthy(rows[i].content)
  }

  method Handle(db: Database, req: Request, insertOk: bool) returns (status: int)
    modifies db
    ensures status == Respond(req, insertOk).status
    ensures db.comments == old(db.comments) + Rows(Respond(req, insertOk).appended)
    ensures db.support == old(db.support) && db.supports == old(db.supports)
    ensures db.challengeInserts == old(db.challengeInserts)
  {
    if req.verb == "OPTIONS" {
      return OK;
    }
    if req.verb != "POST" {
      return METHOD_NOT_ALLOWED;
    }
    var intake := Validate(req.body);
    if intake.Refuse? {
      return intake.status;
    }
    if !insertOk {
      return SERVER_ERROR;
    }
    db.comments := db.comments + [intake.row];
    status := OK;
  }

  /** The intake keeps the `comments` table free of empty comments. */
  lemma HandleKeepsCommentsFilled(before: seq<Comment>, req: Request, insertOk: bool)
    requires AllFilled(before)
    ensures AllFilled(before + Rows(Respond(req, insertOk).appended))
  {
    var added := Rows(Respond(req, insertOk).appended);
    forall i | 0 <= i < |before + added|
      ensures Truthy((before + added)[i].challengeId) && Truthy((before + added)[i].content)
    {
      if i >= |before| {
        assert (before + added)[i] == added[i - |before|];
      }
    }
  }
}
