/** The second donation intake, `api/support-challenge.js`: the same field
    checks and the same row as `api/support.js`, with the preflight answered
    inline rather than through `api/utils.js`. */
module SupportChallenge {
  import opened Base
  import opened Js
  import opened Http
  import opened Store
  import Support

  /** The handler as a step, following its own branch order: OPTIONS, then
      POST (validation, insert), then 405 for every other method. */
  function Respond(req: Request, insertOk: bool): (r: Step<Donation>)
    ensures req.verb == "OPTIONS" ==> r == Step(OK, None)
    ensures req.verb != "OPTIONS" && req.verb != "POST" ==> r == Step(METHOD_NOT_ALLOWED, None)
    ensures r.appended.Some? ==>
              && req.verb == "POST" && insertOk && r.status == OK
              && Support.Validate(req.body) == Support.Accept(r.appended.value)
    ensures req.verb == "POST" && Support.Validate(req.body).Refuse? ==>
              r == Step(Support.Validate(req.body).status, None)
  {
    match req.verb
    case "OPTIONS" => Step(OK, None)
    case "POST" =>
      var intake := Support.Validate(req.body);
      if intake.Refuse? then Step(intake.status, None)
      else if !insertOk then Step(SERVER_ERROR, None)
      else Step(OK, Some(intake.row))
    case _ => Step(METHOD_NOT_ALLOWED, None)
  }

  /** The two intake endpoints answer every request alike and append the
      same row. */
  lemma SameAsSupport(req: Request, insertOk: bool)
    ensures Respond(req, insertOk) == Support.Respond(req, insertOk)
  {
    if req.verb == "POST" {
      match Support.Validate(req.body)
      case Refuse(code) =>
      case Accept(row) =>
    }
  }

  /** The handler against the database: it appends to `support` exactly the
      step's row and leaves the other tables alone. */
  method Handle(db: Database, req: Request, insertOk: bool) returns (status: int)
    modifies db
    ensures status == Respond(req, insertOk).status
    ensures db.support == old(db.support) + Rows(Respond(req, insertOk).appended)
    ensures db.supports == old(db.supports) && db.comments == old(db.comments)
    ensures db.challengeInserts == old(db.challengeInserts)
  {
    if req.verb == "OPTIONS" {
      return OK;
    }
    if req.verb == "POST" {
      var intake := Support.Validate(req.body);
      if intake.Refuse? {
        return intake.status;
      }
      if !insertOk {
        return SERVER_ERROR;
      }
      db.support := db.support + [intake.row];
      return OK;
    }
    status := METHOD_NOT_ALLOWED;
  }

  /** Like the first endpoint, this one never stores a non-positive amount. */
  lemma HandleKeepsAmountsPositive(before: seq<Donation>, req: Request, insertOk: bool)
    requires Support.PositiveAmounts(before)
    ensures Support.PositiveAmounts(before + Rows(Respond(req, insertOk).appended))
  {
    SameAsSupport(req, insertOk);
    Support.HandleKeepsAmountsPositive(before, req, insertOk);
  }
}
