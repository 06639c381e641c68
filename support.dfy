/** Donation intake, `api/support.js`: a POST with `challengeId` and
    `amount` appends one row to the `support` table once the body passes
    three checks, in this order: both fields truthy, `parseInt(amount)` a
    number, and that number positive. */
module Support {
  import opened Base
  import opened Text
  import opened Js
  import opened Http
  import opened Store

  /** What validation makes of a request body: the status of a refusal, or
      the row to insert. */
  datatype Intake = Refuse(status: int) | Accept(row: Donation)

  /** The validation of lines 12-25 and the row built at lines 31-34. A body
      that cannot be destructured throws inside the `try` and gets 500. */
  function Validate(body: Value): (r: Intake)
    ensures !Destructurable(body) ==> r == Refuse(SERVER_ERROR)
    ensures Destructurable(body) ==>
              (r.Accept? <==>
                 && Truthy(Field(body, "challengeId"))
                 && Truthy(Field(body, "amount"))
                 && ParseIntValue(Field(body, "amount")).Int?
                 && ParseIntValue(Field(body, "amount")).value > 0)
    ensures Destructurable(body) && r.Refuse? ==> r.status == BAD_REQUEST
    ensures r.Accept? ==>
              r.row == Donation(Field(body, "challengeId"),
                                Some(ParseIntValue(Field(body, "amount")).value))
  {
    if !Destructurable(body) then Refuse(SERVER_ERROR)
    else
      var challengeId := Field(body, "challengeId");
      var amount := Field(body, "amount");
      if !Truthy(challengeId) || !Truthy(amount) then Refuse(BAD_REQUEST)
      else
        var parsed := ParseIntValue(amount);
        if parsed.NaN? || parsed.value <= 0 then Refuse(BAD_REQUEST)
        else Accept(Donation(challengeId, Some(parsed.value)))
  }

  /** The whole handler as a step: OPTIONS is answered 200, any method but
      POST 405; a POST appends exactly the validated row when the insert
      succeeds (200), and nothing when validation refuses (400) or the
      insert fails (500). */
  function Respond(req: Request, insertOk: bool): (r: Step<Donation>)
    ensures req.verb == "OPTIONS" ==> r == Step(OK, None)
    ensures req.verb != "OPTIONS" && req.verb != "POST" ==> r == Step(METHOD_NOT_ALLOWED, None)
    ensures r.appended.Some? <==> r.status == OK && req.verb == "POST"
    ensures req.verb == "POST" ==>
              match Validate(req.body)
              case Refuse(code) => r == Step(code, None)
              case Accept(row) => r == if insertOk then Step(OK, Some(row)) else Step(SERVER_ERROR, None)
  {
    if HandleOptionsRequest(req) then Step(OK, None)
    else if req.verb == "POST" then
      match Validate(req.body)
      case Refuse(code) => Step(code, None)
      case Accept(row) => if insertOk then Step(OK, Some(row)) else Step(SERVER_ERROR, None)
    else Step(METHOD_NOT_ALLOWED, None)
  }

  /** Every accepted donation carries a positive whole amount. */
  predicate PositiveAmounts(rows: seq<Donation>)
  {
    forall i :: 0 <= i < |rows| ==> rows[i].amount.Some? && rows[i].amount.value > 0
  }

  /** An amount of 0 (falsy) or a non-positive parse never gets a row. */
  lemma AcceptedAmountIsPositive(req: Request, insertOk: bool)
    ensures PositiveAmounts(Rows(Respond(req, insertOk).appended))
  {
  }

  /** A body with exactly the two fields, both truthy, whose amount parses
      to a positive integer, gets that row. */
  lemma ValidateAccepts(challengeId: Value, amount: Value, v: int)
    requires Truthy(challengeId) && Truthy(amount)
    requires ParseIntValue(amount) == Int(v) && v > 0
    ensures Validate(Obj(map["challengeId" := challengeId, "amount" := amount]))
              == Accept(Donation(challengeId, Some(v)))
  {
    var body := Obj(map["challengeId" := challengeId, "amount" := amount]);
    assert Field(body, "challengeId") == challengeId;
    assert Field(body, "amount") == amount;
  }

  /** A body whose amount does not parse to a positive integer is refused. */
  lemma ValidateRefusesParse(challengeId: Value, amount: Value)
    requires ParseIntValue(amount).NaN? || ParseIntValue(amount).value <= 0
    ensures Validate(Obj(map["challengeId" := challengeId, "amount" := amount])) == Refuse(BAD_REQUEST)
  {
    var body := Obj(map["challengeId" := challengeId, "amount" := amount]);
    assert Field(body, "amount") == amount;
  }

  /** Canonical digits as a number or as text are truthy exactly when
      their value is not zero, and parse to that value. */
  lemma DigitTextParse(d: string, amount: Value)
    requires CanonicalDigits(d)
    requires amount == Num(d) || amount == Str(d)
    ensures ParseIntValue(amount) == Int(DigitsValue(d, 10))
    ensures DigitsValue(d, 10) > 0 ==> Truthy(amount)
  {
    assert ToString(amount) == d + "";
    DigitsThenRest(d, "");
    if DigitsValue(d, 10) > 0 {
      assert d != "0" by {
        assert DigitsValue("0", 10) == 0;
      }
      assert d != "NaN" by {
        assert IsDigit(d[0]);
      }
    }
  }

  /** Canonical digits, a "." and more digits, as text or as a number. */
  lemma FractionTextParse(d: string, fraction: string, amount: Value)
    requires CanonicalDigits(d) && AllDigits(fraction)
    requires amount == Str(d + "." + fraction) || (amount == Num(d + "." + fraction) && fraction != [])
    ensures ParseIntValue(amount) == Int(DigitsValue(d, 10))
    ensures Truthy(amount)
  {
    var t := d + "." + fraction;
    assert ToString(amount) == t;
    assert t == d + ("." + fraction);
    DigitsThenRest(d, "." + fraction);
    assert t != "0" && t != "NaN" && t != "" by {
      assert IsDigit(t[0]);
      assert |t| > 1;
    }
  }

  /** A fractional amount is cut to its whole part: "12.7" and 12.7 both
      store 12. */
  lemma FractionIsTruncated(challengeId: Value, n: nat, fraction: string, amount: Value)
    requires Truthy(challengeId) && n > 0 && AllDigits(fraction)
    requires amount == Str(NatToString(n) + "." + fraction) || amount == Num(NatToString(n) + "." + fraction)
    requires amount.Num? ==> fraction != []
    ensures Validate(Obj(map["challengeId" := challengeId, "amount" := amount]))
              == Accept(Donation(challengeId, Some(n)))
  {
    NatToStringIsCanonical(n);
    FractionTextParse(NatToString(n), fraction, amount);
    ValidateAccepts(challengeId, amount, n);
  }

  /** A positive whole amount, as a number or as its decimal text, is
      stored as itself. */
  lemma WholeAmountAccepted(challengeId: Value, n: nat, amount: Value)
    requires Truthy(challengeId) && n > 0
    requires amount == FromInt(n) || amount == Str(NatToString(n))
    ensures Validate(Obj(map["challengeId" := challengeId, "amount" := amount]))
              == Accept(Donation(challengeId, Some(n)))
  {
    NatToStringIsCanonical(n);
    DigitTextParse(NatToString(n), amount);
    ValidateAccepts(challengeId, amount, n);
  }

  /** An amount of zero is refused, as a number or as text. */
  lemma ZeroRefused(challengeId: Value, amount: Value)
    requires amount == Num("0") || amount == Str("0")
    ensures Validate(Obj(map["challengeId" := challengeId, "amount" := amount])) == Refuse(BAD_REQUEST)
  {
    assert CanonicalDigits("0");
    DigitTextParse("0", amount);
    assert DigitsValue("0", 10) == 0;
    ValidateRefusesParse(challengeId, amount);
  }

  /** A minus sign before canonical digits parses to a value at most 0. */
  lemma NegativeTextParse(d: string, amount: Value)
    requires CanonicalDigits(d)
    requires amount == Num("-" + d) || amount == Str("-" + d)
    ensures ParseIntValue(amount) == Int(0 - DigitsValue(d, 10))
  {
    assert ToString(amount) == "-" + d;
    NegativeDigits(d);
  }

  /** A negative amount is refused, as a number or as text. */
  lemma NegativeAmountRefused(challengeId: Value, n: nat, amount: Value)
    requires n > 0
    requires amount == FromInt(0 - n) || amount == Str("-" + NatToString(n))
    ensures Validate(Obj(map["challengeId" := challengeId, "amount" := amount])) == Refuse(BAD_REQUEST)
  {
    NatToStringIsCanonical(n);
    NegativeTextParse(NatToString(n), amount);
    ValidateRefusesParse(challengeId, amount);
  }

  /** The handler of api/support.js against the database: it changes the
      `support` table by exactly the step's appended row and no other table. */
  method Handle(db: Database, req: Request, insertOk: bool) returns (status: int)
    modifies db
    ensures status == Respond(req, insertOk).status
    ensures db.support == old(db.support) + Rows(Respond(req, insertOk).appended)
    ensures db.supports == old(db.supports) && db.comments == old(db.comments)
    ensures db.challengeInserts == old(db.challengeInserts)
  {
    if HandleOptionsRequest(req) {
      return OK;
    }
    if req.verb != "POST" {
      return METHOD_NOT_ALLOWED;
    }
    var intake := Validate(req.body);
    if intake.Refuse? {
      return intake.status;
    }
    if !insertOk {
      return SERVER_ERROR;
    }
    db.support := db.support + [intake.row];
    status := OK;
  }

  /** The intake keeps the `support` ledger free of non-positive amounts. */
  lemma HandleKeepsAmountsPositive(before: seq<Donation>, req: Request, insertOk: bool)
    requires PositiveAmounts(before)
    ensures PositiveAmounts(before + Rows(Respond(req, insertOk).appended))
  {
    var added := Rows(Respond(req, insertOk).appended);
    AcceptedAmountIsPositive(req, insertOk);
    forall i | 0 <= i < |before + added|
      ensures (before + added)[i].amount.Some? && (before + added)[i].amount.value > 0
    {
      if i >= |before| {
        assert (before + added)[i] == added[i - |before|];
      }
    }
  }
}
