/** The managed database as the handlers see it: the rows of each table
    and the object that holds them. Queries over the challenges table are
    pure functions of a snapshot of its rows (module Listing); inserts
    change the `Database` object in place. */
module Store {
  import opened Base
  import opened Js

  /** A row of the `support` / `supports` tables: the challenge id as the
      client sent it and the amount column (None when the column holds
      something `parseFloat` reads as NaN, such as NULL). */
  datatype Donation = Donation(challengeId: Value, amount: Option<int>)

  /** A row of the `comments` table, as sent by the client. */
  datatype Comment = Comment(challengeId: Value, content: Value)

  /** How a challenge insert gives its `start_date`: the "YYYY-MM-DD" text
      of a UTC day, or a full ISO timestamp. */
  datatype StartDate = DateOnly(day: int) | Timestamp(ms: int)

  /** An insert payload for the `challenges` table. `None` marks a key the
      payload does not carry (the database fills it). */
  datatype Draft = Draft(
    name: Value,
    email: Value,
    title: Value,
    motivation: Value,
    plan: Value,
    status: Option<Value>,
    progress: Option<Value>,
    likes: Option<Value>,
    images: Value,
    startDate: Option<StartDate>,
    endDay: Option<int>,
    money: Value)

  /** A stored row of the `challenges` table, with the columns the queries
      filter and order by: `created_at` in milliseconds since the epoch and
      `start_date` as a day number (None for NULL). */
  datatype Challenge = Challenge(
    id: string,
    status: string,
    likes: int,
    createdAt: int,
    startDay: Option<int>)

  /** The tables the intake handlers write. `challengeInserts` is the list of
      payloads the challenges table has accepted, in order. */
  class Database {
    var support: seq<Donation>
    var supports: seq<Donation>
    var comments: seq<Comment>
    var challengeInserts: seq<Draft>

    constructor (support: seq<Donation>, supports: seq<Donation>, comments: seq<Comment>, challengeInserts: seq<Draft>)
      ensures this.support == support && this.supports == supports
      ensures this.comments == comments && this.challengeInserts == challengeInserts
    {
      this.support := support;
      this.supports := supports;
      this.comments := comments;
      this.challengeInserts := challengeInserts;
    }
  }

  const DayMs: int := 86400000

  /** The UTC day number of an instant: the date part of `toISOString()`. */
  function DayOf(ms: int): int
  {
    ms / DayMs
  }

  /** The first millisecond of the UTC day of `ms`: `setUTCHours(0, 0, 0, 0)`. */
  function UtcMidnight(ms: int): (r: int)
    ensures r <= ms < r + DayMs
    ensures DayOf(r) == DayOf(ms)
  {
    DayOf(ms) * DayMs
  }
}
