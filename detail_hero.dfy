/** The challenge detail panel, `src/pages/detail/DetailHero.jsx`: money
    formatting, the image carousel, the raised-so-far progress, the age of
    a comment, the days left and the choice of a donation amount. */
module DetailHero {
  import opened Base
  import opened Text
  import opened Js
  import opened Store
  import SupportTotal
  import Support

  // ---------------------------------------------------------------------
  // formatMoney

  /** The text of `s` without its commas. */
  function RemoveCommas(s: string): (r: string)
    ensures |r| <= |s|
  {
    if s == [] then []
    else (if s[0] == ',' then [] else [s[0]]) + RemoveCommas(s[1..])
  }

  lemma {:induction false} RemoveCommasAppend(a: string, b: string)
    ensures RemoveCommas(a + b) == RemoveCommas(a) + RemoveCommas(b)
  {
    if a == [] {
      assert a + b == b;
    } else {
      assert (a + b)[1..] == a[1..] + b;
      RemoveCommasAppend(a[1..], b);
    }
  }

  lemma {:induction false} RemoveCommasOfDigits(d: string)
    requires AllDigits(d)
    ensures RemoveCommas(d) == d
  {
    if d != [] {
      RemoveCommasOfDigits(d[1..]);
      assert d == [d[0]] + d[1..];
    }
  }

  /** Digits with a comma before every group of three counted from the
      right: the effect of `replace(/\B(?=(\d{3})+(?!\d))/g, ",")` on a
      run of digits. */
  function Group(d: string): string
  {
    if |d| <= 3 then d else Group(d[..|d| - 3]) + "," + d[|d| - 3..]
  }

  /** The first group has one to three digits and every later group
      exactly three: a comma sits exactly at the positions a multiple of
      four from the end, and the length itself is not such a multiple. */
  predicate WellGrouped(r: string)
  {
    && r != [] && |r| % 4 != 0
    && forall i :: 0 <= i < |r| ==> (r[i] == ',' <==> (|r| - i) % 4 == 0)
  }

  /** Prepending a well-grouped text and a comma to three digits keeps
      the text well grouped. */
  lemma {:induction false} WellGroupedStep(g: string, tail: string)
    requires WellGrouped(g) && |tail| == 3 && AllDigits(tail)
    ensures WellGrouped(g + "," + tail)
  {
    var r := g + "," + tail;
    forall i | 0 <= i < |r| ensures (r[i] == ',' <==> (|r| - i) % 4 == 0) {
      if i < |g| {
        assert r[i] == g[i];
        assert (|r| - i) % 4 == (|g| - i) % 4;
      } else if i > |g| {
        assert r[i] == tail[i - |g| - 1];
        assert IsDigit(tail[i - |g| - 1]);
      }
    }
  }

  lemma {:induction false} RemoveCommasStep(g: string, tail: string)
    requires AllDigits(tail)
    ensures RemoveCommas(g + "," + tail) == RemoveCommas(g) + tail
  {
    CommaVanishes();
    RemoveCommasAppend(g, ",");
    RemoveCommasAppend(g + ",", tail);
    RemoveCommasOfDigits(tail);
  }

  lemma CommaVanishes()
    ensures RemoveCommas(",") == []
  {
    assert ","[1..] == [];
  }

  lemma {:induction false} GroupIsWellGrouped(d: string)
    requires d != [] && AllDigits(d)
    ensures WellGrouped(Group(d))
    ensures RemoveCommas(Group(d)) == d
    decreases |d|
  {
    if |d| <= 3 {
      RemoveCommasOfDigits(d);
    } else {
      var p := d[..|d| - 3];
      var tail := d[|d| - 3..];
      GroupIsWellGrouped(p);
      assert Group(d) == Group(p) + "," + tail;
      WellGroupedStep(Group(p), tail);
      RemoveCommasStep(Group(p), tail);
      assert p + tail == d;
    }
  }

  /** `amount?.toString().replace(..) || "0"` for an integer amount; a
      missing amount is "0". */
  function FormatMoney(amount: Option<int>): (r: string)
    ensures amount.None? ==> r == "0"
  {
    match amount
    case None => "0"
    case Some(n) => if n < 0 then "-" + Group(NatToString(-n)) else Group(NatToString(n))
  }

  /** For a natural amount, removing the commas gives its decimal text, the
      groups are well formed, and below 1000 the text is unchanged. */
  lemma FormatMoneyOfNat(n: nat)
    ensures RemoveCommas(FormatMoney(Some(n))) == NatToString(n)
    ensures WellGrouped(FormatMoney(Some(n)))
    ensures n < 1000 ==> FormatMoney(Some(n)) == NatToString(n)
  {
    GroupIsWellGrouped(NatToString(n));
    if n < 1000 {
      NatToStringBelowThousand(n);
    }
  }

  lemma NatToStringBelowThousand(n: nat)
    requires n < 1000
    ensures |NatToString(n)| <= 3
  {
    if n >= 10 {
      assert n / 10 < 100;
      if n / 10 >= 10 {
        assert n / 10 / 10 < 10;
      }
    }
  }

  // ---------------------------------------------------------------------
  // The image carousel

  /** `nextImage`: the last index wraps to 0, any other moves up by one. */
  function NextIndex(i: int, n: int): int
  {
    if i == n - 1 then 0 else i + 1
  }

  /** `prevImage`: index 0 wraps to the last, any other moves down by one. */
  function PrevIndex(i: int, n: int): int
  {
    if i == 0 then n - 1 else i - 1
  }

  /** With more than one image (the only case in which the buttons are
      shown) both steps stay in range and undo each other. */
  lemma CarouselSteps(i: int, n: int)
    requires n > 1 && 0 <= i < n
    ensures 0 <= NextIndex(i, n) < n && 0 <= PrevIndex(i, n) < n
    ensures PrevIndex(NextIndex(i, n), n) == i
    ensures NextIndex(PrevIndex(i, n), n) == i
    ensures NextIndex(i, n) == (i + 1) % n
    ensures PrevIndex(i, n) == (i + n - 1) % n
  {
  }

  /** The images of the challenge and the index of the one shown. */
  class Carousel {
    var images: seq<Value>
    var index: int

    constructor ()
      ensures images == [] && index == 0
    {
      images := [];
      index := 0;
    }

    /** `JSON.parse(challenge.images || "[]")`: the parsed array, or no
        images when the text does not parse. The index is kept. */
    method Load(stored: Value, json: Json)
      modifies this
      ensures images == (match json.parse(ToString(Or(stored, Str("[]"))))
                         case Some(Arr(items)) => items
                         case _ => [])
      ensures index == old(index)
    {
      match json.parse(ToString(Or(stored, Str("[]"))))
      case Some(Arr(items)) =>
        images := items;
      case _ =>
        images := [];
    }

    method Next()
      modifies this
      ensures index == NextIndex(old(index), |images|) && images == old(images)
    {
      index := if index == |images| - 1 then 0 else index + 1;
    }

    method Prev()
      modifies this
      ensures index == PrevIndex(old(index), |images|) && images == old(images)
    {
      index := if index == 0 then |images| - 1 else index - 1;
    }

    /** A thumbnail click. */
    method Select(i: nat)
      requires i < |images|
      modifies this
      ensures index == i && images == old(images)
    {
      index := i;
    }

    /** `images[currentImageIndex] || "/placeholder.svg"`. */
    function Current(): (r: Value)
      reads this
      ensures Truthy(r)
      ensures 0 <= index < |images| && Truthy(images[index]) ==> r == images[index]
      ensures !(0 <= index < |images| && Truthy(images[index])) ==> r == Str("/placeholder.svg")
    {
      if 0 <= index < |images| && Truthy(images[index]) then images[index]
      else Str("/placeholder.svg")
    }
  }

  // ---------------------------------------------------------------------
  // Raised so far

  /** `Math.round(total / money * 100)` for a positive goal, in integers:
      half a percent rounds up. */
  function RoundPercent(total: int, money: int): (r: int)
    requires money > 0
    ensures (2 * r - 1) * money <= 200 * total < (2 * r + 1) * money
  {
    (200 * total + money) / (2 * money)
  }

  /** `Math.min(donationProgress, 100)`, the width of the bar. */
  function BarWidth(progress: int): (w: int)
    ensures w <= 100 && w <= progress
    ensures w == progress || w == 100
  {
    Min(progress, 100)
  }

  /** The percent is not capped; only the bar is: a goal raised twice
      over reads 200% on a full bar. */
  lemma ProgressIsNotCapped(money: int)
    requires money > 0
    ensures RoundPercent(2 * money, money) == 200
    ensures BarWidth(RoundPercent(2 * money, money)) == 100
  {
    var r := RoundPercent(2 * money, money);
    if r > 200 {
      ProductNonNegative(2 * r - 402, money);
    }
    if r < 200 {
      ProductNonNegative(398 - 2 * r, money);
    }
  }

  /** The bar is full exactly when the raised total is at least 99.5% of
      the goal, the point from which the percent rounds to 100 or more. */
  lemma FullBarExactly(total: int, money: int)
    requires money > 0
    ensures BarWidth(RoundPercent(total, money)) == 100 <==> 200 * total >= 199 * money
  {
    var r := RoundPercent(total, money);
    if r >= 100 {
      ProductNonNegative(2 * r - 200, money);
      assert (2 * r - 1) * money == (2 * r - 200) * money + 199 * money;
    } else {
      ProductNonNegative(198 - 2 * r, money);
      assert 199 * money == (198 - 2 * r) * money + (2 * r + 1) * money;
    }
  }

  lemma ProductNonNegative(a: int, b: int)
    requires a >= 0 && b >= 0
    ensures a * b >= 0
  {
  }

  /** The total shown after a failed request: a fixed development value. */
  const FallbackTotal: int := 80

  /** The donation figures of the panel. */
  class SupportPanel {
    var totalRaised: int
    var progress: int

    constructor ()
      ensures totalRaised == 0 && progress == 0
    {
      totalRaised := 0;
      progress := 0;
    }

    /** `fetchSupportInfo`: nothing happens without a challenge id; a
        `{ total }` reply sets the total (`data.total || 0`), any other
        reply the fallback; the percent is set only for a positive goal. */
    method Refresh(challengeIdGiven: bool, reply: SupportTotal.TotalReply, money: int)
      modifies this
      ensures !challengeIdGiven ==> totalRaised == old(totalRaised) && progress == old(progress)
      ensures challengeIdGiven ==>
                totalRaised == (if reply.Total? then reply.total else FallbackTotal)
      ensures challengeIdGiven && money > 0 ==> progress == RoundPercent(totalRaised, money)
      ensures money <= 0 ==> progress == old(progress)
    {
      if !challengeIdGiven {
        return;
      }
      var total := if reply.Total? then reply.total else FallbackTotal;
      totalRaised := total;
      if money > 0 {
        progress := RoundPercent(total, money);
      }
    }
  }

  // ---------------------------------------------------------------------
  // formatCommentDate

  /** A comment's `created_at`: absent, not a date, or an instant. */
  datatype Stamp = Missing | Unparseable | At(ms: int)

  /** The label of a comment's age; `FullDate` is rendered by the locale. */
  datatype Age = Blank | JustNow | MinutesAgo(minutes: int) | HoursAgo(hours: int)
               | FullDate(ms: int) | InvalidDate

  /** The cascade of floors of `formatCommentDate`: seconds, minutes, hours
      and days of `now - date`, then the first bucket that fits. A negative
      difference is "just now". */
  function CommentAge(stamp: Stamp, now: int): Age
  {
    match stamp
    case Missing => Blank
    case Unparseable => InvalidDate
    case At(ms) =>
      var diffSec := (now - ms) / 1000;
      var diffMin := diffSec / 60;
      var diffHour := diffMin / 60;
      var diffDay := diffHour / 24;
      if diffDay < 1 then
        if diffHour < 1 then
          if diffMin < 1 then JustNow else MinutesAgo(diffMin)
        else HoursAgo(diffHour)
      else FullDate(ms)
  }

  /** The text of the relative labels. */
  function AgeText(age: Age): (r: Option<string>)
    ensures r.None? <==> age.FullDate? || age.InvalidDate?
    ensures age.Blank? ==> r == Some("")
    ensures age.JustNow? ==> r == Some("just now")
    ensures age.MinutesAgo? && age.minutes >= 0 ==> r == Some(NatToString(age.minutes) + " min ago")
    ensures age.HoursAgo? && age.hours >= 0 ==> r == Some(NatToString(age.hours) + " hours ago")
  {
    match age
    case Blank => Some("")
    case JustNow => Some("just now")
    case MinutesAgo(m) => Some(IntToString(m) + " min ago")
    case HoursAgo(h) => Some(IntToString(h) + " hours ago")
    case FullDate(_) => None
    case InvalidDate => None
  }

  /** The buckets in milliseconds: under a minute (or in the future) "just
      now", under an hour whole minutes, under a day whole hours, and from
      a day on the full date. */
  lemma CommentAgeBuckets(ms: int, now: int)
    ensures var d := now - ms;
            var age := CommentAge(At(ms), now);
            && (d < 60000 ==> age == JustNow)
            && (60000 <= d < 3600000 ==> age == MinutesAgo(d / 60000) && 1 <= d / 60000 < 60)
            && (3600000 <= d < 86400000 ==> age == HoursAgo(d / 3600000) && 1 <= d / 3600000 < 24)
            && (d >= 86400000 ==> age == FullDate(ms))
  {
    var d := now - ms;
    assert d / 1000 / 60 == d / 60000;
    assert d / 60000 / 60 == d / 3600000;
    assert d / 3600000 / 24 == d / 86400000;
  }

  /** The label a comment shows: "" without a date, then "just now",
      "n min ago" and "n hours ago" by the age in milliseconds, and the
      locale's date from a day on or for an unreadable date. */
  lemma CommentLabel(stamp: Stamp, now: int)
    ensures stamp.Missing? ==> AgeText(CommentAge(stamp, now)) == Some("")
    ensures stamp.Unparseable? ==> AgeText(CommentAge(stamp, now)).None?
    ensures stamp.At? ==>
              var d := now - stamp.ms;
              var shown := AgeText(CommentAge(stamp, now));
              && (d < 60000 ==> shown == Some("just now"))
              && (60000 <= d < 3600000 ==> shown == Some(NatToString(d / 60000) + " min ago"))
              && (3600000 <= d < 86400000 ==> shown == Some(NatToString(d / 3600000) + " hours ago"))
              && (d >= 86400000 ==> shown.None?)
  {
    if stamp.At? {
      CommentAgeBuckets(stamp.ms, now);
    }
  }

  // ---------------------------------------------------------------------
  // calculateDaysLeft

  /** `end_date` of the challenge: absent, not a date, or an instant. */
  datatype End = NoEnd | BadEnd | EndAt(ms: int)

  /** `Math.ceil((end - now) / 86400000)`, or 0 when that is not positive,
      when there is no end date, or when it does not parse. */
  function DaysLeft(end: End, now: int): (r: int)
    ensures r >= 0
    ensures end.NoEnd? || end.BadEnd? ==> r == 0
  {
    match end
    case NoEnd => 0
    case BadEnd => 0
    case EndAt(ms) =>
      var days := -((now - ms) / 86400000);
      if days > 0 then days else 0
  }

  /** A future end date gives the number of started days left, and a past
      or present one 0. */
  lemma DaysLeftIsCeil(ms: int, now: int)
    ensures var r := DaysLeft(EndAt(ms), now);
            && (ms <= now ==> r == 0)
            && (ms > now ==> r >= 1 && (r - 1) * 86400000 < ms - now <= r * 86400000)
  {
    var q := (now - ms) / 86400000;
    assert q * 86400000 <= now - ms < q * 86400000 + 86400000;
  }

  // ---------------------------------------------------------------------
  // handleDonate

  /** What pressing "Support" does: an error toast without a request, or a
      request carrying `parseFloat(finalAmount)`. */
  datatype Donate = Toast | Send(amount: FloatParse)

  /** A preset ("5", "10") is sent as is; the custom choice sends the typed
      text unless it is empty or `parseFloat` reads it as at most 0. */
  function ChooseAmount(selected: string, custom: string): (r: Donate)
    ensures selected != "custom" ==> r == Send(ParseFloat(selected))
    ensures selected == "custom" ==>
              (r == Toast <==> custom == "" || AtMostZero(ParseFloat(custom)))
    ensures selected == "custom" && r.Send? ==> r.amount == ParseFloat(custom)
  {
    var finalAmount := if selected == "custom" then custom else selected;
    if selected == "custom" && (finalAmount == "" || AtMostZero(ParseFloat(finalAmount))) then Toast
    else Send(ParseFloat(finalAmount))
  }

  /** A typed whole number is sent as that number, except 0, which raises
      the toast and sends nothing. */
  lemma CustomWholeAmount(n: nat)
    ensures ChooseAmount("custom", NatToString(n)) == if n == 0 then Toast else Send(Finite(n as real))
  {
    NatToStringIsCanonical(n);
    DecimalDigits(NatToString(n));
  }

  /** A preset of n dollars is sent as n. */
  lemma PresetSent(custom: string, n: nat)
    ensures ChooseAmount(NatToString(n), custom) == Send(Finite(n as real))
  {
    var t := NatToString(n);
    assert t != "custom" by {
      assert IsDigit(t[0]);
    }
    NatToStringIsCanonical(n);
    DecimalDigits(NatToString(n));
  }

  /** End to end for a preset of n dollars: the page sends n, and the
      donation intake stores exactly n for the challenge. */
  lemma PresetDonationStored(challengeId: Value, custom: string, n: nat)
    requires Truthy(challengeId) && n > 0
    ensures ChooseAmount(NatToString(n), custom) == Send(Finite(n as real))
    ensures Support.Validate(Obj(map["challengeId" := challengeId, "amount" := FromInt(n)]))
              == Support.Accept(Donation(challengeId, Some(n)))
  {
    PresetSent(custom, n);
    Support.WholeAmountAccepted(challengeId, n, FromInt(n));
  }
}
