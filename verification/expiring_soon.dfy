/**
 * The "expiring soon" list: each document's whole days left until expiry,
 * coloured by urgency band, or the "All Good!" state for an empty list.
 */
module ExpiringSoon {
  import opened Wrappers
  import opened Records

  const DayMs: int := 86_400_000

  /** Integer division rounding toward zero, as `Math.trunc(a / b)` does. */
  function TruncDiv(a: int, b: int): (q: int)
    requires b > 0
    ensures a >= 0 ==> 0 <= q * b <= a < q * b + b
    ensures a < 0 ==> q * b - b < a <= q * b <= 0
  {
    if a >= 0 then
      EuclideanDivision(a, b);
      a / b
    else
      EuclideanDivision(-a, b);
      -((-a) / b)
  }

  /** Dafny's division of a non-negative number: quotient times divisor plus a remainder below the divisor. */
  lemma EuclideanDivision(a: int, b: int)
    requires a >= 0 && b > 0
    ensures 0 <= (a / b) * b <= a < (a / b) * b + b
  {
    assert a == (a / b) * b + a % b;
  }

  /**
   * `differenceInDays(expiry, now)`: the number of whole days between the
   * two instants, negative once expired. An absent expiry parses to an
   * invalid date, whose difference is `NaN`, modelled as `None`.
   */
  function DaysLeft(expiry: Option<int>, now: int): (days: Option<int>)
    ensures days.Some? <==> expiry.Some?
    ensures expiry.Some? && expiry.value >= now ==>
      0 <= days.value && days.value * DayMs <= expiry.value - now < (days.value + 1) * DayMs
    ensures expiry.Some? && expiry.value < now ==>
      days.value <= 0 && (days.value - 1) * DayMs < expiry.value - now <= days.value * DayMs
  {
    match expiry
    case None => None
    case Some(e) => Some(TruncDiv(e - now, DayMs))
  }

  /** A later expiry never leaves fewer days. */
  lemma DaysLeftMonotone(e1: int, e2: int, now: int)
    requires e1 <= e2
    ensures DaysLeft(Some(e1), now).value <= DaysLeft(Some(e2), now).value
  {
  }

  datatype Urgency = Critical | Soon | Calm {
    /** The Tailwind colour class of the band. */
    function ColorClass(): string {
      match this
      case Critical => "text-destructive"
      case Soon => "text-yellow-600"
      case Calm => "text-muted-foreground"
    }

    /** Higher is more urgent. */
    function Rank(): nat {
      match this
      case Critical => 2
      case Soon => 1
      case Calm => 0
    }
  }

  /**
   * `getUrgencyColor`: under 15 days (expired included) is critical, under
   * 30 is soon, anything else calm. `NaN` compares false both times, so an
   * unknown day count is calm.
   */
  function UrgencyOf(daysLeft: Option<int>): (u: Urgency)
    ensures daysLeft.Some? && daysLeft.value < 15 ==> u.ColorClass() == "text-destructive"
    ensures daysLeft.Some? && 15 <= daysLeft.value < 30 ==> u.ColorClass() == "text-yellow-600"
    ensures daysLeft.Some? && daysLeft.value >= 30 ==> u.ColorClass() == "text-muted-foreground"
    ensures daysLeft.None? ==> u == Calm
  {
    match daysLeft
    case Some(d) =>
      if d < 15 then Critical
      else if d < 30 then Soon
      else Calm
    case None => Calm
  }

  /** More days left is never more urgent. */
  lemma UrgencyMonotone(d1: int, d2: int)
    requires d1 <= d2
    ensures UrgencyOf(Some(d2)).Rank() <= UrgencyOf(Some(d1)).Rank()
  {
  }

  /** A later expiry is never more urgent. */
  lemma LaterExpiryNeverMoreUrgent(e1: int, e2: int, now: int)
    requires e1 <= e2
    ensures UrgencyOf(DaysLeft(Some(e2), now)).Rank() <= UrgencyOf(DaysLeft(Some(e1), now)).Rank()
  {
    DaysLeftMonotone(e1, e2, now);
  }

  /** An already expired document is critical. */
  lemma ExpiredIsCritical(expiry: int, now: int)
    requires expiry < now
    ensures UrgencyOf(DaysLeft(Some(expiry), now)) == Critical
  {
  }

  /** One card of the list: what it shows and where a click leads. */
  datatype ExpiryRow = ExpiryRow(id: string, docType: Option<string>, owner: Option<string>,
                                 daysLeft: Option<int>, urgency: Urgency, link: string)

  datatype ExpiringView = AllGood | Rows(rows: seq<ExpiryRow>)

  /**
   * `ExpiringSoonList`: "All Good!" for no documents, otherwise one card per
   * document, in order. The list relies on every document carrying an expiry
   * (`doc.expiry!`): a missing one parses to an invalid date, which `format`
   * rejects with a `RangeError`, so the list fails to render.
   */
  function RenderExpiringSoon(docs: seq<Document>, now: int): (v: Result<ExpiringView, string>)
    ensures |docs| == 0 ==> v == Success(AllGood)
    ensures v.Failure? <==> exists i :: 0 <= i < |docs| && docs[i].expiry.None?
    ensures v.Failure? ==> v.error == "RangeError"
    ensures v.Success? && |docs| > 0 ==> v.value.Rows? && |v.value.rows| == |docs|
    ensures v.Success? && |docs| > 0 ==> forall i :: 0 <= i < |docs| ==>
      && v.value.rows[i].id == docs[i].id
      && v.value.rows[i].daysLeft.Some?
      && v.value.rows[i].daysLeft == DaysLeft(docs[i].expiry, now)
      && v.value.rows[i].urgency == UrgencyOf(v.value.rows[i].daysLeft)
      && v.value.rows[i].link == "/dashboard/document/" + docs[i].id
  {
    if |docs| == 0 then Success(AllGood)
    else if exists i :: 0 <= i < |docs| && docs[i].expiry.None? then Failure("RangeError")
    else
      Success(Rows(seq(|docs|, i requires 0 <= i < |docs| =>
        var days := DaysLeft(docs[i].expiry, now);
        ExpiryRow(docs[i].id, docs[i].docType, docs[i].owner, days, UrgencyOf(days), "/dashboard/document/" + docs[i].id))))
  }
}
