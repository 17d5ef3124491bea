/**
 * The query variables of the score chart (`ScoreChartContainer`), chosen from
 * the selected number of days.
 */
module ScoreChart {
  import opened Values

  /** One day, in milliseconds. */
  const DayMs := 24 * 60 * 60 * 1000

  /** The number of points asked for. */
  const Limit := 499

  /** The days selected before the user picks any. */
  const DefaultDuration := 30

  /** The variables of the score-history query; an unset variable is `None`. */
  datatype Variables = Variables(id: Value, limit: int, groupBy: Option<string>, duration: Option<int>)

  /**
   * `variables` for `userID` and a selection of `days`: 0 asks for weekly
   * groups over the whole history, more than a week for daily groups over
   * the last `days` days, and up to a week for the raw points of the last
   * `days` days.
   */
  function ScoreVariables(userID: Value, days: int): (v: Variables)
    ensures v.id == userID && v.limit == Limit
    ensures v.groupBy == Some("week") <==> days == 0
    ensures v.groupBy == Some("day") <==> days > 7
    ensures v.groupBy.None? <==> days != 0 && days <= 7
    ensures v.duration.Some? <==> days != 0
    ensures v.duration.Some? ==> v.duration.value == days * DayMs
  {
    var base := Variables(userID, Limit, None, None);
    if days == 0 then base.(groupBy := Some("week"))
    else if days > 7 then base.(groupBy := Some("day"), duration := Some(days * DayMs))
    else base.(duration := Some(days * DayMs))
  }

  /** The days a set of variables asks for: its window in whole days, or 0 for the whole history. */
  function DaysOf(v: Variables): int {
    if v.duration.Some? then v.duration.value / DayMs else 0
  }

  /** The variables determine the selection: distinct selections send distinct variables. */
  lemma DaysRoundTrip(userID: Value, days: int)
    ensures DaysOf(ScoreVariables(userID, days)) == days
  {
    if days != 0 {
      assert ScoreVariables(userID, days).duration.value == days * DayMs;
      assert days * DayMs / DayMs == days;
    }
  }

  /** The chart first asks for 30 days in daily groups. */
  lemma DefaultVariables(userID: Value)
    ensures ScoreVariables(userID, DefaultDuration) == Variables(userID, 499, Some("day"), Some(2592000000))
  {
  }
}
