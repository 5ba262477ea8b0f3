/**
 * The older two-table store of src/db/db.js: an `events` table for raw tracker
 * windows and a `summary` table for classified windows, behind a module-level
 * handle that must be initialised first. Values arrive from JavaScript callers
 * untyped, so each field is a JavaScript value.
 */
module LegacyDb {
  import opened Wrappers

  /** The JavaScript values a caller can pass in a field (objects, arrays and BigInts are not modelled). */
  datatype JsValue = Undefined | Null | Num(x: real) | NaN | Str(s: string) | Bool(b: bool)

  /** JavaScript falsiness: `undefined`, `null`, `0`, `NaN`, `""` and `false`. */
  predicate Falsy(v: JsValue)
  {
    v.Undefined? || v.Null? || v == Num(0.0) || v.NaN? || v == Str("") || v == Bool(false)
  }

  /** `typeof v === 'number'`, which NaN also passes. */
  predicate IsNumber(v: JsValue)
  {
    v.Num? || v.NaN?
  }

  /** `v || d`. */
  function OrDefault(v: JsValue, d: JsValue): (r: JsValue)
    ensures r == v || r == d
    ensures Falsy(r) ==> Falsy(d)
    ensures !Falsy(v) ==> r == v
    ensures Falsy(v) ==> r == d
  {
    if Falsy(v) then d else v
  }

  /** The moods the summary table accepts. */
  const ValidMoods: seq<string> := ["CALM", "BALANCED", "AGGRESSIVE"]

  datatype EventInput = EventInput(ts: JsValue, clicks: JsValue, keys: JsValue, window_switches: JsValue)
  datatype SummaryInput = SummaryInput(ts: JsValue, clicks: JsValue, keys: JsValue, score: JsValue, mood: JsValue)

  datatype EventRow = EventRow(id: nat, ts: JsValue, clicks: JsValue, keys: JsValue, window_switches: JsValue)
  datatype SummaryRow = SummaryRow(id: nat, ts: JsValue, clicks: JsValue, keys: JsValue, score: JsValue, mood: JsValue)

  /**
   * What a call did. insertEvent and insertSummary return nothing in every case; this records
   * which branch was taken (`Threw` is the TypeError of reading a field of null).
   */
  datatype Outcome = Inserted | NotInitialized | Rejected | Threw

  /** The event check: the event is present and its `ts` is a number. */
  predicate EventAccepted(ev: Option<EventInput>)
    ensures EventAccepted(ev) ==>
              (ev.Some? && !ev.value.ts.Undefined? && !ev.value.ts.Null? && !ev.value.ts.Str? && !ev.value.ts.Bool?)
    ensures ev.Some? && ev.value.ts.Num? ==> EventAccepted(ev)
  {
    ev.Some? && IsNumber(ev.value.ts)
  }

  /** The mood check: a falsy mood is let through (and later defaulted), a truthy one must be listed. */
  predicate MoodAccepted(mood: JsValue)
    ensures MoodAccepted(mood) ==> OrDefault(mood, Str("UNKNOWN")).Str? &&
                                   (OrDefault(mood, Str("UNKNOWN")).s in ValidMoods || OrDefault(mood, Str("UNKNOWN")).s == "UNKNOWN")
    ensures mood.Str? && mood.s in ValidMoods ==> MoodAccepted(mood)
    ensures Falsy(mood) ==> MoodAccepted(mood)
    ensures !Falsy(mood) && MoodAccepted(mood) ==> mood.Str? && mood.s in ValidMoods
  {
    Falsy(mood) || (mood.Str? && mood.s in ValidMoods)
  }

  /** The row an accepted event becomes. */
  function EventToRow(id: nat, ev: EventInput): (row: EventRow)
    ensures row.id == id && row.ts == ev.ts && row.clicks == ev.clicks && row.keys == ev.keys
    ensures !Falsy(ev.window_switches) ==> row.window_switches == ev.window_switches
    ensures Falsy(ev.window_switches) ==> row.window_switches == Num(0.0)
  {
    EventRow(id, ev.ts, ev.clicks, ev.keys, OrDefault(ev.window_switches, Num(0.0)))
  }

  /** The row an accepted summary becomes. */
  function SummaryToRow(id: nat, sum: SummaryInput): (row: SummaryRow)
    ensures row.id == id && row.ts == sum.ts && row.clicks == sum.clicks && row.keys == sum.keys
    ensures !Falsy(sum.score) ==> row.score == sum.score
    ensures Falsy(sum.score) ==> row.score == Num(0.0)
    ensures !Falsy(sum.mood) ==> row.mood == sum.mood
    ensures Falsy(sum.mood) ==> row.mood == Str("UNKNOWN")
  {
    SummaryRow(id, sum.ts, sum.clicks, sum.keys, OrDefault(sum.score, Num(0.0)), OrDefault(sum.mood, Str("UNKNOWN")))
  }

  /** Every mood that reaches the summary table is one of the listed moods or UNKNOWN. */
  lemma StoredMoodIsKnown(id: nat, sum: SummaryInput)
    requires MoodAccepted(sum.mood)
    ensures var m := SummaryToRow(id, sum).mood;
            m.Str? && (m.s in ValidMoods || m.s == "UNKNOWN")
  {
  }

  /** A mood outside the upper-case set is refused, including the mixed-case names the newer store writes. */
  lemma MixedCaseMoodRejected()
    ensures !MoodAccepted(Str("Calm")) && !MoodAccepted(Str("Aggressive"))
    ensures MoodAccepted(Str("CALM")) && MoodAccepted(Undefined)
  {
    assert Str("Calm").s !in ValidMoods;
    assert Str("Aggressive").s !in ValidMoods;
  }

  /** A NaN timestamp passes the event check, since NaN is of type number. */
  lemma NaNTimestampAccepted(clicks: JsValue, keys: JsValue, ws: JsValue)
    ensures EventAccepted(Some(EventInput(NaN, clicks, keys, ws)))
    ensures !EventAccepted(Some(EventInput(Str("1700000000"), clicks, keys, ws)))
  {
  }

  /** `getEvents`: an unimplemented range query that always answers with no rows. */
  function GetEvents(startTs: JsValue, endTs: JsValue): (rows: seq<EventRow>)
    ensures |rows| == 0
  {
    []
  }

  /** `getSummary`: an unimplemented range query that always answers with no rows. */
  function GetSummary(startTs: JsValue, endTs: JsValue): (rows: seq<SummaryRow>)
    ensures |rows| == 0
  {
    []
  }

  predicate EventIdsIncreasing(rows: seq<EventRow>, next: nat)
  {
    (forall i, j :: 0 <= i < j < |rows| ==> rows[i].id < rows[j].id) &&
    (forall i :: 0 <= i < |rows| ==> rows[i].id < next)
  }

  predicate SummaryIdsIncreasing(rows: seq<SummaryRow>, next: nat)
  {
    (forall i, j :: 0 <= i < j < |rows| ==> rows[i].id < rows[j].id) &&
    (forall i :: 0 <= i < |rows| ==> rows[i].id < next)
  }

  /**
   * The module state: `open` stands for the `db` handle, `events` and
   * `summaries` for the two tables, the `next` ids for their AUTOINCREMENT
   * counters.
   */
  class Database {
    var open: bool
    var events: seq<EventRow>
    var summaries: seq<SummaryRow>
    var nextEventId: nat
    var nextSummaryId: nat

    ghost predicate Valid()
      reads this
    {
      EventIdsIncreasing(events, nextEventId) &&
      SummaryIdsIncreasing(summaries, nextSummaryId) &&
      (!open ==> events == [] && summaries == [])
    }

    /** Module load: `db` is null. */
    constructor ()
      ensures Valid() && !open && events == [] && summaries == []
    {
      open := false;
      events, summaries := [], [];
      nextEventId, nextSummaryId := 1, 1;
    }

    /**
     * Returns at once when a database exists; otherwise loads the engine and
     * creates both tables empty. `engineLoads` is whether loading the engine
     * succeeds; when it does not, the error propagates and nothing changes.
     */
    method InitDb(engineLoads: bool) returns (ok: bool)
      requires Valid()
      modifies this
      ensures Valid()
      ensures old(open) ==> ok && unchanged(this)
      ensures !old(open) && !engineLoads ==> !ok && unchanged(this)
      ensures !old(open) && engineLoads ==> ok && open && events == [] && summaries == []
    {
      if open {
        return true;
      }
      if !engineLoads {
        return false;
      }
      open := true;
      events, summaries := [], [];
      nextEventId, nextSummaryId := 1, 1;
      ok := true;
    }

    /** `insertEvent`: check the handle, then the event, then append one row. */
    method InsertEvent(ev: Option<EventInput>) returns (outcome: Outcome)
      requires Valid()
      modifies this`events, this`nextEventId
      ensures Valid()
      ensures outcome == NotInitialized <==> !open
      ensures outcome == Rejected <==> open && !EventAccepted(ev)
      ensures outcome == Inserted <==> open && EventAccepted(ev)
      ensures outcome == Inserted ==>
                events == old(events) + [EventToRow(old(nextEventId), ev.value)] && nextEventId == old(nextEventId) + 1
      ensures outcome != Inserted ==> events == old(events) && nextEventId == old(nextEventId)
    {
      if !open {
        return NotInitialized;
      }
      if ev.None? || !IsNumber(ev.value.ts) {
        return Rejected;
      }
      events := events + [EventToRow(nextEventId, ev.value)];
      nextEventId := nextEventId + 1;
      outcome := Inserted;
    }

    /** `insertSummary`: check the handle, then the mood, then append one row. */
    method InsertSummary(sum: Option<SummaryInput>) returns (outcome: Outcome)
      requires Valid()
      modifies this`summaries, this`nextSummaryId
      ensures Valid()
      ensures outcome == NotInitialized <==> !open
      ensures outcome == Threw <==> open && sum.None?
      ensures outcome == Rejected <==> open && sum.Some? && !MoodAccepted(sum.value.mood)
      ensures outcome == Inserted <==> open && sum.Some? && MoodAccepted(sum.value.mood)
      ensures outcome == Inserted ==>
                summaries == old(summaries) + [SummaryToRow(old(nextSummaryId), sum.value)] &&
                nextSummaryId == old(nextSummaryId) + 1
      ensures outcome != Inserted ==> summaries == old(summaries) && nextSummaryId == old(nextSummaryId)
    {
      if !open {
        return NotInitialized;
      }
      if sum.None? {
        return Threw;
      }
      if !Falsy(sum.value.mood) && !(sum.value.mood.Str? && sum.value.mood.s in ValidMoods) {
        return Rejected;
      }
      summaries := summaries + [SummaryToRow(nextSummaryId, sum.value)];
      nextSummaryId := nextSummaryId + 1;
      outcome := Inserted;
    }

    /** `clearDatabase`: with a database, delete every row of both tables; without one, nothing. */
    method ClearDatabase()
      requires Valid()
      modifies this`events, this`summaries
      ensures Valid()
      ensures open ==> events == [] && summaries == []
      ensures !open ==> events == old(events) && summaries == old(summaries)
    {
      if open {
        events, summaries := [], [];
      }
    }
  }
}
