/**
 * The stateful part of src/script.js: the three interaction counters, the
 * analysis timer, the event handlers, the analysis cycle and the start and
 * reset controls. The timer is a flag and each firing of it is an explicit
 * call of RunAnalysisCycle; `now` stands for the clock reading of a cycle.
 */
module Session {
  import opened Classifier
  import opened RecordStore

  /** How many records the history panel shows. */
  const HistoryLimit: int := 10

  class Analyzer {
    var clickCount: nat
    var keyCount: nat
    var focusCount: nat
    /** Whether `analysisTimer` holds an interval. */
    var timerSet: bool
    /** The list kept under the `personaBalanceRecords` key of localStorage. */
    var localRecords: seq<InteractionRecord>
    /** The SQLite-backed record store the cycle writes to. */
    const store: Store

    ghost predicate Valid()
      reads store
    {
      store.Valid()
    }

    /** The intensity score of the counters as they stand. */
    function Score(): (s: nat)
      reads this`clickCount, this`keyCount, this`focusCount
      ensures clickCount + keyCount + focusCount <= s
      ensures s == 0 <==> clickCount == 0 && keyCount == 0 && focusCount == 0
    {
      IntensityScore(clickCount, keyCount, focusCount)
    }

    /** Page load: counters at zero, no timer, a fresh store; `saved` is what localStorage already holds. */
    constructor (saved: seq<InteractionRecord>)
      ensures Valid() && fresh(store)
      ensures clickCount == 0 && keyCount == 0 && focusCount == 0 && !timerSet
      ensures localRecords == saved && store.rows == []
    {
      clickCount, keyCount, focusCount := 0, 0, 0;
      timerSet := false;
      localRecords := saved;
      store := new Store();
    }

    /** The document `click` handler. */
    method OnClick()
      modifies this`clickCount
      ensures clickCount == old(clickCount) + 1
      ensures keyCount == old(keyCount) && focusCount == old(focusCount)
      ensures Score() == old(Score()) + 2
    {
      clickCount := clickCount + 1;
    }

    /** The document `keydown` handler. */
    method OnKeyDown()
      modifies this`keyCount
      ensures keyCount == old(keyCount) + 1
      ensures clickCount == old(clickCount) && focusCount == old(focusCount)
      ensures Score() == old(Score()) + 1
    {
      keyCount := keyCount + 1;
    }

    /** The window `focus` handler. */
    method OnFocus()
      modifies this`focusCount
      ensures focusCount == old(focusCount) + 1
      ensures clickCount == old(clickCount) && keyCount == old(keyCount)
      ensures Score() == old(Score()) + 3
    {
      focusCount := focusCount + 1;
    }

    /** Appends a record to the localStorage list. */
    method SaveRecordToLocalStorage(rec: InteractionRecord)
      modifies this`localRecords
      ensures localRecords == old(localRecords) + [rec]
      ensures localRecords[..|old(localRecords)|] == old(localRecords)
    {
      localRecords := localRecords + [rec];
    }

    /**
     * One analysis cycle: score and classify the counters, store the record,
     * read back the history panel's rows, and zero the counters.
     */
    method RunAnalysisCycle(now: string) returns (history: seq<StoredRecord>)
      requires Valid()
      modifies this, store
      ensures Valid()
      ensures |store.rows| == |old(store.rows)| + 1
      ensures store.rows[..|old(store.rows)|] == old(store.rows)
      ensures var score := old(Score());
              store.rows[|store.rows| - 1] ==
              Row(old(store.nextId), ToStored(BuildInteractionRecord(now, old(clickCount), old(keyCount), old(focusCount),
                                                                     score, CalculateMode(score))))
      ensures store.rows[|store.rows| - 1].rec.score == old(Score())
      ensures store.rows[|store.rows| - 1].rec.mode == ModeName(CalculateMode(old(Score())))
      ensures history == Records(NewestRows(store.rows, HistoryLimit))
      ensures |history| >= 1 && history[0] == store.rows[|store.rows| - 1].rec
      ensures clickCount == 0 && keyCount == 0 && focusCount == 0
      ensures timerSet == old(timerSet) && localRecords == old(localRecords)
    {
      var score := Score();
      var mode := CalculateMode(score);
      var rec := BuildInteractionRecord(now, clickCount, keyCount, focusCount, score, mode);
      store.InsertRecord(rec);
      history := store.GetRecentRecords(HistoryLimit);
      NewestRowsShape(store.rows, HistoryLimit);
      clickCount, keyCount, focusCount := 0, 0, 0;
    }

    /** The start control: set the interval unless one is already set. */
    method Start()
      modifies this`timerSet
      ensures timerSet
      ensures old(timerSet) ==> unchanged(this)
    {
      if timerSet {
        return;
      }
      timerSet := true;
    }

    /**
     * The synchronous part of the reset control, up to its first `await`: zero
     * the counters and stop the timer.
     */
    method ResetCounters()
      modifies this`clickCount, this`keyCount, this`focusCount, this`timerSet
      ensures clickCount == 0 && keyCount == 0 && focusCount == 0 && !timerSet
      ensures Score() == 0
    {
      clickCount, keyCount, focusCount := 0, 0, 0;
      if timerSet {
        timerSet := false;
      }
    }

    /**
     * The awaited part of the reset control: delete every stored record and
     * read back the (now empty) history.
     */
    method ClearHistory() returns (history: seq<StoredRecord>)
      requires Valid()
      modifies store
      ensures Valid()
      ensures store.rows == [] && history == []
    {
      store.ClearRecords();
      history := store.GetRecentRecords(HistoryLimit);
    }

    /** The reset control's handler from start to finish. */
    method Reset() returns (history: seq<StoredRecord>)
      requires Valid()
      modifies this`clickCount, this`keyCount, this`focusCount, this`timerSet, store
      ensures Valid()
      ensures clickCount == 0 && keyCount == 0 && focusCount == 0 && !timerSet
      ensures store.rows == [] && history == []
      ensures localRecords == old(localRecords)
    {
      ResetCounters();
      history := ClearHistory();
    }

    /**
     * A press of the start button. The button sits inside the document, so
     * after its own handler the click bubbles to the document `click` listener,
     * which counts it like any other click.
     */
    method PressStart()
      modifies this`timerSet, this`clickCount
      ensures timerSet
      ensures clickCount == old(clickCount) + 1
      ensures keyCount == old(keyCount) && focusCount == old(focusCount)
      ensures Score() == old(Score()) + 2
    {
      Start();
      OnClick();
    }

    /**
     * A press of the reset button. Once the database is open every `await` in
     * the handler settles in microtasks, so the whole handler finishes before
     * the click bubbles to the document `click` listener, which then counts it
     * on the freshly zeroed counters.
     */
    method PressReset() returns (history: seq<StoredRecord>)
      requires Valid()
      modifies this`clickCount, this`keyCount, this`focusCount, this`timerSet, store
      ensures Valid()
      ensures clickCount == 1 && keyCount == 0 && focusCount == 0 && !timerSet
      ensures Score() == 2
      ensures store.rows == [] && history == []
      ensures localRecords == old(localRecords)
    {
      history := Reset();
      OnClick();
    }
  }
}
