/** The event stream of a translation run and what `translate_pdf` makes of
    it: the loop that collects progress lines and remembers the last error
    and the last finish payload, and the classification of the outcome. */
module Events {
  import opened Options
  import opened Paths
  import opened Validation
  import opened Responses

  /** One event of the pipeline's stream; `None` is a key the event lacks.
      A finish payload is kept as its printed text. */
  datatype Event =
    | ProgressUpdate(stage: Option<string>, stageCurrent: Option<int>, stageTotal: Option<int>)
    | ErrorEvent(error: Option<string>)
    | Finish(translateResult: Option<string>)
    | OtherEvent(kind: string)

  /** How a run of the pipeline ends: its whole event stream, or an
      exception (raised while setting up or while events were read). */
  datatype PipelineRun = Completed(events: seq<Event>) | Raised(message: string)

  function DigitChar(d: nat): char
    requires d < 10
  {
    "0123456789"[d]
  }

  /** Decimal text of an integer, as an f-string prints it. */
  function NatText(n: nat): string
    decreases n
  {
    if n < 10 then [DigitChar(n)] else NatText(n / 10) + [DigitChar(n % 10)]
  }

  function IntText(i: int): string {
    if i < 0 then "-" + NatText(-i) else NatText(i)
  }

  /** "stage: current/total", with "unknown", 0 and 100 for missing keys. */
  function ProgressLine(stage: Option<string>, current: Option<int>, total: Option<int>): string {
    GetOr(stage, "unknown") + ": " + IntText(GetOr(current, 0)) + "/" + IntText(GetOr(total, 100))
  }

  /** The error an error event reports; "Unknown error" when it has none. */
  function ErrorValue(e: Event): string
    requires e.ErrorEvent?
  {
    GetOr(e.error, "Unknown error")
  }

  /** The three variables the loop updates. */
  datatype FoldState = FoldState(progress: seq<string>, translationError: Option<string>, resultInfo: Option<string>)

  const Initial := FoldState([], None, None)

  function Step(s: FoldState, e: Event): FoldState {
    match e
    case ProgressUpdate(stage, current, total) => s.(progress := s.progress + [ProgressLine(stage, current, total)])
    case ErrorEvent(_) => s.(translationError := Some(ErrorValue(e)))
    case Finish(result) => s.(resultInfo := result)
    case OtherEvent(_) => s
  }

  /** The state after the loop has consumed `events`, one at a time. */
  function Fold(events: seq<Event>): FoldState
    decreases |events|
  {
    if events == [] then Initial else Step(Fold(events[..|events| - 1]), events[|events| - 1])
  }

  /** The loop over the event stream. */
  method CollectEvents(events: seq<Event>) returns (progress: seq<string>, translationError: Option<string>, resultInfo: Option<string>)
    ensures FoldState(progress, translationError, resultInfo) == Fold(events)
  {
    progress, translationError, resultInfo := [], None, None;
    for i := 0 to |events|
      invariant FoldState(progress, translationError, resultInfo) == Fold(events[..i])
    {
      assert events[..i + 1][..i] == events[..i];
      match events[i]
      case ProgressUpdate(stage, current, total) =>
        progress := progress + [ProgressLine(stage, current, total)];
      case ErrorEvent(_) =>
        translationError := Some(ErrorValue(events[i]));
      case Finish(result) =>
        resultInfo := result;
      case OtherEvent(_) =>
    }
    assert events[..|events|] == events;
  }

  /** The success record: the job's paths as text, its languages, the
      service name, the model and the printed finish payload. */
  function Record(job: Job, result: string): SuccessRecord {
    SuccessRecord(Text(job.inputPath), Text(job.outputDir), job.langIn, job.langOut,
                  ProviderName(job.backend.provider), job.backend.model, result)
  }

  /** The classification after the loop: a truthy error first, then a
      finish payload, then "completed but no result information". */
  function Classify(s: FoldState, job: Job): Response {
    if Truthy(s.translationError) then TranslationError(s.translationError.value)
    else if s.resultInfo.Some? then Translated(Record(job, s.resultInfo.value))
    else NoResultInfo
  }

  // ---------------------------------------------------------------------
  // What the loop computes, stated on the whole stream

  /** The progress lines of the progress events, in stream order. */
  function ProgressLines(events: seq<Event>): seq<string> {
    if events == [] then []
    else
      (match events[0]
       case ProgressUpdate(stage, current, total) => [ProgressLine(stage, current, total)]
       case _ => []) + ProgressLines(events[1..])
  }

  predicate LastErrorAt(events: seq<Event>, i: int) {
    0 <= i < |events| && events[i].ErrorEvent? && forall j :: i < j < |events| ==> !events[j].ErrorEvent?
  }

  predicate LastFinishAt(events: seq<Event>, i: int) {
    0 <= i < |events| && events[i].Finish? && forall j :: i < j < |events| ==> !events[j].Finish?
  }

  lemma {:induction false} ProgressLinesAppend(events: seq<Event>, e: Event)
    ensures ProgressLines(events + [e]) == ProgressLines(events) + ProgressLines([e])
  {
    if events != [] {
      assert (events + [e])[1..] == events[1..] + [e];
      ProgressLinesAppend(events[1..], e);
    } else {
      assert events + [e] == [e];
    }
  }

  /** The progress list holds one line per progress event, in order. */
  lemma {:induction false} FoldProgress(events: seq<Event>)
    ensures Fold(events).progress == ProgressLines(events)
  {
    if events != [] {
      var n := |events| - 1;
      FoldProgress(events[..n]);
      assert events == events[..n] + [events[n]];
      ProgressLinesAppend(events[..n], events[n]);
    }
  }

  /** The remembered error is absent exactly when there was no error event,
      and otherwise is what the last error event reported. */
  lemma {:induction false} FoldLastError(events: seq<Event>)
    ensures Fold(events).translationError.None? <==> forall i :: 0 <= i < |events| ==> !events[i].ErrorEvent?
    ensures forall i :: LastErrorAt(events, i) ==> Fold(events).translationError == Some(ErrorValue(events[i]))
  {
    if events != [] {
      var n := |events| - 1;
      var prefix := events[..n];
      FoldLastError(prefix);
      assert forall i :: 0 <= i < n ==> prefix[i] == events[i];
      var last := events[n];
      assert Fold(events) == Step(Fold(prefix), last);
      if last.ErrorEvent? {
        assert Fold(events).translationError == Some(ErrorValue(last));
        forall i | LastErrorAt(events, i) ensures i == n {
        }
      } else {
        assert Fold(events).translationError == Fold(prefix).translationError;
        forall i | LastErrorAt(events, i) ensures LastErrorAt(prefix, i) {
        }
      }
    }
  }

  /** The remembered payload is that of the last finish event, and absent
      when there was none. */
  lemma {:induction false} FoldLastFinish(events: seq<Event>)
    ensures (forall i :: 0 <= i < |events| ==> !events[i].Finish?) ==> Fold(events).resultInfo.None?
    ensures forall i :: LastFinishAt(events, i) ==> Fold(events).resultInfo == events[i].translateResult
  {
    if events != [] {
      var n := |events| - 1;
      var prefix := events[..n];
      FoldLastFinish(prefix);
      assert forall i :: 0 <= i < n ==> prefix[i] == events[i];
      var last := events[n];
      assert Fold(events) == Step(Fold(prefix), last);
      if last.Finish? {
        assert Fold(events).resultInfo == last.translateResult;
        forall i | LastFinishAt(events, i) ensures i == n {
        }
      } else {
        assert Fold(events).resultInfo == Fold(prefix).resultInfo;
        forall i | LastFinishAt(events, i) ensures LastFinishAt(prefix, i) {
        }
      }
    }
  }

  /** No error is reported: every last error event (there is at most one)
      carries an empty error. */
  predicate NoErrorReported(events: seq<Event>) {
    forall i :: 0 <= i < |events| && LastErrorAt(events, i) ==> ErrorValue(events[i]) == ""
  }

  /** The outcome of a completed run, in order of precedence: a non-empty
      error from the last error event wins over anything else. */
  lemma ErrorWins(events: seq<Event>, job: Job, i: int)
    requires LastErrorAt(events, i) && ErrorValue(events[i]) != ""
    ensures Classify(Fold(events), job) == TranslationError(ErrorValue(events[i]))
  {
    FoldLastError(events);
  }

  /** Otherwise the payload of the last finish event gives the success
      record. */
  lemma FinishGivesRecord(events: seq<Event>, job: Job, i: int)
    requires NoErrorReported(events)
    requires LastFinishAt(events, i) && events[i].translateResult.Some?
    ensures Classify(Fold(events), job) == Translated(Record(job, events[i].translateResult.value))
  {
    FoldLastError(events);
    FoldLastFinish(events);
    if Fold(events).translationError.Some? {
      LastErrorExists(events);
    }
  }

  /** Otherwise the run completed without result information. Progress and
      other events never matter. */
  lemma NoResultOtherwise(events: seq<Event>, job: Job)
    requires NoErrorReported(events)
    requires forall i :: 0 <= i < |events| && LastFinishAt(events, i) ==> events[i].translateResult.None?
    ensures Classify(Fold(events), job) == NoResultInfo
  {
    FoldLastError(events);
    FoldLastFinish(events);
    if Fold(events).translationError.Some? {
      LastErrorExists(events);
    }
    if Fold(events).resultInfo.Some? {
      LastFinishExists(events);
    }
  }

  lemma {:induction false} LastErrorExists(events: seq<Event>)
    requires exists k :: 0 <= k < |events| && events[k].ErrorEvent?
    ensures exists i :: LastErrorAt(events, i)
  {
    var n := |events| - 1;
    if events[n].ErrorEvent? {
      assert LastErrorAt(events, n);
    } else {
      var k :| 0 <= k < |events| && events[k].ErrorEvent?;
      assert events[..n][k] == events[k];
      LastErrorExists(events[..n]);
      var i :| LastErrorAt(events[..n], i);
      assert LastErrorAt(events, i);
    }
  }

  lemma {:induction false} LastFinishExists(events: seq<Event>)
    requires exists k :: 0 <= k < |events| && events[k].Finish?
    ensures exists i :: LastFinishAt(events, i)
  {
    var n := |events| - 1;
    if events[n].Finish? {
      assert LastFinishAt(events, n);
    } else {
      var k :| 0 <= k < |events| && events[k].Finish?;
      assert events[..n][k] == events[k];
      LastFinishExists(events[..n]);
      var i :| LastFinishAt(events[..n], i);
      assert LastFinishAt(events, i);
    }
  }
}
