/**
 * The status label of one file import.  It observes the events of the
 * import engine and turns them into a short progress text, keeping the
 * counters it needs to render that text (planes, files, series), the
 * error text and reader of a failed import, and the start and end times.
 *
 * The label's state is given as a value (LabelState) with a transition
 * function (Next, Step, Apply); the class StatusLabel holds the same state
 * in fields and each of its methods is proved to perform one transition.
 * Clock readings are passed in as parameters.
 */
module ImportStatus {
  import opened Optional

  /** Java's `int` and `long`. */
  type Int32 = x: int | -0x8000_0000 <= x < 0x8000_0000
  type Int64 = x: int | -0x8000_0000_0000_0000 <= x < 0x8000_0000_0000_0000

  /** Two's-complement wrap-around of an `int` result. */
  function Wrap32(x: int): (r: Int32)
    ensures -0x8000_0000 <= x < 0x8000_0000 ==> r == x
    ensures (r - x) % 0x1_0000_0000 == 0
  {
    (x + 0x8000_0000) % 0x1_0000_0000 - 0x8000_0000
  }

  /** Two's-complement wrap-around of a `long` result. */
  function Wrap64(x: int): (r: Int64)
    ensures -0x8000_0000_0000_0000 <= x < 0x8000_0000_0000_0000 ==> r == x
    ensures (r - x) % 0x1_0000_0000_0000_0000 == 0
  {
    (x + 0x8000_0000_0000_0000) % 0x1_0000_0000_0000_0000 - 0x8000_0000_0000_0000
  }

  // ---------------------------------------------------------------------
  // Decimal rendering of numbers, as string concatenation does it in Java
  // ---------------------------------------------------------------------

  predicate IsDigit(c: char) { '0' <= c <= '9' }

  function Digit(d: nat): (c: char)
    requires d < 10
    ensures IsDigit(c) && c as int - '0' as int == d
  {
    ('0' as int + d) as char
  }

  /** The decimal digits of `n`, most significant first, without leading zeros. */
  function NatText(n: nat): (s: string)
    ensures |s| >= 1
    ensures forall i :: 0 <= i < |s| ==> IsDigit(s[i])
    ensures s[0] == '0' ==> n == 0
    decreases n
  {
    if n < 10 then [Digit(n)] else NatText(n / 10) + [Digit(n % 10)]
  }

  /** `Integer.toString(x)`: a minus sign before the digits of a negative number. */
  function IntText(x: int): (s: string)
    ensures |s| >= 1
  {
    if x < 0 then "-" + NatText(-x) else NatText(x)
  }

  /** The number a string of decimal digits denotes. */
  function DigitsValue(s: string): nat
    requires forall i :: 0 <= i < |s| ==> IsDigit(s[i])
  {
    if s == [] then 0
    else
      assert IsDigit(s[|s| - 1]);
      DigitsValue(s[..|s| - 1]) * 10 + (s[|s| - 1] as int - '0' as int)
  }

  /** Reads back the text of an integer. */
  function ParseIntText(s: string): int
    requires |s| >= 1
    requires s[0] == '-' ==> forall i :: 1 <= i < |s| ==> IsDigit(s[i])
    requires s[0] != '-' ==> forall i :: 0 <= i < |s| ==> IsDigit(s[i])
  {
    if s[0] == '-' then -(DigitsValue(s[1..]) as int) else DigitsValue(s)
  }

  lemma {:induction false} NatTextValue(n: nat)
    ensures DigitsValue(NatText(n)) == n
    decreases n
  {
    if n >= 10 {
      NatTextValue(n / 10);
      var s := NatText(n);
      assert s[..|s| - 1] == NatText(n / 10);
    }
  }

  /** Rendering loses nothing: the number can be read back from its text. */
  lemma IntTextRoundTrip(x: int)
    ensures ParseIntText(IntText(x)) == x
  {
    if x < 0 {
      NatTextValue(-x);
      assert IntText(x)[1..] == NatText(-x);
    } else {
      NatTextValue(x);
    }
  }

  // ---------------------------------------------------------------------
  // Events and state
  // ---------------------------------------------------------------------

  /** The text shown while the image to import is being loaded. */
  const PreppingText := "prepping"

  /** The error text until an error event says more. */
  const FailureText := "failed"

  /** The import events the label distinguishes, with the fields it reads. */
  datatype Event =
    | LoadingImage
    | LoadedImage
    | ImportDone
    | ImportArchiving
    | DatasetStored(imageCount: Int32)
    | ImportStep(step: Int32, series: Int32, seriesCount: Int32)
    | Scanning(totalFiles: Int32)
    | FileException(reader: string, usedFiles: Option<seq<string>>)
    | UnknownFormat
    | MissingLibrary
    | ImportThumbnailing
    /** Any other import event: the label does not react to it. */
    | OtherEvent

  /** Everything the label keeps; `usedFiles` is None until a file exception supplies it. */
  datatype LabelState = LabelState(
    text: string,
    maxPlanes: Int32,
    numberOfFiles: Int32,
    seriesCount: Int32,
    readerType: string,
    usedFiles: Option<seq<string>>,
    startTime: Int64,
    endTime: Int64,
    errorText: string,
    markedAsCancel: bool)

  /** A new label: "pending", no counts, the default error text, not cancelled. */
  function Initial(): LabelState
  {
    LabelState("pending", 0, 0, 0, "", None, 0, 0, FailureText, false)
  }

  /** The text shown when the import is done, from the number of files scanned. */
  function DoneText(numberOfFiles: Int32): string
  {
    if numberOfFiles == 1 then "one file"
    else if numberOfFiles == 0 then ""
    else IntText(numberOfFiles) + " files"
  }

  /** The progress text of an import step; the series number is shown one-based. */
  function StepText(series: Int32, seriesCount: Int32, step: Int32, maxPlanes: Int32): string
  {
    if seriesCount > 1 then
      IntText(Wrap32(series + 1)) + "/" + IntText(seriesCount) + ": "
        + IntText(step) + "/" + IntText(maxPlanes)
    else
      IntText(step) + "/" + IntText(maxPlanes)
  }

  /**
   * How one observed event changes the label; `event` is None for a null
   * event and `now` is the clock reading taken where the label reads the
   * clock.  (The source tests `step <= maxPlanes` twice, nested; once suffices.)
   */
  function Next(s: LabelState, event: Option<Event>, now: Int64): LabelState
  {
    match event
    case None => s
    case Some(e) =>
      match e
      case LoadingImage => s.(startTime := now, text := PreppingText)
      case LoadedImage => s.(text := "analyzing")
      case ImportDone => s.(text := DoneText(s.numberOfFiles), endTime := now)
      case ImportArchiving => s.(text := "archiving")
      case DatasetStored(imageCount) => s.(maxPlanes := imageCount)
      case ImportStep(step, series, seriesCount) =>
        if step <= s.maxPlanes then
          s.(seriesCount := seriesCount, text := StepText(series, seriesCount, step, s.maxPlanes))
        else s
      case Scanning(totalFiles) => s.(numberOfFiles := totalFiles, text := "scanning")
      case FileException(reader, usedFiles) =>
        s.(endTime := now, readerType := reader, usedFiles := usedFiles)
      case UnknownFormat => s.(errorText := "unknown format")
      case MissingLibrary => s.(errorText := "missing required library")
      case ImportThumbnailing => s.(text := "Creating thumbnail")
      case OtherEvent => s
  }

  /** The status text set by `setStatus`: a null value shows as empty. */
  function StatusText(value: Option<string>): string
  {
    if value.None? then "" else value.value
  }

  /** The operations that change a label. */
  datatype LabelOp =
    | Observe(event: Option<Event>, now: Int64)
    | ShowStatus(value: Option<string>)
    | MarkCancel

  function Step(s: LabelState, op: LabelOp): LabelState
  {
    match op
    case Observe(event, now) => Next(s, event, now)
    case ShowStatus(value) => s.(text := StatusText(value))
    case MarkCancel => s.(markedAsCancel := true)
  }

  /** The label after a sequence of operations, applied first to last. */
  function Apply(s: LabelState, ops: seq<LabelOp>): LabelState
    decreases |ops|
  {
    if ops == [] then s else Step(Apply(s, ops[..|ops| - 1]), ops[|ops| - 1])
  }

  /** The duration of the import, with `long` subtraction. */
  function Duration(s: LabelState): (d: Int64)
    ensures 0 <= s.startTime && 0 <= s.endTime ==> d == s.endTime - s.startTime
  {
    Wrap64(s.endTime - s.startTime)
  }

  // ---------------------------------------------------------------------
  // Properties of single events
  // ---------------------------------------------------------------------

  /** A null event, or one the label does not handle, changes nothing. */
  lemma IgnoredEventsChangeNothing(s: LabelState, now: Int64)
    ensures Next(s, None, now) == s
    ensures Next(s, Some(OtherEvent), now) == s
  {
  }

  /** The done text names the number of files: "one file", nothing for none, else "<n> files". */
  lemma DoneTextNamesCount(n: Int32)
    ensures n == 1 ==> DoneText(n) == "one file"
    ensures n == 0 ==> DoneText(n) == ""
    ensures n != 0 && n != 1 ==>
      |DoneText(n)| > 6 && DoneText(n)[|DoneText(n)| - 6..] == " files"
      && ParseIntText(DoneText(n)[..|DoneText(n)| - 6]) == n
  {
    if n != 0 && n != 1 {
      var t := DoneText(n);
      assert t[..|t| - 6] == IntText(n);
      IntTextRoundTrip(n);
    }
  }

  /** A step past the known number of planes is ignored: text and series count stay. */
  lemma StepPastMaxPlanesIgnored(s: LabelState, step: Int32, series: Int32, seriesCount: Int32, now: Int64)
    requires step > s.maxPlanes
    ensures Next(s, Some(ImportStep(step, series, seriesCount)), now) == s
  {
  }

  /** A step within the planes records the series count and shows "step/max", prefixed by the series when there are several. */
  lemma StepShowsProgress(s: LabelState, step: Int32, series: Int32, seriesCount: Int32, now: Int64)
    requires step <= s.maxPlanes
    ensures var t := Next(s, Some(ImportStep(step, series, seriesCount)), now);
      && t.seriesCount == seriesCount
      && t == s.(seriesCount := seriesCount, text := t.text)
      && (seriesCount > 1 ==>
            t.text == IntText(Wrap32(series + 1)) + "/" + IntText(seriesCount) + ": "
                      + IntText(step) + "/" + IntText(s.maxPlanes))
      && (seriesCount <= 1 ==> t.text == IntText(step) + "/" + IntText(s.maxPlanes))
  {
  }

  /** Which events may change the displayed text. */
  predicate ChangesText(e: Event)
  {
    e.LoadingImage? || e.LoadedImage? || e.ImportDone? || e.ImportArchiving?
    || e.ImportStep? || e.Scanning? || e.ImportThumbnailing?
  }

  /** Error events change the error text only; a file exception only the end time, reader and used files. */
  lemma ErrorEventsLeaveTextAlone(s: LabelState, e: Event, now: Int64)
    ensures !ChangesText(e) ==> Next(s, Some(e), now).text == s.text
    ensures e.UnknownFormat? ==> Next(s, Some(e), now) == s.(errorText := "unknown format")
    ensures e.MissingLibrary? ==> Next(s, Some(e), now) == s.(errorText := "missing required library")
    ensures e.FileException? ==>
      Next(s, Some(e), now) == s.(endTime := now, readerType := e.reader, usedFiles := e.usedFiles)
  {
  }

  // ---------------------------------------------------------------------
  // Properties of runs
  // ---------------------------------------------------------------------

  /** The cancel flag is set exactly when it was already set or a run marks it: nothing clears it. */
  lemma {:induction false} CancelFlagOnlyRises(s: LabelState, ops: seq<LabelOp>)
    ensures Apply(s, ops).markedAsCancel <==> s.markedAsCancel || MarkCancel in ops
    decreases |ops|
  {
    if ops != [] {
      var init := ops[..|ops| - 1];
      CancelFlagOnlyRises(s, init);
      assert ops == init + [ops[|ops| - 1]];
    }
  }

  predicate IsScan(op: LabelOp)
  {
    op.Observe? && op.event.Some? && op.event.value.Scanning?
  }

  /** Without a scanning event the number of files never changes. */
  lemma {:induction false} FileCountNeedsScan(s: LabelState, ops: seq<LabelOp>)
    requires forall j :: 0 <= j < |ops| ==> !IsScan(ops[j])
    ensures Apply(s, ops).numberOfFiles == s.numberOfFiles
    decreases |ops|
  {
    if ops != [] {
      FileCountNeedsScan(s, ops[..|ops| - 1]);
    }
  }

  /** The number of files is the total of the last scanning event. */
  lemma {:induction false} FileCountFromLastScan(s: LabelState, ops: seq<LabelOp>, i: nat)
    requires i < |ops| && IsScan(ops[i])
    requires forall j :: i < j < |ops| ==> !IsScan(ops[j])
    ensures Apply(s, ops).numberOfFiles == ops[i].event.value.totalFiles
    decreases |ops|
  {
    if i < |ops| - 1 {
      FileCountFromLastScan(s, ops[..|ops| - 1], i);
    }
  }

  predicate IsLoading(op: LabelOp)
  {
    op.Observe? && op.event == Some(LoadingImage)
  }

  /** The start time is the clock reading of the last loading-image event. */
  lemma {:induction false} StartTimeFromLastLoading(s: LabelState, ops: seq<LabelOp>, i: nat)
    requires i < |ops| && IsLoading(ops[i])
    requires forall j :: i < j < |ops| ==> !IsLoading(ops[j])
    ensures Apply(s, ops).startTime == ops[i].now
    decreases |ops|
  {
    if i < |ops| - 1 {
      StartTimeFromLastLoading(s, ops[..|ops| - 1], i);
    }
  }

  predicate IsEnd(op: LabelOp)
  {
    op.Observe? && op.event.Some? && (op.event.value.ImportDone? || op.event.value.FileException?)
  }

  /** The end time is the clock reading of the last import-done or file-exception event. */
  lemma {:induction false} EndTimeFromLastEnd(s: LabelState, ops: seq<LabelOp>, i: nat)
    requires i < |ops| && IsEnd(ops[i])
    requires forall j :: i < j < |ops| ==> !IsEnd(ops[j])
    ensures Apply(s, ops).endTime == ops[i].now
    decreases |ops|
  {
    if i < |ops| - 1 {
      EndTimeFromLastEnd(s, ops[..|ops| - 1], i);
    }
  }

  /**
   * An import that is loaded at `t0` and done at `t1`, with no other loading
   * or end event in between, reports the duration `t1 - t0`.
   */
  lemma LoadedThenDoneDuration(s: LabelState, ops: seq<LabelOp>, t0: Int64, mid: seq<LabelOp>, t1: Int64)
    requires 0 <= t0 && 0 <= t1
    requires forall j :: 0 <= j < |mid| ==> !IsLoading(mid[j]) && !IsEnd(mid[j])
    ensures var run := ops + [Observe(Some(LoadingImage), t0)] + mid + [Observe(Some(ImportDone), t1)];
      Duration(Apply(s, run)) == t1 - t0
  {
    var run := ops + [Observe(Some(LoadingImage), t0)] + mid + [Observe(Some(ImportDone), t1)];
    var i := |ops|;
    assert run[i] == Observe(Some(LoadingImage), t0);
    forall j | i < j < |run| ensures !IsLoading(run[j]) {
      if j < |run| - 1 { assert run[j] == mid[j - i - 1]; }
    }
    StartTimeFromLastLoading(s, run, i);
    EndTimeFromLastEnd(s, run, |run| - 1);
  }

  predicate IsErrorReport(op: LabelOp)
  {
    op.Observe? && (op.event == Some(UnknownFormat) || op.event == Some(MissingLibrary))
  }

  /** The error text stays "failed" unless an unknown-format or missing-library event arrives. */
  lemma {:induction false} ErrorTextNeedsErrorEvent(ops: seq<LabelOp>)
    requires forall j :: 0 <= j < |ops| ==> !IsErrorReport(ops[j])
    ensures Apply(Initial(), ops).errorText == FailureText
    decreases |ops|
  {
    if ops != [] {
      ErrorTextNeedsErrorEvent(ops[..|ops| - 1]);
    }
  }

  /**
   * When the import is done after scanning `n` files (no later scan), the
   * label shows the done text for `n` and records the end time.
   */
  lemma DoneAfterScan(s: LabelState, ops: seq<LabelOp>, n: Int32, mid: seq<LabelOp>, t: Int64)
    requires forall j :: 0 <= j < |mid| ==> !IsScan(mid[j])
    ensures var after := Apply(s, ops + [Observe(Some(Scanning(n)), 0)] + mid + [Observe(Some(ImportDone), t)]);
      after.text == DoneText(n) && after.endTime == t
  {
    var run := ops + [Observe(Some(Scanning(n)), 0)] + mid;
    var i := |ops|;
    forall j | i < j < |run| ensures !IsScan(run[j]) {
      assert run[j] == mid[j - i - 1];
    }
    FileCountFromLastScan(s, run, i);
    assert run + [Observe(Some(ImportDone), t)] == ops + [Observe(Some(Scanning(n)), 0)] + mid + [Observe(Some(ImportDone), t)];
  }

  // ---------------------------------------------------------------------
  // The label as an object
  // ---------------------------------------------------------------------

  class StatusLabel {
    var text: string
    var maxPlanes: Int32
    var numberOfFiles: Int32
    var seriesCount: Int32
    var readerType: string
    var usedFiles: Option<seq<string>>
    var startTime: Int64
    var endTime: Int64
    var errorText: string
    var markedAsCancel: bool

    /** The fields of this label as a value. */
    function State(): LabelState
      reads this
    {
      LabelState(text, maxPlanes, numberOfFiles, seriesCount, readerType, usedFiles,
                 startTime, endTime, errorText, markedAsCancel)
    }

    constructor ()
      ensures text == "pending" && errorText == FailureText && !markedAsCancel
      ensures maxPlanes == 0 && numberOfFiles == 0 && seriesCount == 0
      ensures readerType == "" && usedFiles.None?
      ensures State() == Initial()
    {
      maxPlanes := 0;
      numberOfFiles := 0;
      seriesCount := 0;
      readerType := "";
      usedFiles := None;
      startTime := 0;
      endTime := 0;
      errorText := FailureText;
      text := "pending";
      markedAsCancel := false;
    }

    /** Marks the import as cancelled; nothing else changes. */
    method MarkedAsCancel()
      modifies this
      ensures IsMarkedAsCancel()
      ensures State() == Step(old(State()), MarkCancel)
    {
      markedAsCancel := true;
    }

    /** Whether the import is marked as cancelled: the flag of the label's state. */
    function IsMarkedAsCancel(): (cancelled: bool)
      reads this
      ensures cancelled <==> State().markedAsCancel
    {
      markedAsCancel
    }

    function GetDuration(): (d: Int64)
      reads this
      ensures d == Duration(State())
    {
      Wrap64(endTime - startTime)
    }

    /** Shows `value`, or nothing for a null value; nothing else changes. */
    method SetStatus(value: Option<string>)
      modifies this
      ensures text == StatusText(value)
      ensures State() == Step(old(State()), ShowStatus(value))
    {
      if value.None? {
        text := "";
      } else {
        text := value.value;
      }
    }

    /** Reacts to one import event, `now` being the clock reading. */
    method Update(event: Option<Event>, now: Int64)
      modifies this
      ensures State() == Next(old(State()), event, now)
      ensures IsMarkedAsCancel() == old(IsMarkedAsCancel())
    {
      if event.None? { return; }
      var e := event.value;
      if e.LoadingImage? {
        startTime := now;
        text := PreppingText;
      } else if e.LoadedImage? {
        text := "analyzing";
      } else if e.ImportDone? {
        if numberOfFiles == 1 {
          text := "one file";
        } else if numberOfFiles == 0 {
          text := "";
        } else {
          text := IntText(numberOfFiles) + " files";
        }
        endTime := now;
      } else if e.ImportArchiving? {
        text := "archiving";
      } else if e.DatasetStored? {
        maxPlanes := e.imageCount;
      } else if e.ImportStep? {
        if e.step <= maxPlanes {
          seriesCount := e.seriesCount;
          if seriesCount > 1 {
            text := IntText(Wrap32(e.series + 1)) + "/" + IntText(seriesCount) + ": "
                    + IntText(e.step) + "/" + IntText(maxPlanes);
          } else {
            text := IntText(e.step) + "/" + IntText(maxPlanes);
          }
        }
      } else if e.Scanning? {
        numberOfFiles := e.totalFiles;
        text := "scanning";
      } else if e.FileException? {
        endTime := now;
        readerType := e.reader;
        usedFiles := e.usedFiles;
      } else if e.UnknownFormat? {
        errorText := "unknown format";
      } else if e.MissingLibrary? {
        errorText := "missing required library";
      } else if e.ImportThumbnailing? {
        text := "Creating thumbnail";
      }
    }
  }
}
