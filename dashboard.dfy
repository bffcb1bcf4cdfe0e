/**
 * The state of the dashboard component and the events that change it: the
 * run trigger, the firing of each scheduled stage timer, the export request,
 * the export's settle timer, the notification's clear timer, the export-menu
 * toggle and the input-mode controls.
 *
 * Every timer callback of the component is an explicit event method here. The
 * timers a run schedules are recorded in the object (`steps`, `fired`,
 * `dataToProcess`), and so are the pending export timers (`pendingSaves`,
 * `pendingClears`); an event method may only be called while its timer is
 * pending.
 */
module Dashboard {
  import opened Options
  import opened Text
  import opened Invoices
  import opened Stages

  /** One line of the processing log; `time` is the local time string taken
      when the entry was appended. */
  datatype LogEntry = LogEntry(message: string, kind: LogType, time: string)

  /** The text the custom-input field starts with. */
  const InitialCustomInput: string := "INV-X1, INV-X2"

  /** The format name shown in the export notification: upper-cased, with the
      misspelling `CVS` shown as `CSV`. */
  function DisplayFormat(format: string): (shown: string)
    ensures |shown| == |format|
    ensures forall k :: 0 <= k < |shown| ==> !IsLowerAscii(shown[k])
  {
    var up := Upper(format);
    if up == "CVS" then "CSV" else up
  }

  /** The notification shown when an export in `format` settles. */
  function SavedMessage(format: string): (m: string)
    ensures |m| == |format| + 10
    ensures m[..9] == "Saved as " && m[|m| - 1] == '!'
  {
    "Saved as " + DisplayFormat(format) + "!"
  }

  /** The displayed format has the length of the requested one, holds no
      lower-case ASCII letter, is the upper-cased request except for the
      `CVS` correction, and displaying it again changes nothing. */
  lemma DisplayFormatShape(format: string)
    ensures |DisplayFormat(format)| == |format|
    ensures forall k :: 0 <= k < |DisplayFormat(format)| ==> !IsLowerAscii(DisplayFormat(format)[k])
    ensures Upper(format) != "CVS" ==> DisplayFormat(format) == Upper(format)
    ensures Upper(format) == "CVS" ==> DisplayFormat(format) == "CSV"
    ensures DisplayFormat(DisplayFormat(format)) == DisplayFormat(format)
  {
    UpperShape(format);
    UpperIdempotent(format);
    if Upper(format) == "CVS" {
      assert Upper("CSV") == "CSV";
    }
  }

  /** The two formats the buttons request, and the corrected misspelling. */
  lemma SavedMessageExamples()
    ensures SavedMessage("csv") == "Saved as CSV!"
    ensures SavedMessage("pdf") == "Saved as PDF!"
    ensures SavedMessage("cvs") == "Saved as CSV!"
  {
    assert Upper("csv") == "CSV";
    assert Upper("pdf") == "PDF";
    assert Upper("cvs") == "CVS";
  }

  /** The run invariant, over the fields that a run updates: the log holds
      one entry per fired stage, with that stage's message and type; the
      progress is that of the last fired stage; a run is in progress exactly
      while stages are left to fire; the results stay empty until the final
      stage has fired and are then the run's records. Before the first run
      nothing is scheduled. */
  ghost predicate RunInvariant(steps: seq<Stage>, fired: nat, data: seq<Invoice>, logs: seq<LogEntry>,
                               progress: nat, results: seq<Invoice>, processing: bool)
    ensures RunInvariant(steps, fired, data, logs, progress, results, processing) ==>
      && (processing ==> results == [])
      && (!processing && steps != [] ==> results == data && |logs| == |steps| && progress == 100)
  {
    && fired <= |steps|
    && (steps == [] || steps == Schedule(|data|))
    && processing == (fired < |steps|)
    && |logs| == fired
    && (forall i :: 0 <= i < fired ==>
          logs[i].message == steps[i].msg && logs[i].kind == EffectiveType(steps[i]))
    && progress == ProgressAfter(steps, fired)
    && results == (if steps != [] && fired == |steps| then data else [])
  }

  /** A freshly started run, with its log, progress and results cleared,
      satisfies the run invariant with no stage fired yet and seven to go. */
  lemma StartEstablishes(data: seq<Invoice>)
    ensures RunInvariant(Schedule(|data|), 0, data, [], 0, [], true)
    ensures |Schedule(|data|)| == StageCount
  {
    ScheduleDelays(|data|);
  }

  /** Firing the next stage keeps the run invariant. The stage fired is the
      final one exactly when it is the last of the schedule, so the run ends,
      and its records appear, exactly when no stage is left; before that the
      results stay empty and the run stays in progress. */
  lemma FireStagePreserves(steps: seq<Stage>, fired: nat, data: seq<Invoice>, logs: seq<LogEntry>,
                           progress: nat, results: seq<Invoice>, processing: bool, time: string)
    requires RunInvariant(steps, fired, data, logs, progress, results, processing)
    requires fired < |steps|
    ensures steps[fired].kind == Some(Final) <==> fired + 1 == |steps|
    ensures var st := steps[fired];
      var done := st.kind == Some(Final);
      RunInvariant(steps, fired + 1, data, logs + [LogEntry(st.msg, EffectiveType(st), time)],
                   st.prog, if done then data else results, processing && !done)
    ensures fired + 1 < |steps| ==> results == [] && processing
  {
    ScheduleFinal(|data|);
    var st := steps[fired];
    var logs' := logs + [LogEntry(st.msg, EffectiveType(st), time)];
    assert forall i :: 0 <= i < fired ==> logs'[i] == logs[i];
  }

  class App {
    var isProcessing: bool
    var isExporting: bool
    var showExportMenu: bool
    var notification: Option<string>
    var logs: seq<LogEntry>
    var results: seq<Invoice>
    var progress: nat
    var inputMode: InputMode
    var customInput: string

    // The stage timers of the latest run: its schedule, how many of its
    // stages have fired, and the records it reveals at the end.
    var steps: seq<Stage>
    var fired: nat
    var dataToProcess: seq<Invoice>

    // The pending export timers: the formats whose settle timer has not
    // fired yet, in firing order, and the number of notification-clear
    // timers not yet fired.
    var pendingSaves: seq<string>
    var pendingClears: nat

    /** The run invariant on this object's fields; besides, an export is
        pending while the spinner shows, and a notification on screen has a
        clear timer pending. */
    ghost predicate Valid()
      reads this
      ensures Valid() ==> (isProcessing ==> results == []) && (isExporting ==> pendingSaves != [])
    {
      && RunInvariant(steps, fired, dataToProcess, logs, progress, results, isProcessing)
      && (isExporting ==> pendingSaves != [])
      && (notification != None ==> pendingClears > 0)
    }

    /** The component's initial state. */
    constructor ()
      ensures Valid()
      ensures !isProcessing && !isExporting && !showExportMenu && notification == None
      ensures logs == [] && results == [] && progress == 0
      ensures inputMode == Standard && customInput == InitialCustomInput
      ensures steps == [] && pendingSaves == [] && pendingClears == 0
    {
      isProcessing, isExporting, showExportMenu, notification := false, false, false, None;
      logs, results, progress := [], [], 0;
      inputMode, customInput := Standard, InitialCustomInput;
      steps, fired, dataToProcess := [], 0, [];
      pendingSaves, pendingClears := [], 0;
    }

    /** The STANDARD / CUSTOM switch. */
    method SetInputMode(mode: InputMode)
      requires Valid()
      modifies this`inputMode
      ensures Valid() && inputMode == mode
    {
      inputMode := mode;
    }

    /** The custom-input text field. */
    method SetCustomInput(text: string)
      requires Valid()
      modifies this`customInput
      ensures Valid() && customInput == text
    {
      customInput := text;
    }

    /** Appends one entry at the end of the log and changes nothing else. */
    method AddLog(message: string, kind: LogType := Info, time: string)
      modifies this`logs
      ensures logs == old(logs) + [LogEntry(message, kind, time)]
    {
      logs := logs + [LogEntry(message, kind, time)];
    }

    /** The run trigger. Ignored while a run is in progress; otherwise it
        clears the log, the results, the progress and the notification,
        materialises the records to reveal from the current input mode and
        text, and schedules the seven stages of a run over them. `dateOf(i)`
        is the date the clock gives when custom record i is made and
        `amountCents(i)` the random amount drawn for it. */
    method RunSimulation(dateOf: nat -> string, amountCents: nat -> nat)
      requires Valid()
      modifies this`isProcessing, this`logs, this`results, this`progress, this`notification,
               this`steps, this`fired, this`dataToProcess
      ensures Valid()
      ensures old(isProcessing) ==> unchanged(this)
      ensures !old(isProcessing) ==>
        && isProcessing && logs == [] && results == [] && progress == 0 && notification == None
        && dataToProcess == Materialize(inputMode, customInput, dateOf, amountCents)
        && steps == Schedule(|dataToProcess|) && fired == 0
    {
      if !isProcessing {
        isProcessing := true;
        logs := [];
        results := [];
        progress := 0;
        notification := None;
        dataToProcess := Materialize(inputMode, customInput, dateOf, amountCents);
        StartEstablishes(dataToProcess);
        steps := Schedule(|dataToProcess|);
        fired := 0;
      }
    }

    /** The timer of the next stage of the run fires at local time `time`:
        it appends the stage's log entry, sets the progress to the stage's
        value, and the final stage also reveals the results and ends the run. */
    method FireStage(time: string)
      requires Valid()
      requires fired < |steps|
      modifies this`logs, this`progress, this`results, this`isProcessing, this`fired
      ensures Valid()
      ensures fired == old(fired) + 1
      ensures logs == old(logs) + [LogEntry(steps[old(fired)].msg, EffectiveType(steps[old(fired)]), time)]
      ensures progress == steps[old(fired)].prog
      ensures steps[old(fired)].kind == Some(Final) ==> results == dataToProcess && !isProcessing
      ensures steps[old(fired)].kind != Some(Final) ==> results == [] && isProcessing
    {
      FireStagePreserves(steps, fired, dataToProcess, logs, progress, results, isProcessing, time);
      var step := steps[fired];
      AddLog(step.msg, EffectiveType(step), time);
      progress := step.prog;
      if step.kind == Some(Final) {
        results := dataToProcess;
        isProcessing := false;
      }
      fired := fired + 1;
    }

    /** An export button: shows the spinner, closes the export menu and
        starts the settle timer for `format`. */
    method RequestExport(format: string)
      requires Valid()
      modifies this`isExporting, this`showExportMenu, this`pendingSaves
      ensures Valid()
      ensures isExporting && !showExportMenu
      ensures pendingSaves == old(pendingSaves) + [format]
    {
      isExporting := true;
      showExportMenu := false;
      pendingSaves := pendingSaves + [format];
    }

    /** The earliest pending settle timer fires: the spinner stops, the
        notification names the saved format, and its clear timer starts. */
    method SettleExport()
      requires Valid()
      requires pendingSaves != []
      modifies this`isExporting, this`notification, this`pendingSaves, this`pendingClears
      ensures Valid()
      ensures !isExporting
      ensures notification == Some(SavedMessage(old(pendingSaves)[0]))
      ensures pendingSaves == old(pendingSaves)[1..]
      ensures pendingClears == old(pendingClears) + 1
    {
      var format := pendingSaves[0];
      isExporting := false;
      notification := Some(SavedMessage(format));
      pendingSaves := pendingSaves[1..];
      pendingClears := pendingClears + 1;
    }

    /** A notification-clear timer fires: whatever notification is on screen
        goes away. */
    method ClearNotification()
      requires Valid()
      requires pendingClears > 0
      modifies this`notification, this`pendingClears
      ensures Valid()
      ensures notification == None
      ensures pendingClears == old(pendingClears) - 1
    {
      notification := None;
      pendingClears := pendingClears - 1;
    }

    /** The Export Data button, which is shown only when there are results
        and is disabled while an export is pending, toggles the menu. */
    method ToggleExportMenu()
      requires Valid()
      modifies this`showExportMenu
      ensures Valid()
      ensures showExportMenu == if !isExporting && results != [] then !old(showExportMenu)
                                else old(showExportMenu)
    {
      if !isExporting && results != [] {
        showExportMenu := !showExportMenu;
      }
    }
  }

  /** A standard run, followed stage by stage: what a caller can conclude from
      the contracts above alone. */
  method StandardRunScenario(dateOf: nat -> string, amountCents: nat -> nat, time: string)
  {
    var app := new App();
    app.RunSimulation(dateOf, amountCents);
    ScheduleDelays(|SampleData|);
    SampleDataFacts();
    assert app.isProcessing && app.logs == [] && app.steps == Schedule(3);
    app.RunSimulation(dateOf, amountCents);
    assert app.fired == 0;
    var k := 0;
    while k < StageCount - 1
      invariant 0 <= k <= StageCount - 1
      invariant app.Valid() && app.steps == Schedule(3) && app.dataToProcess == SampleData
      invariant app.fired == k && app.results == [] && app.isProcessing
    {
      app.FireStage(time);
      k := k + 1;
    }
    assert app.results == [];
    app.FireStage(time);
    assert !app.isProcessing && app.progress == 100 && |app.logs| == StageCount;
    assert app.results[0].id == "INV-2023-001" && app.results[2].id == "INV-2023-003";
    assert app.logs[StageCount - 1].kind == Final;
  }

  /** Two exports requested back to back: each settles once, the second
      settle leaves the spinner off, and the notifications name the formats. */
  method ExportScenario()
  {
    var app := new App();
    SavedMessageExamples();
    app.RequestExport("csv");
    assert app.isExporting;
    app.RequestExport("pdf");
    app.SettleExport();
    assert !app.isExporting && app.notification == Some("Saved as CSV!");
    app.SettleExport();
    assert app.notification == Some("Saved as PDF!") && app.pendingClears == 2;
    app.ClearNotification();
    assert app.notification == None && app.pendingClears == 1;
  }
}
