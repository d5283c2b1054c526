/**
 * The main page (`HomePage`): the spreadsheet/sheet selection, the
 * generation form and its validation, the load effects, and the four actions
 * (generate, analyze, modify, custom arrangement prompt), each with its own
 * in-flight flag.
 *
 * Every asynchronous action is split at its `await`: `Begin…` runs up to the
 * request (guards, in-flight flag, the request it sends) and `Finish…` runs
 * from the response on (results, follow-up reload, alert, `finally`).
 * Alerts are returned as values.
 */
module HomePage {
  import opened Wrappers
  import opened Text
  import opened Http
  import opened Forms

  /** A JSON object whose fields the page displays but does not interpret
      (a test case, a scenario, a created sheet, a modification entry). */
  type JsonObject = map<string, string>

  datatype Spreadsheet = Spreadsheet(id: string, name: string)
  datatype Sheet = Sheet(id: string, name: string)

  /** `testCaseForm`. */
  datatype GenerationForm = GenerationForm(
    moduleName: string,
    summary: string,
    acceptanceCriteria: string,
    generateTestCases: bool,
    generateTestScenarios: bool,
    testCasesCount: int,
    testScenariosCount: int)

  /** The keys of the `errors` map. */
  datatype ErrorKey = Module | Summary | AcceptanceCriteria | SpreadsheetSelection | GenerationOptions

  /** The keys that name a text input handled by `handleInputChange`. */
  type TextKey = k: ErrorKey | k.Module? || k.Summary? || k.AcceptanceCriteria? witness Module

  /** `{...form, [name]: value}` for a text input's `name`. */
  function WithText(form: GenerationForm, name: TextKey, value: string): (f: GenerationForm)
    ensures name == Module ==> f == form.(moduleName := value)
    ensures name == Summary ==> f == form.(summary := value)
    ensures name == AcceptanceCriteria ==> f == form.(acceptanceCriteria := value)
  {
    match name
    case Module => form.(moduleName := value)
    case Summary => form.(summary := value)
    case AcceptanceCriteria => form.(acceptanceCriteria := value)
  }

  /** The form's values on mount and after a successful generation. */
  function DefaultForm(): (f: GenerationForm)
    ensures f.moduleName == "" && f.summary == "" && f.acceptanceCriteria == ""
    ensures f.generateTestCases && f.generateTestScenarios
    ensures f.testCasesCount == 20 && f.testScenariosCount == 10
  {
    GenerationForm("", "", "", true, true, 20, 10)
  }

  /** The rule behind each key of `validateForm`'s result. */
  predicate Fails(form: GenerationForm, selected: Option<Spreadsheet>, k: ErrorKey)
  {
    match k
    case Module => IsBlank(form.moduleName)
    case Summary => IsBlank(form.summary)
    case AcceptanceCriteria => IsBlank(form.acceptanceCriteria)
    case SpreadsheetSelection => selected.None?
    case GenerationOptions => !form.generateTestCases && !form.generateTestScenarios
  }

  /** The message `validateForm` stores under each key. */
  function Message(k: ErrorKey): string
  {
    match k
    case Module => "Module name is required"
    case Summary => "Summary is required"
    case AcceptanceCriteria => "Acceptance criteria is required"
    case SpreadsheetSelection => "Please select a spreadsheet"
    case GenerationOptions => "Please select at least one option to generate (Test Cases or Test Scenarios)"
  }

  /** The five tests of `validateForm` as the code writes them (`!s.trim()`
      for the text fields). */
  predicate FailsAsWritten(form: GenerationForm, selected: Option<Spreadsheet>, k: ErrorKey)
  {
    match k
    case Module => Trim(form.moduleName) == ""
    case Summary => Trim(form.summary) == ""
    case AcceptanceCriteria => Trim(form.acceptanceCriteria) == ""
    case SpreadsheetSelection => selected.None?
    case GenerationOptions => !form.generateTestCases && !form.generateTestScenarios
  }

  const AllKeys: set<ErrorKey> := {Module, Summary, AcceptanceCriteria, SpreadsheetSelection, GenerationOptions}

  /** `validateForm`: one entry per failed rule, holding that rule's message,
      and no other entries; the map is empty exactly when every rule passes. */
  function ValidateForm(form: GenerationForm, selected: Option<Spreadsheet>): (r: map<ErrorKey, string>)
    ensures forall k :: k in r <==> Fails(form, selected, k)
    ensures forall k :: k in r ==> r[k] == Message(k)
    ensures r == map[] <==> forall k :: !Fails(form, selected, k)
  {
    var r := map k | k in AllKeys && FailsAsWritten(form, selected, k) :: Message(k);
    assert forall k :: k in r <==> Fails(form, selected, k) by {
      forall k ensures FailsAsWritten(form, selected, k) <==> Fails(form, selected, k) {
        TrimEmptyIffBlank(form.moduleName);
        TrimEmptyIffBlank(form.summary);
        TrimEmptyIffBlank(form.acceptanceCriteria);
      }
    }
    assert r == map[] ==> forall k :: k !in r;
    r
  }

  /** The default form is never submittable as it is: its three text fields
      are reported, plus the spreadsheet when none is chosen, and nothing else. */
  lemma DefaultFormIsIncomplete(selected: Option<Spreadsheet>)
    ensures ValidateForm(DefaultForm(), selected).Keys ==
      {Module, Summary, AcceptanceCriteria} + (if selected.None? then {SpreadsheetSelection} else {})
  {
    var r := ValidateForm(DefaultForm(), selected);
    assert !Fails(DefaultForm(), selected, GenerationOptions);
  }

  /** A filled-in form with both generation options turned off yields the
      `generation` error and no other. */
  lemma OnlyGenerationErrorExample(s: Spreadsheet)
    ensures ValidateForm(GenerationForm("Login", "test", "crit", false, false, 20, 10), Some(s)).Keys == {GenerationOptions}
  {
    var f := GenerationForm("Login", "test", "crit", false, false, 20, 10);
    assert !IsBlank(f.moduleName) by { assert !IsWhitespace(f.moduleName[0]); }
    assert !IsBlank(f.summary) by { assert !IsWhitespace(f.summary[0]); }
    assert !IsBlank(f.acceptanceCriteria) by { assert !IsWhitespace(f.acceptanceCriteria[0]); }
    var r := ValidateForm(f, Some(s));
    forall k ensures k in r <==> k == GenerationOptions {
      assert Fails(f, Some(s), k) <==> k == GenerationOptions;
    }
  }

  /** The success alert of `generateTestCases`: a part per non-empty list,
      joined by `' and '`. */
  function SuccessMessage(cases: nat, scenarios: nat): (m: string)
    ensures SuccessPrefix <= m
    ensures |SuccessPrefix| + |SuccessSuffix| <= |m|
    ensures m[|m| - |SuccessSuffix|..] == SuccessSuffix
  {
    var middle := Join(SuccessParts(cases, scenarios), " and ");
    assert (SuccessPrefix + middle + SuccessSuffix)[|SuccessPrefix| + |middle|..] == SuccessSuffix;
    SuccessPrefix + middle + SuccessSuffix
  }

  /** The counts the success alert names, each only when it is non-zero. */
  function SuccessParts(cases: nat, scenarios: nat): (r: seq<string>)
    ensures |r| == (if cases > 0 then 1 else 0) + (if scenarios > 0 then 1 else 0)
    ensures cases > 0 ==> r[0] == NatToString(cases) + " test cases"
    ensures scenarios > 0 ==> r[|r| - 1] == NatToString(scenarios) + " test scenarios"
  {
    (if cases > 0 then [NatToString(cases) + " test cases"] else [])
      + (if scenarios > 0 then [NatToString(scenarios) + " test scenarios"] else [])
  }

  /** The fixed start of the success alert. */
  const SuccessPrefix: string := "Successfully generated "

  /** The fixed end of the success alert. */
  const SuccessSuffix: string := " and added to your spreadsheet!"
  /** The four shapes of the success alert. */
  lemma SuccessMessageCases(cases: nat, scenarios: nat)
    ensures cases > 0 && scenarios > 0 ==>
      SuccessMessage(cases, scenarios) == SuccessPrefix
        + (NatToString(cases) + " test cases" + " and " + NatToString(scenarios) + " test scenarios") + SuccessSuffix
    ensures cases > 0 && scenarios == 0 ==>
      SuccessMessage(cases, scenarios) == SuccessPrefix + (NatToString(cases) + " test cases") + SuccessSuffix
    ensures cases == 0 && scenarios > 0 ==>
      SuccessMessage(cases, scenarios) == SuccessPrefix + (NatToString(scenarios) + " test scenarios") + SuccessSuffix
    ensures cases == 0 && scenarios == 0 ==>
      SuccessMessage(cases, scenarios) == SuccessPrefix + SuccessSuffix
  {
    if cases > 0 && scenarios > 0 {
      BothCounts(cases, scenarios);
    } else if cases > 0 {
      OneCount(cases, scenarios, NatToString(cases) + " test cases");
    } else if scenarios > 0 {
      OneCount(cases, scenarios, NatToString(scenarios) + " test scenarios");
    } else {
      assert SuccessParts(cases, scenarios) == [];
    }
  }

  /** With both counts non-zero the alert joins them with `" and "`. */
  lemma BothCounts(cases: nat, scenarios: nat)
    requires cases > 0 && scenarios > 0
    ensures SuccessMessage(cases, scenarios) == SuccessPrefix
      + (NatToString(cases) + " test cases" + " and " + NatToString(scenarios) + " test scenarios") + SuccessSuffix
  {
    var a, b := NatToString(cases) + " test cases", NatToString(scenarios) + " test scenarios";
    assert SuccessParts(cases, scenarios) == [a, b];
    JoinTwo(a, b, " and ");
    assert SuccessMessage(cases, scenarios) == SuccessPrefix + Join([a, b], " and ") + SuccessSuffix;
  }

  /** With one count non-zero the alert names only that one. */
  lemma OneCount(cases: nat, scenarios: nat, part: string)
    requires SuccessParts(cases, scenarios) == [part]
    ensures SuccessMessage(cases, scenarios) == SuccessPrefix + part + SuccessSuffix
  {
    assert Join([part], " and ") == part;
  }

  /** `spreadsheets.find(sheet => sheet.id === id)`: the first spreadsheet
      with that id, or none (the "Choose a spreadsheet..." option). */
  function FindSpreadsheet(list: seq<Spreadsheet>, id: string): (r: Option<Spreadsheet>)
    ensures r.None? <==> forall i :: 0 <= i < |list| ==> list[i].id != id
    ensures r.Some? ==>
      exists i :: 0 <= i < |list| && list[i] == r.value && r.value.id == id && forall j :: 0 <= j < i ==> list[j].id != id
  {
    if list == [] then None
    else if list[0].id == id then Some(list[0])
    else
      var r := FindSpreadsheet(list[1..], id);
      assert r.Some? ==>
        exists i :: 0 <= i < |list| && list[i] == r.value && r.value.id == id && forall j :: 0 <= j < i ==> list[j].id != id
      by {
        if r.Some? {
          var i :| 0 <= i < |list[1..]| && list[1..][i] == r.value && r.value.id == id
            && forall j :: 0 <= j < i ==> list[1..][j].id != id;
          assert list[i + 1] == r.value;
          forall j | 0 <= j < i + 1 ensures list[j].id != id {
            if j > 0 { assert list[j] == list[1..][j - 1]; }
          }
        }
      }
      r
  }

  /** The values the two load effects depend on. */
  datatype Deps = Deps(spreadsheet: Option<Spreadsheet>, sheet: string, connected: bool)

  /** Which load effects run after a state change. */
  datatype Loads = Loads(sheets: bool, testCases: bool)

  /** The effects on `[selectedSpreadsheet, isConnected]` and on
      `[selectedSheet, selectedSpreadsheet]`: each runs when one of its
      dependencies changed, and loads only if its condition then holds. */
  function LoadsDue(before: Deps, after: Deps): (l: Loads)
    ensures l.sheets ==> after.spreadsheet.Some? && after.connected
    ensures l.testCases ==> after.spreadsheet.Some? && after.sheet != ""
    ensures l.sheets ==> before.spreadsheet != after.spreadsheet || before.connected != after.connected
    ensures l.testCases ==> before.sheet != after.sheet || before.spreadsheet != after.spreadsheet
    ensures !l.sheets && after.spreadsheet.Some? && after.connected ==>
      before.spreadsheet == after.spreadsheet && before.connected
    ensures !l.testCases && after.spreadsheet.Some? && after.sheet != "" ==>
      before.spreadsheet == after.spreadsheet && before.sheet == after.sheet
  {
    Loads(
      (before.spreadsheet != after.spreadsheet || before.connected != after.connected)
        && after.spreadsheet.Some? && after.connected,
      (before.sheet != after.sheet || before.spreadsheet != after.spreadsheet)
        && after.sheet != "" && after.spreadsheet.Some?)
  }

  /** The body of `/api/sheets/status`. */
  datatype StatusData = StatusData(connected: bool, spreadsheets: Option<seq<Spreadsheet>>)

  /** The body of `/api/sheets/generate`; a missing list is read as empty,
      as `data.testCases || []` and the length checks do. */
  datatype GenerateData = GenerateData(testCases: seq<JsonObject>, testScenarios: seq<JsonObject>, createdSheets: seq<JsonObject>)

  /** `generatedContent`. */
  datatype GeneratedContent = GeneratedContent(testCases: seq<JsonObject>, testScenarios: seq<JsonObject>, createdSheets: seq<JsonObject>)

  /** The body of `/api/sheets/modify`. */
  datatype ModifyData = ModifyData(summary: string, modifications: seq<JsonObject>)

  /** The body of `/api/sheets/custom-prompt`. */
  datatype ArrangeData = ArrangeData(intent: string, arrangementStrategy: string, summary: string, changes: string, arrangedCount: nat)

  /** The JSON bodies the actions post. */
  datatype GenerateRequest = GenerateRequest(
    moduleName: string, summary: string, acceptanceCriteria: string, spreadsheetId: string,
    generateTestCases: bool, generateTestScenarios: bool, testCasesCount: int, testScenariosCount: int)
  datatype AnalyzeRequest = AnalyzeRequest(spreadsheetId: string, sheetName: string, analysisType: string)
  datatype ModifyRequest = ModifyRequest(spreadsheetId: string, sheetName: string, modificationPrompt: string)
  datatype PromptRequest = PromptRequest(spreadsheetId: string, sheetName: string, customPrompt: string)

  /** What the first half of an action does: send a request, or stop, with
      the alert it shows when it shows one. */
  datatype Dispatch<R> = Send(request: R) | Stop(alert: Option<string>)

  const SelectSheetFirst: string := "Please select a sheet first"

  /** Every state cell of the page that the model keeps. */
  datatype State = State(
    isConnected: bool,
    spreadsheets: seq<Spreadsheet>,
    selectedSpreadsheet: Option<Spreadsheet>,
    availableSheets: seq<Sheet>,
    selectedSheet: string,
    form: GenerationForm,
    errors: map<ErrorKey, string>,
    isGenerating: bool,
    isAnalyzing: bool,
    isModifying: bool,
    isProcessingPrompt: bool,
    existingTestCases: seq<JsonObject>,
    analysisResult: string,
    analysisType: string,
    modificationPrompt: string,
    modificationResult: Option<ModifyData>,
    customPrompt: string,
    promptResult: Option<ArrangeData>,
    generatedContent: GeneratedContent,
    generatedTestCases: seq<JsonObject>)

  class Page {
    var isConnected: bool
    var spreadsheets: seq<Spreadsheet>
    var selectedSpreadsheet: Option<Spreadsheet>
    var availableSheets: seq<Sheet>
    var selectedSheet: string
    var form: GenerationForm
    var errors: map<ErrorKey, string>
    var isGenerating: bool
    var isAnalyzing: bool
    var isModifying: bool
    var isProcessingPrompt: bool
    var existingTestCases: seq<JsonObject>
    var analysisResult: string
    var analysisType: string
    var modificationPrompt: string
    var modificationResult: Option<ModifyData>
    var customPrompt: string
    var promptResult: Option<ArrangeData>
    var generatedContent: GeneratedContent
    var generatedTestCases: seq<JsonObject>

    /** All cells at once, so that a method can say which ones it changes. */
    function Snapshot(): State
      reads this
    {
      State(isConnected, spreadsheets, selectedSpreadsheet, availableSheets, selectedSheet, form, errors,
        isGenerating, isAnalyzing, isModifying, isProcessingPrompt, existingTestCases, analysisResult,
        analysisType, modificationPrompt, modificationResult, customPrompt, promptResult,
        generatedContent, generatedTestCases)
    }

    function CurrentDeps(): Deps
      reads this
    {
      Deps(selectedSpreadsheet, selectedSheet, isConnected)
    }

    /** A sheet is selected only inside a selected spreadsheet. */
    predicate Valid()
      reads this
    {
      selectedSheet != "" ==> selectedSpreadsheet.Some?
    }

    /** The page's initial state; the mount effect then runs `CheckConnectionStatus`. */
    constructor ()
      ensures Valid()
      ensures Snapshot() == State(false, [], None, [], "", DefaultForm(), map[], false, false, false, false,
        [], "", "general", "", None, "", None, GeneratedContent([], [], []), [])
    {
      isConnected := false;
      spreadsheets := [];
      selectedSpreadsheet := None;
      availableSheets := [];
      selectedSheet := "";
      form := DefaultForm();
      errors := map[];
      isGenerating, isAnalyzing, isModifying, isProcessingPrompt := false, false, false, false;
      existingTestCases := [];
      analysisResult := "";
      analysisType := "general";
      modificationPrompt := "";
      modificationResult := None;
      customPrompt := "";
      promptResult := None;
      generatedContent := GeneratedContent([], [], []);
      generatedTestCases := [];
    }

    /** `checkConnectionStatus`: a readable 2xx body sets the connection flag
        and, when connected and a list is present, replaces the spreadsheet
        list. Failures change nothing. Returns the load effects this starts. */
    method CheckConnectionStatus(r: Response<StatusData>) returns (loads: Loads)
      requires Valid()
      modifies this
      ensures Valid()
      ensures r.Succeeded() ==> Snapshot() == old(Snapshot()).(
        isConnected := r.body.value.connected,
        spreadsheets := if r.body.value.connected && r.body.value.spreadsheets.Some?
          then r.body.value.spreadsheets.value else old(spreadsheets))
      ensures !r.Succeeded() ==> Snapshot() == old(Snapshot())
      ensures loads == LoadsDue(old(CurrentDeps()), CurrentDeps())
    {
      var before := CurrentDeps();
      if r.Succeeded() {
        var data := r.body.value;
        isConnected := data.connected;
        if data.connected && data.spreadsheets.Some? {
          spreadsheets := data.spreadsheets.value;
        }
      }
      loads := LoadsDue(before, CurrentDeps());
    }

    /** `loadAvailableSheets`: a readable 2xx body replaces the sheet list
        wholesale; failures change nothing. */
    method LoadAvailableSheets(r: Response<seq<Sheet>>)
      modifies this
      ensures Snapshot() == old(Snapshot()).(availableSheets := Refreshed(old(availableSheets), r))
    {
      if r.Succeeded() {
        availableSheets := r.body.value;
      }
    }

    /** `loadExistingTestCases`: a readable 2xx body replaces the test-case
        list wholesale; failures change nothing. */
    method LoadExistingTestCases(r: Response<seq<JsonObject>>)
      modifies this
      ensures Snapshot() == old(Snapshot()).(existingTestCases := Refreshed(old(existingTestCases), r))
    {
      if r.Succeeded() {
        existingTestCases := r.body.value;
      }
    }

    /** `handleInputChange`: only the named field changes, and only its error
        is cleared, and only when one was set. */
    method HandleInputChange(name: TextKey, value: string)
      modifies this
      ensures Snapshot() == old(Snapshot()).(form := WithText(old(form), name, value),
        errors := ClearError(old(errors), name))
    {
      form := WithText(form, name, value);
      errors := ClearError(errors, name);
    }

    /** The "Test Cases" checkbox. */
    method SetGenerateTestCases(checked: bool)
      modifies this
      ensures Snapshot() == old(Snapshot()).(form := old(form).(generateTestCases := checked))
    {
      form := form.(generateTestCases := checked);
    }

    /** The "Test Scenarios" checkbox. */
    method SetGenerateTestScenarios(checked: bool)
      modifies this
      ensures Snapshot() == old(Snapshot()).(form := old(form).(generateTestScenarios := checked))
    {
      form := form.(generateTestScenarios := checked);
    }

    /** The "Number of test cases" select. */
    method SetTestCasesCount(n: int)
      modifies this
      ensures Snapshot() == old(Snapshot()).(form := old(form).(testCasesCount := n))
    {
      form := form.(testCasesCount := n);
    }

    /** The "Number of scenarios" select. */
    method SetTestScenariosCount(n: int)
      modifies this
      ensures Snapshot() == old(Snapshot()).(form := old(form).(testScenariosCount := n))
    {
      form := form.(testScenariosCount := n);
    }

    /** The spreadsheet select's `onChange`: select the spreadsheet with that
        id (or none) and always reset the sheet. Test cases never load right
        after a spreadsheet change. */
    method SelectSpreadsheet(id: string) returns (loads: Loads)
      modifies this
      ensures Valid()
      ensures Snapshot() == old(Snapshot()).(selectedSpreadsheet := FindSpreadsheet(old(spreadsheets), id),
        selectedSheet := "")
      ensures loads == LoadsDue(old(CurrentDeps()), CurrentDeps())
      ensures !loads.testCases
    {
      var before := CurrentDeps();
      selectedSpreadsheet := FindSpreadsheet(spreadsheets, id);
      selectedSheet := "";
      loads := LoadsDue(before, CurrentDeps());
    }

    /** The sheet select's `onChange`. The select is disabled while no
        spreadsheet is selected, so no event arrives then. */
    method SelectSheet(name: string) returns (loads: Loads)
      requires Valid()
      modifies this
      ensures Valid()
      ensures old(selectedSpreadsheet).Some? ==> Snapshot() == old(Snapshot()).(selectedSheet := name)
      ensures old(selectedSpreadsheet).None? ==> Snapshot() == old(Snapshot())
      ensures loads == LoadsDue(old(CurrentDeps()), CurrentDeps())
      ensures !loads.sheets
    {
      var before := CurrentDeps();
      if selectedSpreadsheet.Some? {
        selectedSheet := name;
      }
      loads := LoadsDue(before, CurrentDeps());
    }

    /** The analysis-type select. */
    method SetAnalysisType(t: string)
      modifies this
      ensures Snapshot() == old(Snapshot()).(analysisType := t)
    {
      analysisType := t;
    }

    /** The modification textarea and its quick-prompt buttons. */
    method SetModificationPrompt(text: string)
      modifies this
      ensures Snapshot() == old(Snapshot()).(modificationPrompt := text)
    {
      modificationPrompt := text;
    }

    /** The custom-prompt textarea and its suggestion buttons. */
    method SetCustomPrompt(text: string)
      modifies this
      ensures Snapshot() == old(Snapshot()).(customPrompt := text)
    {
      customPrompt := text;
    }

    /** `generateTestCases` up to its request: a failed validation stores
        exactly its errors and sends nothing (the in-flight flag untouched);
        otherwise the flag is set, the errors are cleared and the form goes out. */
    method BeginGenerate() returns (d: Dispatch<GenerateRequest>)
      requires Valid()
      modifies this
      ensures Valid()
      ensures ValidateForm(old(form), old(selectedSpreadsheet)) != map[] ==>
        d == Stop(None) && Snapshot() == old(Snapshot()).(errors := ValidateForm(old(form), old(selectedSpreadsheet)))
      ensures ValidateForm(old(form), old(selectedSpreadsheet)) == map[] ==>
        old(selectedSpreadsheet).Some? &&
        d == Send(GenerateRequest(form.moduleName, form.summary, form.acceptanceCriteria, old(selectedSpreadsheet).value.id,
          form.generateTestCases, form.generateTestScenarios, form.testCasesCount, form.testScenariosCount)) &&
        Snapshot() == old(Snapshot()).(isGenerating := true, errors := map[])
    {
      var validation := ValidateForm(form, selectedSpreadsheet);
      if validation != map[] {
        errors := validation;
        return Stop(None);
      }
      assert !Fails(form, selectedSpreadsheet, SpreadsheetSelection);
      isGenerating := true;
      errors := map[];
      d := Send(GenerateRequest(form.moduleName, form.summary, form.acceptanceCriteria, selectedSpreadsheet.value.id,
        form.generateTestCases, form.generateTestScenarios, form.testCasesCount, form.testScenariosCount));
    }

    /** `generateTestCases` from its response on. On success: store the
        generated content, reload the sheet list (outcome `sheets`), reset the
        form to its defaults and report the counts. On failure: only the alert;
        the form is left for correction. Either way the flag ends false. */
    method FinishGenerate(r: Response<GenerateData>, sheets: Response<seq<Sheet>>) returns (alert: string)
      modifies this
      ensures !isGenerating
      ensures r.Succeeded() ==>
        var data := r.body.value;
        Snapshot() == old(Snapshot()).(
          generatedContent := GeneratedContent(data.testCases, data.testScenarios, data.createdSheets),
          generatedTestCases := data.testCases,
          availableSheets := Refreshed(old(availableSheets), sheets),
          form := DefaultForm(),
          isGenerating := false)
        && alert == SuccessMessage(|data.testCases|, |data.testScenarios|)
      ensures !r.Succeeded() ==>
        Snapshot() == old(Snapshot()).(isGenerating := false)
        && alert == "Failed to generate content: " + CaughtMessage(r, "Failed to generate content")
    {
      if r.Succeeded() {
        var data := r.body.value;
        generatedContent := GeneratedContent(data.testCases, data.testScenarios, data.createdSheets);
        generatedTestCases := data.testCases;
        LoadAvailableSheets(sheets);
        form := DefaultForm();
        alert := SuccessMessage(|data.testCases|, |data.testScenarios|);
      } else {
        alert := "Failed to generate content: " + CaughtMessage(r, "Failed to generate content");
      }
      isGenerating := false;
    }

    /** `analyzeTestCases` up to its request: without a sheet only the alert. */
    method BeginAnalyze() returns (d: Dispatch<AnalyzeRequest>)
      requires Valid()
      modifies this
      ensures Valid()
      ensures old(selectedSheet) == "" ==> d == Stop(Some(SelectSheetFirst)) && Snapshot() == old(Snapshot())
      ensures old(selectedSheet) != "" ==>
        d == Send(AnalyzeRequest(old(selectedSpreadsheet).value.id, old(selectedSheet), old(analysisType)))
        && Snapshot() == old(Snapshot()).(isAnalyzing := true)
    {
      if selectedSheet == "" {
        return Stop(Some(SelectSheetFirst));
      }
      isAnalyzing := true;
      d := Send(AnalyzeRequest(selectedSpreadsheet.value.id, selectedSheet, analysisType));
    }

    /** `analyzeTestCases` from its response on: store the analysis text, or
        alert and keep the previous one. The flag ends false. */
    method FinishAnalyze(r: Response<string>) returns (alert: Option<string>)
      modifies this
      ensures r.Succeeded() ==>
        Snapshot() == old(Snapshot()).(analysisResult := r.body.value, isAnalyzing := false) && alert == None
      ensures !r.Succeeded() ==>
        Snapshot() == old(Snapshot()).(isAnalyzing := false)
        && alert == Some("Failed to analyze test cases: " + CaughtMessage(r, "Failed to analyze test cases"))
    {
      if r.Succeeded() {
        analysisResult := r.body.value;
        alert := None;
      } else {
        alert := Some("Failed to analyze test cases: " + CaughtMessage(r, "Failed to analyze test cases"));
      }
      isAnalyzing := false;
    }

    /** `modifyTestCases` up to its request: without a sheet, or with a blank
        prompt, only the alert. */
    method BeginModify() returns (d: Dispatch<ModifyRequest>)
      requires Valid()
      modifies this
      ensures Valid()
      ensures old(selectedSheet) == "" ==> d == Stop(Some(SelectSheetFirst)) && Snapshot() == old(Snapshot())
      ensures old(selectedSheet) != "" && IsBlank(old(modificationPrompt)) ==>
        d == Stop(Some("Please enter a modification prompt")) && Snapshot() == old(Snapshot())
      ensures old(selectedSheet) != "" && !IsBlank(old(modificationPrompt)) ==>
        d == Send(ModifyRequest(old(selectedSpreadsheet).value.id, old(selectedSheet), old(modificationPrompt)))
        && Snapshot() == old(Snapshot()).(isModifying := true)
    {
      if selectedSheet == "" {
        return Stop(Some(SelectSheetFirst));
      }
      if TrimmedIsEmpty(modificationPrompt) {
        return Stop(Some("Please enter a modification prompt"));
      }
      isModifying := true;
      d := Send(ModifyRequest(selectedSpreadsheet.value.id, selectedSheet, modificationPrompt));
    }

    /** `modifyTestCases` from its response on. On success: store the result,
        clear the prompt, reload the test cases (outcome `reload`) and report
        the summary. On failure: only the alert. The flag ends false. */
    method FinishModify(r: Response<ModifyData>, reload: Response<seq<JsonObject>>) returns (alert: string)
      modifies this
      ensures r.Succeeded() ==>
        Snapshot() == old(Snapshot()).(
          modificationResult := Some(r.body.value),
          modificationPrompt := "",
          existingTestCases := Refreshed(old(existingTestCases), reload),
          isModifying := false)
        && alert == "Successfully modified test cases: " + r.body.value.summary
      ensures !r.Succeeded() ==>
        Snapshot() == old(Snapshot()).(isModifying := false)
        && alert == "Failed to modify test cases: " + CaughtMessage(r, "Failed to modify test cases")
    {
      if r.Succeeded() {
        var data := r.body.value;
        modificationResult := Some(data);
        modificationPrompt := "";
        // `await loadExistingTestCases()`, with the effect `LoadExistingTestCases` states
        existingTestCases := Refreshed(existingTestCases, reload);
        alert := "Successfully modified test cases: " + data.summary;
      } else {
        alert := "Failed to modify test cases: " + CaughtMessage(r, "Failed to modify test cases");
      }
      isModifying := false;
    }

    /** `processCustomPrompt` up to its request: without a sheet, or with a
        blank prompt, only the alert; otherwise the flag is set and the
        previous arrangement result is cleared before sending. */
    method BeginCustomPrompt() returns (d: Dispatch<PromptRequest>)
      requires Valid()
      modifies this
      ensures Valid()
      ensures d == if old(selectedSheet) == "" then Stop(Some(SelectSheetFirst))
        else if IsBlank(old(customPrompt)) then Stop(Some("Please enter a custom prompt"))
        else Send(PromptRequest(old(selectedSpreadsheet).value.id, old(selectedSheet), old(customPrompt)))
      ensures d.Stop? ==> Snapshot() == old(Snapshot())
      ensures d.Send? ==> Snapshot() == old(Snapshot()).(isProcessingPrompt := true, promptResult := None)
    {
      if selectedSheet == "" {
        d := Stop(Some(SelectSheetFirst));
      } else if TrimmedIsEmpty(customPrompt) {
        d := Stop(Some("Please enter a custom prompt"));
      } else {
        ghost var s0 := Snapshot();
        isProcessingPrompt := true;
        assert Snapshot() == s0.(isProcessingPrompt := true);
        ghost var s1 := Snapshot();
        promptResult := None;
        assert Snapshot() == s1.(promptResult := None);
        d := Send(PromptRequest(selectedSpreadsheet.value.id, selectedSheet, customPrompt));
      }
    }

    /** `processCustomPrompt` from its response on. On success: store the
        arrangement, reload the test cases (outcome `reload`) and report the
        summary. On failure: only the alert. The flag ends false. */
    method FinishCustomPrompt(r: Response<ArrangeData>, reload: Response<seq<JsonObject>>) returns (alert: string)
      modifies this
      ensures r.Succeeded() ==>
        Snapshot() == old(Snapshot()).(
          promptResult := Some(r.body.value),
          existingTestCases := Refreshed(old(existingTestCases), reload),
          isProcessingPrompt := false)
        && alert == "Successfully arranged test cases: " + r.body.value.summary
      ensures !r.Succeeded() ==>
        Snapshot() == old(Snapshot()).(isProcessingPrompt := false)
        && alert == "Failed to process custom prompt: " + CaughtMessage(r, "Failed to process custom prompt")
    {
      if r.Succeeded() {
        var data := r.body.value;
        promptResult := Some(data);
        // `await loadExistingTestCases()`, with the effect `LoadExistingTestCases` states
        existingTestCases := Refreshed(existingTestCases, reload);
        alert := "Successfully arranged test cases: " + data.summary;
      } else {
        alert := "Failed to process custom prompt: " + CaughtMessage(r, "Failed to process custom prompt");
      }
      isProcessingPrompt := false;
    }
  }

  /** Picking spreadsheet A, a sheet in it, then spreadsheet B leaves no sheet
      selected; with nothing selected, generation is stopped with the
      spreadsheet error and nothing is sent. */
  method SelectionScenario(a: Spreadsheet, b: Spreadsheet, sheet: string)
    requires a.id != b.id
  {
    var page := new Page();
    var loads := page.CheckConnectionStatus(Ok(Parsed(StatusData(true, Some([a, b])))));
    assert page.isConnected && page.spreadsheets == [a, b] && !loads.sheets;
    var d := page.BeginGenerate();
    assert d == Stop(None) && SpreadsheetSelection in page.errors && !page.isGenerating;
    loads := page.SelectSpreadsheet(a.id);
    assert page.selectedSpreadsheet == Some(a) && loads.sheets;
    loads := page.SelectSheet(sheet);
    assert page.selectedSheet == sheet;
    loads := page.SelectSpreadsheet(b.id);
    assert page.selectedSpreadsheet == Some(b) && page.selectedSheet == "" && loads.sheets && !loads.testCases;
  }
}
