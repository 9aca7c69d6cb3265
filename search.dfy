/**
 * The search page of the portal: six search boxes, each guarding one
 * `str.contains` selection of the loaded table, run one after another, and
 * the "Matches Found" count of what is left.
 */
module Search {
  import opened Wrappers
  import opened Text
  import opened Records
  import opened Filters

  /** The six search boxes; an untouched box holds "". */
  datatype Queries = Queries(
    appNumber: string,       // "Application #"
    title: string,           // "Title Keyword"
    agent: string,           // "Agent Name"
    country: string,         // "Priority Country"
    appType: string,         // "Application Type"
    classification: string)  // "Classification"

  const NoQueries := Queries("", "", "", "", "", "")

  // The six filter lines, in the order the page runs them.
  const AppNumberFilter := Criterion(ApplicationNumber, true, true)
  const TitleFilter := Criterion(Title, true, false)
  const AgentFilter := Criterion(AgentName, true, false)
  const CountryFilter := Criterion(CountryNamePriority, true, false)
  const TypeFilter := Criterion(ApplicationTypeId, false, true)
  const ClassFilter := Criterion(Classification, true, false)

  /** The chain of filter lines for the given search boxes. */
  function Steps(q: Queries): (steps: seq<Step>)
    ensures |steps| == 6
    ensures forall i :: 0 <= i < |steps| ==> steps[i].query == QueryFor(q, steps[i].criterion.column)
    ensures forall i :: 0 <= i < |steps| ==> (steps[i].criterion.ignoreCase <==> steps[i].criterion.column != ApplicationTypeId)
    ensures forall i :: 0 <= i < |steps| ==>
              (steps[i].criterion.missingAsNan <==> steps[i].criterion.column == ApplicationNumber || steps[i].criterion.column == ApplicationTypeId)
  {
    [Step(AppNumberFilter, q.appNumber)] + [Step(TitleFilter, q.title)] + [Step(AgentFilter, q.agent)]
    + [Step(CountryFilter, q.country)] + [Step(TypeFilter, q.appType)] + [Step(ClassFilter, q.classification)]
  }

  /** The search box that reads `column`; the table's other columns have none. */
  function QueryFor(q: Queries, column: Column): string
  {
    match column
    case ApplicationNumber => q.appNumber
    case Title => q.title
    case AgentName => q.agent
    case CountryNamePriority => q.country
    case ApplicationTypeId => q.appType
    case Classification => q.classification
    case _ => ""
  }

  /** `str(cell)` as `.astype(str)` renders it: a missing cell becomes "nan". */
  function AsText(cell: Option<string>): string
  {
    match cell
    case Some(s) => s
    case None => "nan"
  }

  /** A text cell that is present and contains the query, ignoring case. */
  predicate TextCellMatches(cell: Option<string>, query: string)
  {
    cell.Some? && ContainsIgnoringCase(cell.value, query)
  }

  /**
   * The search, stated directly on the fields of a row: every filled box
   * must match its column. The application number is compared as text
   * ignoring case, the application type as text with case, and the four
   * text columns ignoring case with a missing cell never matching.
   */
  predicate Selected(q: Queries, r: PatentRecord)
  {
    && (q.appNumber == "" || ContainsIgnoringCase(AsText(r.applicationNumber), q.appNumber))
    && (q.title == "" || TextCellMatches(r.title, q.title))
    && (q.agent == "" || TextCellMatches(r.agentName, q.agent))
    && (q.country == "" || TextCellMatches(r.priorityCountry, q.country))
    && (q.appType == "" || Contains(AsText(r.applicationType), q.appType))
    && (q.classification == "" || TextCellMatches(r.classification, q.classification))
  }

  lemma AppNumberLine(query: string, r: PatentRecord)
    ensures Keeps(Step(AppNumberFilter, query), r)
            <==> (query == "" || ContainsIgnoringCase(AsText(r.applicationNumber), query))
  {
  }

  lemma TypeLine(query: string, r: PatentRecord)
    ensures Keeps(Step(TypeFilter, query), r) <==> (query == "" || Contains(AsText(r.applicationType), query))
  {
  }

  lemma TextLine(c: Criterion, query: string, r: PatentRecord)
    requires c.ignoreCase && !c.missingAsNan
    ensures Keeps(Step(c, query), r) <==> (query == "" || TextCellMatches(Cell(r, c.column), query))
  {
  }

  /**
   * The type line, written without `case=False`, is narrower than the same
   * line ignoring case: it keeps no row the caseless line would drop.
   */
  lemma TypeLineNarrowerThanCaseless(query: string, r: PatentRecord)
    ensures Keeps(Step(TypeFilter, query), r) ==> Keeps(Step(TypeFilter.(ignoreCase := true), query), r)
  {
    if query != "" && Keeps(Step(TypeFilter, query), r) {
      ContainsThenContainsIgnoringCase(AsText(r.applicationType), query);
    }
  }

  /** The chain's steps keep exactly the rows the field-level statement selects. */
  lemma StepsMeanSelected(q: Queries, r: PatentRecord)
    ensures KeepsAll(Steps(q), r) <==> Selected(q, r)
  {
    StepsKeepEach(q, r);
    AppNumberLine(q.appNumber, r);
    TextLine(TitleFilter, q.title, r);
    TextLine(AgentFilter, q.agent, r);
    TextLine(CountryFilter, q.country, r);
    TypeLine(q.appType, r);
    TextLine(ClassFilter, q.classification, r);
  }

  /**
   * The filtering logic of the search page: start from the loaded table and
   * narrow it once per filled search box; report how many rows are left.
   */
  method FilterRecords(df: seq<PatentRecord>, q: Queries) returns (filtered: seq<PatentRecord>, matchesFound: nat)
    ensures filtered == Where(df, Steps(q))
    ensures forall r :: r in filtered <==> r in df && Selected(q, r)
    ensures forall r :: multiset(filtered)[r] == if Selected(q, r) then multiset(df)[r] else 0
    ensures IsSubsequence(filtered, df)
    ensures q == NoQueries ==> filtered == df
    ensures matchesFound == |filtered| <= |df|
  {
    filtered := df;
    filtered := FilterLine(filtered, Step(AppNumberFilter, q.appNumber));
    filtered := FilterLine(filtered, Step(TitleFilter, q.title));
    filtered := FilterLine(filtered, Step(AgentFilter, q.agent));
    filtered := FilterLine(filtered, Step(CountryFilter, q.country));
    filtered := FilterLine(filtered, Step(TypeFilter, q.appType));
    filtered := FilterLine(filtered, Step(ClassFilter, q.classification));
    SixLines(df, Step(AppNumberFilter, q.appNumber), Step(TitleFilter, q.title), Step(AgentFilter, q.agent),
      Step(CountryFilter, q.country), Step(TypeFilter, q.appType), Step(ClassFilter, q.classification));
    matchesFound := |filtered|;
    SearchMeaning(df, q);
    WhereIsSubsequence(df, Steps(q));
  }

  /** What the selection by the six lines contains, in terms of the rows' fields. */
  lemma SearchMeaning(df: seq<PatentRecord>, q: Queries)
    ensures forall r :: r in Where(df, Steps(q)) <==> r in df && Selected(q, r)
    ensures forall r :: multiset(Where(df, Steps(q)))[r] == if Selected(q, r) then multiset(df)[r] else 0
    ensures q == NoQueries ==> Where(df, Steps(q)) == df
  {
    forall r ensures KeepsAll(Steps(q), r) <==> Selected(q, r) {
      StepsMeanSelected(q, r);
    }
    if q == NoQueries {
      InactiveChainKeepsAll(df, Steps(q));
      ChainIsOneSelection(df, Steps(q));
    }
  }

  /** The order of the six lines does not matter: any reordering keeps the same rows. */
  lemma SearchOrderIndependent(df: seq<PatentRecord>, q: Queries, order: seq<Step>)
    requires forall st :: st in order <==> st in Steps(q)
    ensures ApplySteps(df, order) == Where(df, Steps(q))
  {
    ChainOrderIndependent(df, order, Steps(q));
    ChainIsOneSelection(df, Steps(q));
  }

  /** Each filled text-column box drops every row whose cell in that column is missing. */
  lemma MissingTextCellNeverKept(df: seq<PatentRecord>, q: Queries, r: PatentRecord)
    requires r in Where(df, Steps(q))
    ensures q.title != "" ==> r.title.Some?
    ensures q.agent != "" ==> r.agentName.Some?
    ensures q.country != "" ==> r.priorityCountry.Some?
    ensures q.classification != "" ==> r.classification.Some?
  {
    StepsMeanSelected(q, r);
  }

  /**
   * As written, `.astype(str)` turns a missing application number or type
   * into the text "nan" before matching, so `na=False` never applies to
   * those two columns: the query "nan" keeps every row whose application
   * number is missing, and so does any query that occurs in "nan" ignoring
   * case ("a", "N", "an", ...).
   */
  lemma MissingNumberMatchesNan(df: seq<PatentRecord>, r: PatentRecord, query: string)
    requires r in df && r.applicationNumber.None?
    requires ContainsIgnoringCase("nan", query)
    ensures r in Where(df, Steps(Queries(query, "", "", "", "", "")))
  {
    StepsMeanSelected(Queries(query, "", "", "", "", ""), r);
  }

  /** The same for the case-sensitive application-type box and any query that occurs in "nan". */
  lemma MissingTypeMatchesNan(df: seq<PatentRecord>, r: PatentRecord, query: string)
    requires r in df && r.applicationType.None?
    requires Contains("nan", query)
    ensures r in Where(df, Steps(Queries("", "", "", "", query, "")))
  {
    StepsMeanSelected(Queries("", "", "", "", query, ""), r);
  }

  /** The query "nan" is one such query for both columns. */
  lemma NanQueryMatchesNan()
    ensures ContainsIgnoringCase("nan", "nan") && Contains("nan", "nan")
  {
    SelfContained("nan");
    SelfContained(Lower("nan"));
  }

  lemma SelfContained(t: string)
    ensures Contains(t, t)
  {
    assert t[..|t|] == t;
  }

  /**
   * The evidently intended filter lines: the same six, with missing cells
   * left missing, so that `na=False` drops them in every column.
   */
  function IntendedSteps(q: Queries): seq<Step>
  {
    [Step(AppNumberFilter.(missingAsNan := false), q.appNumber)] + [Step(TitleFilter, q.title)]
    + [Step(AgentFilter, q.agent)] + [Step(CountryFilter, q.country)]
    + [Step(TypeFilter.(missingAsNan := false), q.appType)] + [Step(ClassFilter, q.classification)]
  }

  lemma IntendedKeepsEach(q: Queries, r: PatentRecord)
    ensures KeepsAll(IntendedSteps(q), r)
            <==> (Keeps(Step(AppNumberFilter.(missingAsNan := false), q.appNumber), r) && Keeps(Step(TitleFilter, q.title), r)
                  && Keeps(Step(AgentFilter, q.agent), r) && Keeps(Step(CountryFilter, q.country), r)
                  && Keeps(Step(TypeFilter.(missingAsNan := false), q.appType), r) && Keeps(Step(ClassFilter, q.classification), r))
  {
    KeepsAllOfSix(Step(AppNumberFilter.(missingAsNan := false), q.appNumber), Step(TitleFilter, q.title),
      Step(AgentFilter, q.agent), Step(CountryFilter, q.country), Step(TypeFilter.(missingAsNan := false), q.appType),
      Step(ClassFilter, q.classification), r);
  }

  lemma StepsKeepEach(q: Queries, r: PatentRecord)
    ensures KeepsAll(Steps(q), r)
            <==> (Keeps(Step(AppNumberFilter, q.appNumber), r) && Keeps(Step(TitleFilter, q.title), r)
                  && Keeps(Step(AgentFilter, q.agent), r) && Keeps(Step(CountryFilter, q.country), r)
                  && Keeps(Step(TypeFilter, q.appType), r) && Keeps(Step(ClassFilter, q.classification), r))
  {
    KeepsAllOfSix(Step(AppNumberFilter, q.appNumber), Step(TitleFilter, q.title), Step(AgentFilter, q.agent),
      Step(CountryFilter, q.country), Step(TypeFilter, q.appType), Step(ClassFilter, q.classification), r);
  }

  /** With the intended lines, every filled box drops every row whose cell in its column is missing. */
  lemma IntendedMissingNeverKept(df: seq<PatentRecord>, q: Queries, r: PatentRecord)
    requires r in Where(df, IntendedSteps(q))
    ensures q.appNumber != "" ==> r.applicationNumber.Some?
    ensures q.title != "" ==> r.title.Some?
    ensures q.agent != "" ==> r.agentName.Some?
    ensures q.country != "" ==> r.priorityCountry.Some?
    ensures q.appType != "" ==> r.applicationType.Some?
    ensures q.classification != "" ==> r.classification.Some?
  {
    IntendedNeedsCells(q, r);
  }

  lemma IntendedNeedsCells(q: Queries, r: PatentRecord)
    requires KeepsAll(IntendedSteps(q), r)
    ensures q.appNumber != "" ==> r.applicationNumber.Some?
    ensures q.title != "" ==> r.title.Some?
    ensures q.agent != "" ==> r.agentName.Some?
    ensures q.country != "" ==> r.priorityCountry.Some?
    ensures q.appType != "" ==> r.applicationType.Some?
    ensures q.classification != "" ==> r.classification.Some?
  {
    IntendedKeepsEach(q, r);
    if q.appNumber != "" { KeptRowHasCell(Step(AppNumberFilter.(missingAsNan := false), q.appNumber), r); }
    if q.title != "" { KeptRowHasCell(Step(TitleFilter, q.title), r); }
    if q.agent != "" { KeptRowHasCell(Step(AgentFilter, q.agent), r); }
    if q.country != "" { KeptRowHasCell(Step(CountryFilter, q.country), r); }
    if q.appType != "" { KeptRowHasCell(Step(TypeFilter.(missingAsNan := false), q.appType), r); }
    if q.classification != "" { KeptRowHasCell(Step(ClassFilter, q.classification), r); }
  }

  /** The intended lines differ from the written ones only on rows with a missing number or type. */
  lemma IntendedAgreesOnPresentCells(q: Queries, r: PatentRecord)
    requires r.applicationNumber.Some? && r.applicationType.Some?
    ensures KeepsAll(IntendedSteps(q), r) <==> KeepsAll(Steps(q), r)
  {
    IntendedKeepsEach(q, r);
    StepsKeepEach(q, r);
    PresentCellSameMask(AppNumberFilter, q.appNumber, r);
    PresentCellSameMask(TypeFilter, q.appType, r);
  }
}
