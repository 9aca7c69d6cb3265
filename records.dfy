/** The one entity of the portal: a row of the patent table loaded from the CSV file. */
module Records {
  import opened Wrappers

  /** One patent application; a cell pandas loads as NaN is None. */
  datatype PatentRecord = PatentRecord(
    applicationNumber: Option<string>,
    title: Option<string>,
    abstractText: Option<string>,
    agentName: Option<string>,
    applicationDate: Option<string>,
    classification: Option<string>,
    priorityCountry: Option<string>,
    priorityNumber: Option<string>,
    priorityDate: Option<string>,
    applicationType: Option<string>)

  /** The table's column headers, in the order of the CSV file. */
  datatype Column =
    | ApplicationNumber     // "Application Number"
    | Title                 // "Title"
    | AbstractText          // "Abstract"
    | AgentName             // "Agent Name"
    | ApplicationDate       // "Application Date"
    | Classification        // "Classification"
    | CountryNamePriority   // "Country Name (Priority)"
    | PriorityNumber        // "Priority Number"
    | PriorityDate          // "Priority Date"
    | ApplicationTypeId     // "Application Type (ID)"

  /** `row[column]`. */
  function Cell(r: PatentRecord, c: Column): Option<string>
  {
    match c
    case ApplicationNumber => r.applicationNumber
    case Title => r.title
    case AbstractText => r.abstractText
    case AgentName => r.agentName
    case ApplicationDate => r.applicationDate
    case Classification => r.classification
    case CountryNamePriority => r.priorityCountry
    case PriorityNumber => r.priorityNumber
    case PriorityDate => r.priorityDate
    case ApplicationTypeId => r.applicationType
  }
}
