/** The records of the org-chart editor: the organisation tree the user edits,
    the analysis report that arrives in fragments, and the dossier requests
    kept in the browser's key-value store. */
module Types {

  /** A value that may be absent: an optional property, a missing storage key,
      or a nullable piece of state. */
  datatype Option<+T> = None | Some(value: T) {

    /** The value, or the given default when absent. */
    function GetOr(default: T): T {
      match this
      case Some(v) => v
      case None => default
    }
  }

  /** A key performance indicator attached to a node. */
  datatype Kpi = Kpi(name: string, currentValue: real, targetValue: real, unit: string)

  /** A node of the organisation tree. `isUserPosition` is an optional
      property: absent on nodes built elsewhere, always set by the two
      operations this model covers. */
  datatype OrgNode = OrgNode(
    id: string,
    name: string,
    role: string,
    functions: string,
    kpis: seq<Kpi>,
    children: seq<OrgNode>,
    isUserPosition: Option<bool>)

  /** The screen the application shows; exactly one is active at a time. */
  datatype AppState = Landing | Editing | Analyzing | ViewingReport | Pricing | AdminPanel

  /** The properties of an analysis report, each of which a fragment may carry. */
  datatype Field =
    | ExecutiveSummary
    | AgentCritique
    | CurrentBottlenecks
    | AiFirstVision
    | SuggestedAgents
    | ProposedOrgChart
    | NewWorkflowDescription
    | RoiEstimate
    | CareerInnovationStrategy
    | UserSpecificStrategy
    | FullDossier
    | CrownGems

  /** The value of one report property. Text properties carry their string;
      lists and nested records (agents, the proposed chart, dossier sections,
      crown gems) are carried opaquely as their serialised form; `Null` is a
      property that is present but null. */
  datatype Value = Text(text: string) | Structured(serialised: string) | Null

  /** A partial analysis report: the properties received so far. */
  type Report = map<Field, Value>

  /** The lifecycle of a dossier request. */
  datatype RequestStatus = PendingPayment | AwaitingApproval | Approved

  /** A request to unlock the full dossier of a report. The optional receipt
      image is never set by the code modelled here. */
  datatype DossierRequest = DossierRequest(
    id: string,
    accessCode: string,
    timestamp: int,
    userName: string,
    userEmail: string,
    companyName: string,
    report: Report,
    receiptImage: Option<string>,
    status: RequestStatus)
}
