/** The request checks of the performance microservice's HTTP handlers. The
    algorithm types are the values of its enum, passed in. */
module PerformanceApi {
  import opened Wrappers
  import opened Http
  import opened Text

  /** The fields of a stored performance report the handlers look at. */
  datatype Report = Report(id: int, algorithmType: string, title: string)

  // ---- POST /simulations ----

  /** The simulation the handler starts: algorithm type, package count and
      the caller's user id, if any. */
  datatype SimulationCall = SimulationCall(algorithmType: string, numberOfPackages: int, userId: Option<int>)

  datatype SimulationRejection = MissingParameters | InvalidAlgorithmType | PackagesOutOfRange

  const MaxPackages := 1000

  function SimulationRejectionMessage(r: SimulationRejection, algorithmTypes: seq<string>): string
  {
    match r
    case MissingParameters => "Nedostaju obavezni parametri: algorithmType i numberOfPackages"
    case InvalidAlgorithmType => "Neva\U{017E}e\U{0107}i tip algoritma. Dozvoljeni tipovi: " + Join(algorithmTypes, ", ")
    case PackagesOutOfRange => "Broj paketa mora biti izme\U{0111}u 1 i 1000"
  }

  /** `runSimulation`'s checks, in their order. */
  function ValidateRunSimulation(algorithmType: Option<string>, numberOfPackages: Option<int>,
                                 userId: Option<int>, algorithmTypes: seq<string>)
    : (r: Reply<SimulationRejection, SimulationCall>)
    ensures r.Reject? ==> r.status == 400
    ensures r.Reject? && r.reason == MissingParameters <==>
      !Truthy(algorithmType) || !TruthyNumber(numberOfPackages)
    ensures r.Reject? && r.reason == InvalidAlgorithmType <==>
      Truthy(algorithmType) && TruthyNumber(numberOfPackages) && algorithmType.value !in algorithmTypes
    ensures r.Reject? && r.reason == PackagesOutOfRange <==>
      Truthy(algorithmType) && TruthyNumber(numberOfPackages) && algorithmType.value in algorithmTypes
      && (numberOfPackages.value <= 0 || numberOfPackages.value > MaxPackages)
    ensures r.Pass? ==> r.status == 201 && r.value == SimulationCall(algorithmType.value, numberOfPackages.value, userId)
    ensures r.Pass? ==> r.value.algorithmType in algorithmTypes && 1 <= r.value.numberOfPackages <= MaxPackages
  {
    if !Truthy(algorithmType) || !TruthyNumber(numberOfPackages) then Reject(400, MissingParameters)
    else if algorithmType.value !in algorithmTypes then Reject(400, InvalidAlgorithmType)
    else if numberOfPackages.value <= 0 || numberOfPackages.value > MaxPackages then Reject(400, PackagesOutOfRange)
    else Pass(201, SimulationCall(algorithmType.value, numberOfPackages.value, userId))
  }

  // ---- GET /reports/:id ----

  datatype LookupRejection = InvalidId | NotFound(id: int)

  /** The repository's `findOne({ where: { id } })`: the first report with that id. */
  function FindReport(reports: seq<Report>, id: int): (r: Option<Report>)
    ensures r.None? <==> forall i :: 0 <= i < |reports| ==> reports[i].id != id
    ensures r.Some? ==> r.value in reports && r.value.id == id
  {
    if reports == [] then None
    else if reports[0].id == id then Some(reports[0])
    else FindReport(reports[1..], id)
  }

  /** `getReportById`: `id` is what `parseInt` made of the path parameter
      (None for NaN). */
  function GetReportById(id: Option<int>, reports: seq<Report>): (r: Reply<LookupRejection, Report>)
    ensures r == Reject(400, InvalidId) <==> id.None?
    ensures r.Reject? && r.status == 404 <==>
      id.Some? && forall i :: 0 <= i < |reports| ==> reports[i].id != id.value
    ensures r.Reject? && r.status == 404 ==> r.reason == NotFound(id.value)
    ensures r.Pass? ==> r.status == 200 && id.Some? && r.value in reports && r.value.id == id.value
  {
    if id.None? then Reject(400, InvalidId)
    else match FindReport(reports, id.value)
      case None => Reject(404, NotFound(id.value))
      case Some(report) => Pass(200, report)
  }

  // ---- GET /reports/algorithm/:algorithmType ----

  /** `getReportsByAlgorithmType`: an unknown type is refused, a known one
      is passed on to the service. */
  function ValidateReportsByAlgorithmType(algorithmType: string, algorithmTypes: seq<string>)
    : (r: Reply<SimulationRejection, string>)
    ensures r.Reject? <==> algorithmType !in algorithmTypes
    ensures r.Reject? ==> r == Reject(400, InvalidAlgorithmType)
    ensures r.Pass? ==> r == Pass(200, algorithmType)
  {
    if algorithmType !in algorithmTypes then Reject(400, InvalidAlgorithmType) else Pass(200, algorithmType)
  }

  // ---- GET /reports/:id/pdf ----

  /** The report whose PDF is sent, and the attachment's file name. */
  datatype Download = Download(report: Report, filename: string)

  const FilePrefix := "performance-report-"

  function ReportFileName(id: int): string
  {
    FilePrefix + IntToString(id) + ".pdf"
  }

  /** The `Content-Disposition` header of the download. */
  function ContentDisposition(id: int): string
  {
    "attachment; filename=\"" + ReportFileName(id) + "\""
  }

  /** The file name holds the report id in decimal between the prefix and
      the `.pdf` extension, so distinct reports download under distinct names. */
  lemma ReportFileNameFields(id: nat)
    ensures var f := ReportFileName(id);
      && |f| == |FilePrefix| + |NatToString(id)| + 4
      && f[..|FilePrefix|] == FilePrefix
      && f[|f| - 4..] == ".pdf"
      && AllDigits(f[|FilePrefix|..|f| - 4])
      && ParseNat(f[|FilePrefix|..|f| - 4]) == id
  {
    var t := NatToString(id);
    var f := ReportFileName(id);
    assert f == FilePrefix + (t + ".pdf");
    assert f[|FilePrefix|..|f| - 4] == t;
    ParseNatToString(id);
  }

  lemma ReportFileNameInjective(a: int, b: int)
    requires ReportFileName(a) == ReportFileName(b)
    ensures a == b
  {
    var fa, fb := ReportFileName(a), ReportFileName(b);
    var ta, tb := IntToString(a), IntToString(b);
    assert fa == FilePrefix + (ta + ".pdf");
    assert fb == FilePrefix + (tb + ".pdf");
    assert fa[|FilePrefix|..|fa| - 4] == ta;
    assert fb[|FilePrefix|..|fb| - 4] == tb;
    IntToStringInjective(a, b);
  }

  /** `downloadReportPDF`: the same checks as `getReportById`, then the PDF
      of the report under its file name. */
  function DownloadReportPdf(id: Option<int>, reports: seq<Report>): (r: Reply<LookupRejection, Download>)
    ensures r == Reject(400, InvalidId) <==> id.None?
    ensures r.Reject? && r.status == 404 <==>
      id.Some? && forall i :: 0 <= i < |reports| ==> reports[i].id != id.value
    ensures r.Reject? && r.status == 404 ==> r.reason == NotFound(id.value)
    ensures r.Pass? ==>
      (r.status == 200 && id.Some? && r.value.report in reports
       && r.value.report.id == id.value && r.value.filename == ReportFileName(id.value))
  {
    if id.None? then Reject(400, InvalidId)
    else match FindReport(reports, id.value)
      case None => Reject(404, NotFound(id.value))
      case Some(report) => Pass(200, Download(report, ReportFileName(id.value)))
  }
}
