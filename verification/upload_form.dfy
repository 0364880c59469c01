/** The pure parts of the upload form: the file-selection guard, the report
    record kept after an analysis, and the capped, newest-first history. */
module UploadForm {
  import opened Wrappers
  import opened JsValues
  import opened Estimator

  /** Largest accepted file, in bytes (10 MiB). */
  const MAX_FILE_SIZE: nat := 10 * 1024 * 1024
  /** Most reports kept in the history. */
  const MAX_REPORTS: nat := 50

  const NOT_AN_IMAGE: string := "Please select an image file"
  const FILE_TOO_LARGE: string := "File size must be less than 10MB"

  datatype SelectedFile = SelectedFile(name: string, mimeType: string, size: nat)

  /** The part of the form's state the handlers below change. */
  datatype FormState = FormState(selected: Option<SelectedFile>, error: Option<string>, estimate: Option<Json>)

  /** `handleFileSelect`: the type check runs before the size check, and a
      refused file only sets the error, and an accepted one is selected with
      the error and the previous estimate cleared. */
  function SelectFile(st: FormState, file: Option<SelectedFile>): (st': FormState)
    ensures file.None? ==> st' == st
    ensures file.Some? && !("image/" <= file.value.mimeType) ==> st' == st.(error := Some(NOT_AN_IMAGE))
    ensures file.Some? && "image/" <= file.value.mimeType && file.value.size > MAX_FILE_SIZE ==>
              st' == st.(error := Some(FILE_TOO_LARGE))
    ensures file.Some? && "image/" <= file.value.mimeType && file.value.size <= MAX_FILE_SIZE ==>
              st' == FormState(file, None, None)
  {
    match file
    case None => st
    case Some(f) =>
      if !("image/" <= f.mimeType) then st.(error := Some(NOT_AN_IMAGE))
      else if f.size > MAX_FILE_SIZE then st.(error := Some(FILE_TOO_LARGE))
      else FormState(Some(f), None, None)
  }

  /** A file is taken exactly when its MIME type starts with `image/` and it
      is at most 10 MiB; a refused file leaves the selection and the
      estimate as they were. */
  lemma FileAcceptedIff(st: FormState, f: SelectedFile)
    ensures SelectFile(st, Some(f)).error.None? <==> "image/" <= f.mimeType && f.size <= MAX_FILE_SIZE
    ensures SelectFile(st, Some(f)).error.None? ==> SelectFile(st, Some(f)).selected == Some(f)
    ensures SelectFile(st, Some(f)).error.Some? ==>
              SelectFile(st, Some(f)).selected == st.selected && SelectFile(st, Some(f)).estimate == st.estimate
  {
  }

  /** One entry of the report history. `id` and `uploadedAt` come from the
      clock and are parameters here; the estimate fields are whatever the
      decoded estimate held, None standing for `undefined`. */
  datatype Report = Report(
    id: string,
    userId: string,
    imageUrl: Option<string>,
    fileName: string,
    uploadedAt: string,
    estimatedCost: Option<Json>,
    damages: seq<Option<Json>>,
    laborHours: Option<Json>,
    confidence: Option<Json>,
    status: string)

  const ANALYZED: string := "analyzed"
  /** What the form shows when anything in `handleUpload` throws. */
  const UPLOAD_ERROR: string := "An error occurred. Please try again."

  /** `damages.map((d) => d.type)`: None when it throws on a null element. */
  function DamageTypes(ds: seq<Json>): (r: Option<seq<Option<Json>>>)
    ensures r.None? <==> exists i :: 0 <= i < |ds| && ds[i].JNull?
    ensures r.Some? ==> |r.value| == |ds| && forall i :: 0 <= i < |ds| ==> r.value[i] == Prop(ds[i], "type")
  {
    if |ds| == 0 then Some([])
    else if ds[0].JNull? then None
    else
      match DamageTypes(ds[1..])
      case None => None
      case Some(rest) =>
        assert forall i :: 1 <= i < |ds| ==> ds[i] == ds[1..][i - 1];
        Some([Prop(ds[0], "type")] + rest)
  }

  /** The record built from the estimate; None when building it throws
      (a null estimate, a `damages` that is not an array, a null damage). */
  function MakeReport(
    estimate: Json, userId: string, preview: Option<string>, file: SelectedFile, id: string, uploadedAt: string)
    : (r: Option<Report>)
    ensures r.None? <==>
      || estimate.JNull?
      || !IsArray(Prop(estimate, "damages"))
      || exists i :: 0 <= i < |Prop(estimate, "damages").value.items| && Prop(estimate, "damages").value.items[i].JNull?
    ensures r.Some? ==>
      && r.value.estimatedCost == Prop(estimate, "totalCost")
      && r.value.laborHours == Prop(estimate, "laborHours")
      && r.value.confidence == Prop(estimate, "confidence")
      && r.value.status == ANALYZED
      && r.value.userId == userId && r.value.fileName == file.name && r.value.imageUrl == preview
      && |r.value.damages| == |Prop(estimate, "damages").value.items|
      && forall i :: 0 <= i < |r.value.damages| ==>
           r.value.damages[i] == Prop(Prop(estimate, "damages").value.items[i], "type")
  {
    if estimate.JNull? then None
    else
      var damages := Prop(estimate, "damages");
      if !IsArray(damages) then None
      else
        match DamageTypes(damages.value.items)
        case None => None
        case Some(types) =>
          Some(Report(id, userId, preview, file.name, uploadedAt,
                      Prop(estimate, "totalCost"), types,
                      Prop(estimate, "laborHours"), Prop(estimate, "confidence"), ANALYZED))
  }

  /** `reports.unshift(record)` followed by `reports.splice(50)` when longer. */
  function CapPrepend(record: Report, reports: seq<Report>): (r: seq<Report>)
    ensures |r| == if |reports| + 1 < MAX_REPORTS then |reports| + 1 else MAX_REPORTS
    ensures r[0] == record
    ensures r[1..] == reports[..|r| - 1]
  {
    var all := [record] + reports;
    if |all| > MAX_REPORTS then all[..MAX_REPORTS] else all
  }

  /** The first `n` elements, or all of them when there are fewer. */
  function Take<T>(s: seq<T>, n: nat): seq<T> {
    if |s| <= n then s else s[..n]
  }

  function Reverse<T>(s: seq<T>): (r: seq<T>)
    ensures |r| == |s|
    ensures forall i :: 0 <= i < |s| ==> r[i] == s[|s| - 1 - i]
  {
    if |s| == 0 then [] else Reverse(s[1..]) + [s[0]]
  }

  /** The history after saving `records` one after another, in that order. */
  function SaveAll(reports: seq<Report>, records: seq<Report>): seq<Report>
    decreases |records|
  {
    if |records| == 0 then reports else SaveAll(CapPrepend(records[0], reports), records[1..])
  }

  lemma TakeOfTake<T>(a: seq<T>, b: seq<T>, n: nat)
    ensures Take(a + Take(b, n), n) == Take(a + b, n)
  {
    if |b| > n {
      if |a| + n <= n {
        assert a == [];
        assert a + Take(b, n) == b[..n];
        assert (a + b)[..n] == b[..n];
      } else {
        assert (a + b[..n])[..n] == (a + b)[..n];
      }
    }
  }

  /** After any run of uploads the history holds the newest records first,
      then the earlier history, cut to the 50 most recent. With no upload at
      all the stored history is left as it is, so it must already fit. */
  lemma {:induction false} SaveAllIsNewestFirst(reports: seq<Report>, records: seq<Report>)
    requires |records| > 0 || |reports| <= MAX_REPORTS
    ensures SaveAll(reports, records) == Take(Reverse(records) + reports, MAX_REPORTS)
    decreases |records|
  {
    if |records| == 0 {
      assert Reverse(records) + reports == reports;
    } else {
      var r := records[0];
      var rest := records[1..];
      assert CapPrepend(r, reports) == Take([r] + reports, MAX_REPORTS);
      SaveAllIsNewestFirst(CapPrepend(r, reports), rest);
      TakeOfTake(Reverse(rest), [r] + reports, MAX_REPORTS);
      assert Reverse(records) == Reverse(rest) + [r];
      assert Reverse(rest) + ([r] + reports) == Reverse(records) + reports;
    }
  }

  /** The history never exceeds the cap once something has been saved, and
      its head is the last record saved. */
  lemma SaveAllBounded(reports: seq<Report>, records: seq<Report>)
    requires |records| > 0
    ensures 0 < |SaveAll(reports, records)| <= MAX_REPORTS
    ensures SaveAll(reports, records)[0] == records[|records| - 1]
  {
    SaveAllIsNewestFirst(reports, records);
  }

  /** What `handleUpload` leaves behind. */
  datatype UploadOutcome =
    | Ignored
    | Failed(estimate: Json, error: string)
    | Saved(estimate: Json, reports: seq<Report>)

  /** `handleUpload`: nothing happens without a selected file and a user;
      otherwise the estimate is shown and, when its record can be built,
      prepended to the history; building the record can throw, and then
      the estimate stays on screen next to the generic error. `fetched` is what the request for
      `previewUrl || ''` returned. */
  function HandleUpload(
    file: Option<SelectedFile>, userId: Option<string>, preview: Option<string>,
    fetched: FetchOutcome, id: string, uploadedAt: string, reports: seq<Report>)
    : (r: UploadOutcome)
    ensures r.Ignored? <==> file.None? || userId.None?
    ensures !r.Ignored? ==> r.estimate == EstimateDamage(fetched)
    ensures r.Saved? ==>
      && MakeReport(r.estimate, userId.value, preview, file.value, id, uploadedAt).Some?
      && r.reports == CapPrepend(MakeReport(r.estimate, userId.value, preview, file.value, id, uploadedAt).value, reports)
    ensures r.Failed? <==>
      !r.Ignored? && MakeReport(r.estimate, userId.value, preview, file.value, id, uploadedAt).None?
    ensures r.Failed? ==> r.error == UPLOAD_ERROR
  {
    if file.None? || userId.None? then Ignored
    else
      var estimate := EstimateDamage(fetched);
      match MakeReport(estimate, userId.value, preview, file.value, id, uploadedAt)
      case None => Failed(estimate, UPLOAD_ERROR)
      case Some(record) => Saved(estimate, CapPrepend(record, reports))
  }
}
