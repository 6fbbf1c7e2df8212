/**
 * The study lifecycle of the PACS backend (backend/server.py): the stores a
 * handler reads and writes, the role guard each handler checks first, and the
 * "not found" checks that follow it.
 *
 * The authenticated caller is an input.  Randomness (the draws behind
 * generate_study_id), the clock and the object ids handed out by the file
 * store are parameters of the handlers that use them.
 */
module Server {

  import opened Wrappers

  // ==================== entities ====================

  /** The roles named by UserRole; any other string stored as a role is Other. */
  datatype Role = Admin | Centre | Doctor | Technician | Radiologist | Patient | Other(name: string)

  /** The authenticated user on whose behalf a handler runs. */
  datatype Caller = Caller(id: string, role: Role, centreId: Option<string>)

  /** The role guard a handler failed. */
  datatype Denial =
    | OnlyAdminsCreateCentres | NotAuthorized | OnlyTechniciansUpload
    | OnlyRadiologistsAssign | OnlyRadiologistsReport

  /** The lookup a handler failed; "unset" is a reference field that is empty. */
  datatype Missing =
    | UserMissing | StudyMissing
    | AIReportUnset | AIReportMissing | FinalReportUnset | FinalReportMissing

  /** The two HTTP failures the handlers raise. */
  datatype Error = Forbidden(denial: Denial) | NotFound(missing: Missing) {
    function StatusCode(): (code: int)
      ensures code == 403 <==> Forbidden?
      ensures code == 404 <==> NotFound?
    {
      if Forbidden? then 403 else 404
    }

    /** The detail text the handler sends with the failure. */
    function Detail(): (d: string)
      ensures d != ""
    {
      match this
      case Forbidden(OnlyAdminsCreateCentres) => "Only admins can create centres"
      case Forbidden(NotAuthorized) => "Not authorized"
      case Forbidden(OnlyTechniciansUpload) => "Only technicians can upload studies"
      case Forbidden(OnlyRadiologistsAssign) => "Only radiologists can assign studies to themselves"
      case Forbidden(OnlyRadiologistsReport) => "Only radiologists can create final reports"
      case NotFound(UserMissing) => "User not found"
      case NotFound(StudyMissing) => "Study not found"
      case NotFound(AIReportUnset) => "AI report not available"
      case NotFound(AIReportMissing) => "AI report not found"
      case NotFound(FinalReportUnset) => "Final report not available"
      case NotFound(FinalReportMissing) => "Final report not found"
    }
  }

  datatype Result<T> = Ok(value: T) | Err(error: Error)

  datatype Status = Pending | Assigned | Completed | Draft | DeleteRequested

  /** A stored user document; an absent is_active field is None. */
  datatype User = User(id: string, email: string, name: string, role: Role,
                       centreId: Option<string>, createdAt: int,
                       isActive: Option<bool>, phone: Option<string>)

  datatype CentreForm = CentreForm(name: string, address: string, phone: string, email: string)

  datatype DiagnosticCentre = DiagnosticCentre(id: string, name: string, address: string, phone: string,
                                               email: string, createdAt: int, isActive: bool)

  datatype StudyForm = StudyForm(patientName: string, patientAge: int, patientGender: string,
                                 modality: string, notes: Option<string>)

  /** A stored study; `studyId` is the 8-character display id the routes use. */
  datatype Study = Study(id: string, studyId: string, patientName: string, patientAge: int,
                         patientGender: string, modality: string, centreId: Option<string>,
                         technicianId: string, radiologistId: Option<string>, status: Status,
                         notes: Option<string>, fileIds: seq<string>, uploadedAt: int,
                         aiReportId: Option<string>, finalReportId: Option<string>)

  datatype AIReport = AIReport(id: string, studyId: string, findings: string,
                               preliminaryDiagnosis: string, generatedAt: int, modelVersion: string)

  datatype ReportForm = ReportForm(findings: string, diagnosis: string, recommendations: Option<string>)

  datatype FinalReport = FinalReport(id: string, studyId: string, radiologistId: string,
                                     findings: string, diagnosis: string,
                                     recommendations: Option<string>, approvedAt: int)

  datatype UploadedFile = UploadedFile(filename: string, content: seq<bv8>)

  /** A file as the file store keeps it, with the metadata the upload attaches. */
  datatype Blob = Blob(filename: string, content: seq<bv8>, studyId: string, originalName: string)

  const ModelVersion := "MONAI-v1.0-MOCK"

  // ==================== utilities ====================

  const AsciiUppercase := "ABCDEFGHIJKLMNOPQRSTUVWXYZ"
  const Digits := "0123456789"
  const StudyIdLength := 8
  /** The size of the population generate_study_id draws from. */
  const AlphabetSize := 36

  /** The k-th character of ascii_uppercase + digits. */
  function AlphabetChar(k: nat): (c: char)
    requires k < AlphabetSize
    ensures k < |AsciiUppercase| ==> c == AsciiUppercase[k]
    ensures |AsciiUppercase| <= k ==> c == Digits[k - |AsciiUppercase|]
  {
    if k < 26 then ('A' as int + k) as char else ('0' as int + (k - 26)) as char
  }

  predicate IsIdChar(c: char) {
    'A' <= c <= 'Z' || '0' <= c <= '9'
  }

  predicate IsStudyId(s: string) {
    |s| == StudyIdLength && forall i :: 0 <= i < |s| ==> IsIdChar(s[i])
  }

  /** random.choices over ascii_uppercase + digits, each draw naming the character it picks. */
  function Choices(draws: seq<nat>): (s: string)
    ensures |s| == |draws|
    ensures forall i :: 0 <= i < |s| ==> IsIdChar(s[i])
  {
    if draws == [] then [] else [AlphabetChar(draws[0] % AlphabetSize)] + Choices(draws[1..])
  }

  /** generate_study_id: eight characters drawn from upper-case letters and digits. */
  function GenerateStudyId(draws: seq<nat>): (id: string)
    requires |draws| == StudyIdLength
    ensures IsStudyId(id)
  {
    Choices(draws)
  }

  /** The draw that picks a given letter or digit. */
  function DrawFor(c: char): (k: nat)
    requires IsIdChar(c)
    ensures k < AlphabetSize && AlphabetChar(k) == c
  {
    if 'A' <= c <= 'Z' then c as int - 'A' as int else 26 + (c as int - '0' as int)
  }

  /** Every string of letters and digits is a sequence of choices some draws produce. */
  lemma {:induction false} ChoicesReachAll(s: string)
    requires forall i :: 0 <= i < |s| ==> IsIdChar(s[i])
    ensures exists draws :: |draws| == |s| && Choices(draws) == s
  {
    if s == [] {
      assert Choices([]) == s;
    } else {
      ChoicesReachAll(s[1..]);
      var rest :| |rest| == |s| - 1 && Choices(rest) == s[1..];
      var k := DrawFor(s[0]);
      assert k % AlphabetSize == k;
      var draws := [k] + rest;
      assert draws[0] == k && draws[1..] == rest;
      assert Choices(draws) == [AlphabetChar(k)] + Choices(rest);
      assert [s[0]] + s[1..] == s;
    }
  }

  /** Every 8-character string of upper-case letters and digits can come out of generate_study_id. */
  lemma GenerateStudyIdReachesAll(s: string)
    requires IsStudyId(s)
    ensures exists draws :: |draws| == StudyIdLength && GenerateStudyId(draws) == s
  {
    ChoicesReachAll(s);
  }

  datatype MockReport = MockReport(findings: string, diagnosis: string)

  /** The canned report of each modality the mock knows. */
  function KnownReport(modality: string): Option<MockReport> {
    match modality
    case "CT" => Some(MockReport(
      "Brain CT scan shows normal gray-white matter differentiation. No acute intracranial hemorrhage, mass effect, or midline shift. Ventricular system is normal in size and configuration. No extra-axial fluid collections.",
      "Normal Brain CT - No acute intracranial abnormality detected"))
    case "MRI" => Some(MockReport(
      "MRI Brain: Normal brain parenchyma signal intensity on all sequences. No evidence of mass lesion, hemorrhage, or acute infarction. Ventricular system and sulci are age-appropriate.",
      "Normal MRI Brain study"))
    case "X-ray" => Some(MockReport(
      "Chest X-ray: Heart size is normal. Lungs are clear bilaterally. No pleural effusion or pneumothorax. Bony thorax is intact.",
      "Normal Chest X-ray - No acute cardiopulmonary abnormality"))
    case "Ultrasound" => Some(MockReport(
      "Abdomen ultrasound: Liver, gallbladder, pancreas, spleen, and kidneys appear normal in size and echogenicity. No focal lesions or free fluid detected.",
      "Normal abdominal ultrasound"))
    case _ => None
  }

  predicate OccursAt(text: string, word: string, i: nat) {
    i + |word| <= |text| && text[i..i + |word|] == word
  }

  /** Some stretch of `text` is exactly `word`. */
  ghost predicate Mentions(text: string, word: string) {
    exists i: nat :: OccursAt(text, word, i)
  }

  function DefaultReport(modality: string): (r: MockReport)
    ensures Mentions(r.findings, modality) && Mentions(r.diagnosis, modality)
  {
    var r := MockReport("Imaging study of " + modality + " modality reviewed. Structures within normal limits for age and gender.",
               "Normal " + modality + " study - No significant abnormality detected");
    assert OccursAt(r.findings, modality, 17);
    assert OccursAt(r.diagnosis, modality, 7);
    r
  }

  /**
   * generate_mock_ai_report: the table entry of a known modality, otherwise a
   * default whose texts name the modality.  Age and gender are not consulted.
   */
  function MockAIReport(modality: string, patientAge: int, patientGender: string): (r: MockReport)
    ensures KnownReport(modality).Some? ==> r == KnownReport(modality).value
    ensures KnownReport(modality).None? ==> Mentions(r.findings, modality) && Mentions(r.diagnosis, modality)
  {
    match KnownReport(modality)
    case Some(known) => known
    case None => DefaultReport(modality)
  }

  lemma MockAIReportIgnoresPatient(modality: string, age1: int, gender1: string, age2: int, gender2: string)
    ensures MockAIReport(modality, age1, gender1) == MockAIReport(modality, age2, gender2)
  {
  }

  // ==================== guards ====================

  /** Python truthiness of an optional string: present and non-empty. */
  predicate IsSet(s: Option<string>) {
    s.Some? && s.value != ""
  }

  predicate MayToggleUsers(role: Role) {
    role == Admin || role == Centre
  }

  function IsActive(u: User): bool {
    u.isActive.GetOr(true)
  }

  /** toggle_user_active's write: is_active becomes the negation of its read value. */
  function Toggled(u: User): (t: User)
    ensures IsActive(t) == !IsActive(u) && t.isActive.Some?
    ensures t.(isActive := u.isActive) == u
  {
    u.(isActive := Some(!IsActive(u)))
  }

  /** Toggling twice restores the effective flag (an absent flag is now stored as true). */
  lemma ToggleTwiceRestores(u: User)
    ensures IsActive(Toggled(Toggled(u))) == IsActive(u)
    ensures Toggled(Toggled(u)) == u.(isActive := Some(IsActive(u)))
  {
  }

  /** assign_study's write: only radiologist_id and status change. */
  function AssignedTo(s: Study, radiologistId: string): (t: Study)
    ensures t.radiologistId == Some(radiologistId) && t.status == Assigned
    ensures t.(radiologistId := s.radiologistId, status := s.status) == s
  {
    s.(radiologistId := Some(radiologistId), status := Assigned)
  }

  lemma AssignIdempotent(s: Study, radiologistId: string)
    ensures AssignedTo(AssignedTo(s, radiologistId), radiologistId) == AssignedTo(s, radiologistId)
  {
  }

  /** create_final_report's write on the study: only final_report_id and status change. */
  function CompletedWith(s: Study, reportId: string): (t: Study)
    ensures t.finalReportId == Some(reportId) && t.status == Completed
    ensures t.(finalReportId := s.finalReportId, status := s.status) == s
  {
    s.(finalReportId := Some(reportId), status := Completed)
  }

  /** The AI report upload_dicom_study inserts for a study. */
  function NewAIReport(id: string, studyId: string, form: StudyForm, now: int): (a: AIReport)
    ensures a.id == id && a.studyId == studyId && a.modelVersion == ModelVersion && a.generatedAt == now
    ensures MockReport(a.findings, a.preliminaryDiagnosis) ==
            MockAIReport(form.modality, form.patientAge, form.patientGender)
  {
    var mock := MockAIReport(form.modality, form.patientAge, form.patientGender);
    AIReport(id, studyId, mock.findings, mock.diagnosis, now, ModelVersion)
  }

  /**
   * The file-store entry for one uploaded file: named `<study_id>_<filename>`,
   * with the study id and the original name as metadata.
   */
  function BlobFor(studyId: string, f: UploadedFile): (b: Blob)
    ensures |b.filename| == |studyId| + 1 + |f.filename|
    ensures b.filename[..|studyId|] == studyId && b.filename[|studyId|] == '_'
    ensures b.filename[|studyId| + 1..] == f.filename
    ensures b.content == f.content && b.studyId == studyId && b.originalName == f.filename
  {
    Blob(studyId + "_" + f.filename, f.content, studyId, f.filename)
  }

  /**
   * A freshly uploaded study: pending, unassigned, without a final report,
   * owned by the uploading technician and their centre, pointing at its AI report.
   */
  predicate FreshUpload(s: Study, caller: Caller, form: StudyForm, studyId: string, id: string,
                        aiReportId: string, fileIds: seq<string>, now: int)
  {
    && s.studyId == studyId && s.id == id
    && s.status == Pending && s.radiologistId == None && s.finalReportId == None
    && s.technicianId == caller.id && s.centreId == caller.centreId
    && s.patientName == form.patientName && s.patientAge == form.patientAge
    && s.patientGender == form.patientGender && s.modality == form.modality
    && s.notes == form.notes && s.uploadedAt == now
    && s.aiReportId == Some(aiReportId) && s.fileIds == fileIds
  }

  /** The study document upload_dicom_study inserts. */
  function NewStudy(caller: Caller, form: StudyForm, studyId: string, id: string,
                    aiReportId: string, fileIds: seq<string>, now: int): (s: Study)
    ensures FreshUpload(s, caller, form, studyId, id, aiReportId, fileIds, now)
  {
    Study(id, studyId, form.patientName, form.patientAge, form.patientGender, form.modality,
          caller.centreId, caller.id, None, Pending, form.notes, fileIds, now, Some(aiReportId), None)
  }

  predicate Distinct(ids: seq<string>) {
    forall i, j :: 0 <= i < j < |ids| ==> ids[i] != ids[j]
  }

  /**
   * `after` is `before` plus one stored file per uploaded file: file i under
   * object id fileIds[i], tagged with the study id and its original name.
   */
  predicate FilesStored(before: map<string, Blob>, after: map<string, Blob>, studyId: string,
                        files: seq<UploadedFile>, fileIds: seq<string>)
    requires |fileIds| == |files|
  {
    && after.Keys == before.Keys + (set i | 0 <= i < |files| :: fileIds[i])
    && (forall k :: k in before ==> after[k] == before[k])
    && (forall i :: 0 <= i < |files| ==> after[fileIds[i]] == BlobFor(studyId, files[i]))
  }

  // ==================== study listing ====================

  datatype Filter<T> = Any | Only(value: T)

  /** The query document get_studies builds; each field either matches anything or one value. */
  datatype Query = Query(centreId: Filter<Option<string>>, radiologistId: Filter<Option<string>>,
                         status: Filter<Status>)

  predicate Accepts<T(==)>(f: Filter<T>, v: T) {
    f.Any? || f.value == v
  }

  predicate Matches(q: Query, s: Study) {
    Accepts(q.centreId, s.centreId) && Accepts(q.radiologistId, s.radiologistId) && Accepts(q.status, s.status)
  }

  /** to_list(1000) */
  const MaxResults := 1000

  predicate NewestFirst(r: seq<Study>) {
    forall i, j :: 0 <= i < j < |r| ==> r[i].uploadedAt >= r[j].uploadedAt
  }

  predicate DistinctStudies(r: seq<Study>) {
    forall i, j :: 0 <= i < j < |r| ==> r[i] != r[j]
  }

  /** Puts `x` into a newest-first list ahead of every study not newer than it. */
  function InsertNewestFirst(r: seq<Study>, x: Study): (t: seq<Study>)
    ensures |t| == |r| + 1 && multiset(t) == multiset(r) + multiset{x}
    ensures forall i :: 0 <= i < |t| ==> t[i] in r || t[i] == x
    ensures x in t && forall y :: y in r ==> y in t
  {
    if r == [] || x.uploadedAt >= r[0].uploadedAt then [x] + r
    else assert r == [r[0]] + r[1..]; [r[0]] + InsertNewestFirst(r[1..], x)
  }

  lemma {:induction false} InsertKeepsNewestFirst(r: seq<Study>, x: Study)
    requires NewestFirst(r)
    ensures NewestFirst(InsertNewestFirst(r, x))
  {
    if r != [] && x.uploadedAt < r[0].uploadedAt {
      InsertKeepsNewestFirst(r[1..], x);
      var rest := InsertNewestFirst(r[1..], x);
      forall i | 0 <= i < |rest| ensures rest[i].uploadedAt <= r[0].uploadedAt {
        if rest[i] != x {
          var j :| 0 <= j < |r[1..]| && r[1..][j] == rest[i];
          assert r[j + 1] == rest[i];
        }
      }
      assert InsertNewestFirst(r, x) == [r[0]] + rest;
    }
  }

  lemma {:induction false} InsertKeepsDistinct(r: seq<Study>, x: Study)
    requires DistinctStudies(r) && x !in r
    ensures DistinctStudies(InsertNewestFirst(r, x))
  {
    if r != [] && x.uploadedAt < r[0].uploadedAt {
      InsertKeepsDistinct(r[1..], x);
      var rest := InsertNewestFirst(r[1..], x);
      assert InsertNewestFirst(r, x) == [r[0]] + rest;
    }
  }

  /**
   * get_studies' query: technicians and centres are pinned to their own centre,
   * the centre_id parameter is honoured for admins only, and the radiologist_id
   * parameter only for radiologists.
   */
  function QueryFor(caller: Caller, status: Option<Status>, centreId: Option<string>,
                    radiologistId: Option<string>): (q: Query)
    ensures caller.role == Technician || caller.role == Centre ==> q.centreId == Only(caller.centreId)
    ensures caller.role == Admin ==> q.centreId == if IsSet(centreId) then Only(centreId) else Any
    ensures caller.role != Technician && caller.role != Centre && caller.role != Admin ==> q.centreId == Any
    ensures q.radiologistId == if caller.role == Radiologist && IsSet(radiologistId) then Only(radiologistId) else Any
    ensures q.status == if status.Some? then Only(status.value) else Any
  {
    var centre :=
      if caller.role == Technician || caller.role == Centre then Only(caller.centreId)
      else if caller.role == Admin && IsSet(centreId) then Only(centreId)
      else Any;
    var radiologist := if caller.role == Radiologist && IsSet(radiologistId) then Only(radiologistId) else Any;
    Query(centre, radiologist, if status.Some? then Only(status.value) else Any)
  }

  /** The query get_studies builds, one role branch and one optional filter at a time. */
  method BuildQuery(caller: Caller, status: Option<Status>, centreId: Option<string>,
                    radiologistId: Option<string>) returns (q: Query)
    ensures q == QueryFor(caller, status, centreId, radiologistId)
  {
    q := Query(Any, Any, Any);
    if caller.role == Technician {
      q := q.(centreId := Only(caller.centreId));
    } else if caller.role == Centre {
      q := q.(centreId := Only(caller.centreId));
    } else if caller.role == Radiologist {
      if IsSet(radiologistId) {
        q := q.(radiologistId := Only(radiologistId));
      }
    }
    if status.Some? {
      q := q.(status := Only(status.value));
    }
    if IsSet(centreId) && caller.role == Admin {
      q := q.(centreId := Only(centreId));
    }
  }

  // ==================== the stores ====================

  /** The collections the handlers use, each keyed by the field the handlers look documents up by. */
  class Database {
    var users: map<string, User>
    var centres: map<string, DiagnosticCentre>
    var studies: map<string, Study>
    var aiReports: map<string, AIReport>
    var finalReports: map<string, FinalReport>
    var blobs: map<string, Blob>

    ghost predicate Valid()
      reads this`users, this`centres, this`studies, this`aiReports, this`finalReports
    {
      UsersKeyed() && CentresKeyed() && StudiesKeyed() && AIReportsKeyed() && FinalReportsKeyed()
    }

    ghost predicate UsersKeyed() reads this`users {
      forall k :: k in users ==> users[k].id == k
    }

    ghost predicate CentresKeyed() reads this`centres {
      forall k :: k in centres ==> centres[k].id == k
    }

    ghost predicate StudiesKeyed() reads this`studies {
      forall k :: k in studies ==> studies[k].studyId == k
    }

    ghost predicate AIReportsKeyed() reads this`aiReports {
      forall k :: k in aiReports ==> aiReports[k].id == k
    }

    ghost predicate FinalReportsKeyed() reads this`finalReports {
      forall k :: k in finalReports ==> finalReports[k].id == k
    }

    /** Every study points at a stored AI report written for it. */
    ghost predicate AIReportsLinked()
      reads this`studies, this`aiReports
    {
      forall k :: k in studies ==>
        IsSet(studies[k].aiReportId) && studies[k].aiReportId.value in aiReports
        && aiReports[studies[k].aiReportId.value].studyId == k
    }

    constructor ()
      ensures Valid() && AIReportsLinked()
      ensures users == map[] && centres == map[] && studies == map[]
      ensures aiReports == map[] && finalReports == map[] && blobs == map[]
    {
      users, centres, studies := map[], map[], map[];
      aiReports, finalReports, blobs := map[], map[], map[];
    }

    /** Adds a user document, as registration or startup seeding would. */
    method AddUser(u: User)
      requires Valid() && u.id !in users
      modifies this`users
      ensures Valid() && users == old(users)[u.id := u]
    {
      users := users[u.id := u];
    }

    /** create_centre */
    method CreateCentre(caller: Caller, form: CentreForm, draws: seq<nat>, now: int)
      returns (r: Result<DiagnosticCentre>)
      requires Valid() && |draws| == StudyIdLength
      requires caller.role == Admin ==> "centre_" + GenerateStudyId(draws) !in centres
      modifies this`centres
      ensures Valid()
      ensures caller.role != Admin ==>
        r == Err(Forbidden(OnlyAdminsCreateCentres)) && centres == old(centres)
      ensures caller.role == Admin ==>
        && r == Ok(DiagnosticCentre("centre_" + GenerateStudyId(draws), form.name, form.address,
                                    form.phone, form.email, now, true))
        && centres == old(centres)[r.value.id := r.value]
    {
      if caller.role != Admin {
        return Err(Forbidden(OnlyAdminsCreateCentres));
      }
      var c := DiagnosticCentre("centre_" + GenerateStudyId(draws), form.name, form.address,
                                form.phone, form.email, now, true);
      centres := centres[c.id := c];
      r := Ok(c);
    }

    /** toggle_user_active */
    method ToggleUserActive(caller: Caller, userId: string) returns (r: Result<bool>)
      requires Valid()
      modifies this`users
      ensures Valid()
      ensures !MayToggleUsers(caller.role) ==>
        r == Err(Forbidden(NotAuthorized)) && users == old(users)
      ensures MayToggleUsers(caller.role) && userId !in old(users) ==>
        r == Err(NotFound(UserMissing)) && users == old(users)
      ensures MayToggleUsers(caller.role) && userId in old(users) ==>
        && r == Ok(!IsActive(old(users)[userId]))
        && users == old(users)[userId := Toggled(old(users)[userId])]
    {
      if !MayToggleUsers(caller.role) {
        return Err(Forbidden(NotAuthorized));
      }
      if userId !in users {
        return Err(NotFound(UserMissing));
      }
      var newStatus := !IsActive(users[userId]);
      users := users[userId := users[userId].(isActive := Some(newStatus))];
      r := Ok(newStatus);
    }

    /** The ids a technician's upload will write are not in use yet. */
    ghost predicate UploadIdsFresh(files: seq<UploadedFile>, fileIds: seq<string>,
                                   idDraws: seq<nat>, aiDraws: seq<nat>)
      reads this
      requires |idDraws| == StudyIdLength && |aiDraws| == StudyIdLength
    {
      && GenerateStudyId(idDraws) !in studies
      && "ai_" + GenerateStudyId(aiDraws) !in aiReports
      && |fileIds| == |files| && Distinct(fileIds)
      && (forall i :: 0 <= i < |fileIds| ==> fileIds[i] !in blobs)
    }

    /** The upload loop: each file goes to the file store and its object id onto the list. */
    method StoreFiles(studyId: string, files: seq<UploadedFile>, fileIds: seq<string>)
      returns (stored: seq<string>)
      requires |fileIds| == |files| && Distinct(fileIds)
      requires forall i :: 0 <= i < |fileIds| ==> fileIds[i] !in blobs
      modifies this`blobs
      ensures stored == fileIds
      ensures FilesStored(old(blobs), blobs, studyId, files, fileIds)
    {
      stored := [];
      var i := 0;
      while i < |files|
        invariant 0 <= i <= |files|
        invariant stored == fileIds[..i]
        invariant blobs.Keys == old(blobs).Keys + (set j | 0 <= j < i :: fileIds[j])
        invariant forall k :: k in old(blobs) ==> blobs[k] == old(blobs)[k]
        invariant forall j :: 0 <= j < i ==> blobs[fileIds[j]] == BlobFor(studyId, files[j])
      {
        blobs := blobs[fileIds[i] := BlobFor(studyId, files[i])];
        stored := stored + [fileIds[i]];
        i := i + 1;
      }
    }

    /** The two inserts of an upload: the AI report, then the study pointing at it. */
    method InsertStudyWithReport(s: Study, ai: AIReport)
      requires Valid() && s.studyId !in studies && ai.id !in aiReports
      requires s.aiReportId == Some(ai.id) && ai.id != "" && ai.studyId == s.studyId
      modifies this`studies, this`aiReports
      ensures Valid()
      ensures old(AIReportsLinked()) ==> AIReportsLinked()
      ensures studies == old(studies)[s.studyId := s] && aiReports == old(aiReports)[ai.id := ai]
    {
      aiReports := aiReports[ai.id := ai];
      studies := studies[s.studyId := s];
      if old(AIReportsLinked()) {
        forall k | k in studies
          ensures IsSet(studies[k].aiReportId) && studies[k].aiReportId.value in aiReports
          ensures aiReports[studies[k].aiReportId.value].studyId == k
        {
          if k != s.studyId {
            assert studies[k].aiReportId.value in old(aiReports);
          }
        }
      }
    }

    /**
     * upload_dicom_study.  `fileIds` are the object ids the file store hands out,
     * one per file in upload order; the three draw sequences feed the three
     * calls of generate_study_id.
     */
    method UploadStudy(caller: Caller, form: StudyForm, files: seq<UploadedFile>, fileIds: seq<string>,
                       idDraws: seq<nat>, aiDraws: seq<nat>, docDraws: seq<nat>, now: int)
      returns (r: Result<Study>)
      requires Valid()
      requires |idDraws| == StudyIdLength && |aiDraws| == StudyIdLength && |docDraws| == StudyIdLength
      requires caller.role == Technician ==> UploadIdsFresh(files, fileIds, idDraws, aiDraws)
      modifies this`studies, this`aiReports, this`blobs
      ensures Valid()
      ensures old(AIReportsLinked()) ==> AIReportsLinked()
      ensures caller.role != Technician ==>
        && r == Err(Forbidden(OnlyTechniciansUpload))
        && studies == old(studies) && aiReports == old(aiReports) && blobs == old(blobs)
      ensures caller.role == Technician ==> r.Ok?
      ensures r.Ok? ==> IsStudyId(r.value.studyId)
      ensures r.Ok? ==> FreshUpload(r.value, caller, form, GenerateStudyId(idDraws), "study_" + GenerateStudyId(docDraws),
                                    "ai_" + GenerateStudyId(aiDraws), fileIds, now)
      ensures r.Ok? ==> studies == old(studies)[r.value.studyId := r.value]
      ensures r.Ok? ==> aiReports == old(aiReports)[r.value.aiReportId.value :=
                          NewAIReport(r.value.aiReportId.value, r.value.studyId, form, now)]
      ensures r.Ok? ==> FilesStored(old(blobs), blobs, r.value.studyId, files, fileIds)
    {
      if caller.role != Technician {
        return Err(Forbidden(OnlyTechniciansUpload));
      }
      var studyId := GenerateStudyId(idDraws);

      var stored := StoreFiles(studyId, files, fileIds);
      assert AIReportsLinked() == old(AIReportsLinked());

      var aiId := "ai_" + GenerateStudyId(aiDraws);
      var ai := NewAIReport(aiId, studyId, form, now);
      var s := NewStudy(caller, form, studyId, "study_" + GenerateStudyId(docDraws), aiId, stored, now);
      InsertStudyWithReport(s, ai);
      r := Ok(s);
    }

    /** get_studies: the query's matches, newest upload first, at most MaxResults of them. */
    method GetStudies(caller: Caller, status: Option<Status>, centreId: Option<string>,
                      radiologistId: Option<string>) returns (r: seq<Study>)
      requires Valid()
      ensures |r| <= MaxResults && NewestFirst(r) && DistinctStudies(r)
      ensures forall i :: 0 <= i < |r| ==> r[i].studyId in studies && studies[r[i].studyId] == r[i]
      ensures caller.role == Technician || caller.role == Centre ==>
        forall i :: 0 <= i < |r| ==> r[i].centreId == caller.centreId
      ensures caller.role == Radiologist && IsSet(radiologistId) ==>
        forall i :: 0 <= i < |r| ==> r[i].radiologistId == radiologistId
      ensures status.Some? ==> forall i :: 0 <= i < |r| ==> r[i].status == status.value
      ensures caller.role == Admin && IsSet(centreId) ==>
        forall i :: 0 <= i < |r| ==> r[i].centreId == centreId
      ensures forall i :: 0 <= i < |r| ==> Matches(QueryFor(caller, status, centreId, radiologistId), r[i])
      ensures forall k :: k in studies && Matches(QueryFor(caller, status, centreId, radiologistId), studies[k])
                            && studies[k] !in r ==>
        |r| == MaxResults && studies[k].uploadedAt <= r[MaxResults - 1].uploadedAt
    {
      var q := BuildQuery(caller, status, centreId, radiologistId);
      r := Find(q);
    }

    /** find(query).sort("uploaded_at", -1).to_list(1000) */
    method Find(q: Query) returns (r: seq<Study>)
      requires Valid()
      ensures |r| <= MaxResults && NewestFirst(r) && DistinctStudies(r)
      ensures forall i :: 0 <= i < |r| ==>
        r[i].studyId in studies && studies[r[i].studyId] == r[i] && Matches(q, r[i])
      ensures forall k :: k in studies && Matches(q, studies[k]) && studies[k] !in r ==>
        |r| == MaxResults && studies[k].uploadedAt <= r[MaxResults - 1].uploadedAt
    {
      var sorted: seq<Study> := [];
      var rest := studies.Keys;
      while rest != {}
        invariant rest <= studies.Keys
        invariant NewestFirst(sorted) && DistinctStudies(sorted)
        invariant forall i :: 0 <= i < |sorted| ==>
          sorted[i].studyId in studies && sorted[i].studyId !in rest
          && studies[sorted[i].studyId] == sorted[i] && Matches(q, sorted[i])
        invariant forall k :: k in studies && k !in rest && Matches(q, studies[k]) ==> studies[k] in sorted
        decreases rest
      {
        var k :| k in rest;
        rest := rest - {k};
        if Matches(q, studies[k]) {
          InsertKeepsNewestFirst(sorted, studies[k]);
          InsertKeepsDistinct(sorted, studies[k]);
          sorted := InsertNewestFirst(sorted, studies[k]);
        }
      }
      if |sorted| <= MaxResults {
        r := sorted;
      } else {
        r := sorted[..MaxResults];
        forall k | k in studies && Matches(q, studies[k]) && studies[k] !in r
          ensures studies[k].uploadedAt <= r[MaxResults - 1].uploadedAt
        {
          var j :| 0 <= j < |sorted| && sorted[j] == studies[k];
          assert j >= MaxResults;
        }
      }
    }

    /** get_study: no role check, 404 for an unknown id. */
    function GetStudy(studyId: string): (r: Result<Study>)
      reads this
      ensures r.Ok? <==> studyId in studies
      ensures r.Ok? ==> r.value == studies[studyId]
      ensures r.Err? ==> r.error == NotFound(StudyMissing)
    {
      if studyId in studies then Ok(studies[studyId]) else Err(NotFound(StudyMissing))
    }

    /** assign_study */
    method AssignStudy(caller: Caller, studyId: string) returns (r: Result<string>)
      requires Valid()
      modifies this`studies
      ensures Valid()
      ensures old(AIReportsLinked()) ==> AIReportsLinked()
      ensures caller.role != Radiologist ==>
        r == Err(Forbidden(OnlyRadiologistsAssign)) && studies == old(studies)
      ensures caller.role == Radiologist && studyId !in old(studies) ==>
        r == Err(NotFound(StudyMissing)) && studies == old(studies)
      ensures caller.role == Radiologist && studyId in old(studies) ==>
        && r == Ok("Study assigned successfully")
        && studies == old(studies)[studyId := AssignedTo(old(studies)[studyId], caller.id)]
    {
      if caller.role != Radiologist {
        return Err(Forbidden(OnlyRadiologistsAssign));
      }
      if studyId !in studies {
        return Err(NotFound(StudyMissing));
      }
      studies := studies[studyId := studies[studyId].(radiologistId := Some(caller.id), status := Assigned)];
      r := Ok("Study assigned successfully");
    }

    /** get_ai_report: three distinct 404s, then exactly the referenced record. */
    function GetAIReport(studyId: string): (r: Result<AIReport>)
      reads this
      ensures studyId !in studies ==> r == Err(NotFound(StudyMissing))
      ensures studyId in studies && !IsSet(studies[studyId].aiReportId) ==>
        r == Err(NotFound(AIReportUnset))
      ensures studyId in studies && IsSet(studies[studyId].aiReportId)
              && studies[studyId].aiReportId.value !in aiReports ==>
        r == Err(NotFound(AIReportMissing))
      ensures r.Ok? ==>
        && studyId in studies && IsSet(studies[studyId].aiReportId)
        && studies[studyId].aiReportId.value in aiReports
        && r.value == aiReports[studies[studyId].aiReportId.value]
      ensures studyId in studies && IsSet(studies[studyId].aiReportId)
              && studies[studyId].aiReportId.value in aiReports ==>
        r == Ok(aiReports[studies[studyId].aiReportId.value])
    {
      if studyId !in studies then Err(NotFound(StudyMissing))
      else if !IsSet(studies[studyId].aiReportId) then Err(NotFound(AIReportUnset))
      else if studies[studyId].aiReportId.value !in aiReports then Err(NotFound(AIReportMissing))
      else Ok(aiReports[studies[studyId].aiReportId.value])
    }

    /** The ids create_final_report writes are not in use yet. */
    ghost predicate ReportIdFresh(draws: seq<nat>)
      reads this
      requires |draws| == StudyIdLength
    {
      "report_" + GenerateStudyId(draws) !in finalReports
    }

    /** create_final_report: from any prior status, and earlier reports stay stored. */
    method CreateFinalReport(caller: Caller, studyId: string, form: ReportForm, draws: seq<nat>, now: int)
      returns (r: Result<FinalReport>)
      requires Valid() && |draws| == StudyIdLength
      requires caller.role == Radiologist && studyId in studies ==> ReportIdFresh(draws)
      modifies this`studies, this`finalReports
      ensures Valid()
      ensures old(AIReportsLinked()) ==> AIReportsLinked()
      ensures caller.role != Radiologist ==>
        && r == Err(Forbidden(OnlyRadiologistsReport))
        && studies == old(studies) && finalReports == old(finalReports)
      ensures caller.role == Radiologist && studyId !in old(studies) ==>
        && r == Err(NotFound(StudyMissing))
        && studies == old(studies) && finalReports == old(finalReports)
      ensures caller.role == Radiologist && studyId in old(studies) ==>
        && r == Ok(FinalReport("report_" + GenerateStudyId(draws), studyId, caller.id,
                               form.findings, form.diagnosis, form.recommendations, now))
        && finalReports == old(finalReports)[r.value.id := r.value]
        && studies == old(studies)[studyId := CompletedWith(old(studies)[studyId], r.value.id)]
    {
      if caller.role != Radiologist {
        return Err(Forbidden(OnlyRadiologistsReport));
      }
      if studyId !in studies {
        return Err(NotFound(StudyMissing));
      }
      var report := FinalReport("report_" + GenerateStudyId(draws), studyId, caller.id,
                                form.findings, form.diagnosis, form.recommendations, now);
      finalReports := finalReports[report.id := report];
      studies := studies[studyId := studies[studyId].(finalReportId := Some(report.id), status := Completed)];
      r := Ok(report);
    }

    /** get_final_report: three distinct 404s, then exactly the referenced record. */
    function GetFinalReport(studyId: string): (r: Result<FinalReport>)
      reads this
      ensures studyId !in studies ==> r == Err(NotFound(StudyMissing))
      ensures studyId in studies && !IsSet(studies[studyId].finalReportId) ==>
        r == Err(NotFound(FinalReportUnset))
      ensures studyId in studies && IsSet(studies[studyId].finalReportId)
              && studies[studyId].finalReportId.value !in finalReports ==>
        r == Err(NotFound(FinalReportMissing))
      ensures r.Ok? ==>
        && studyId in studies && IsSet(studies[studyId].finalReportId)
        && studies[studyId].finalReportId.value in finalReports
        && r.value == finalReports[studies[studyId].finalReportId.value]
      ensures studyId in studies && IsSet(studies[studyId].finalReportId)
              && studies[studyId].finalReportId.value in finalReports ==>
        r == Ok(finalReports[studies[studyId].finalReportId.value])
    {
      if studyId !in studies then Err(NotFound(StudyMissing))
      else if !IsSet(studies[studyId].finalReportId) then Err(NotFound(FinalReportUnset))
      else if studies[studyId].finalReportId.value !in finalReports then Err(NotFound(FinalReportMissing))
      else Ok(finalReports[studies[studyId].finalReportId.value])
    }

    /** An upload's AI report is what get_ai_report then returns for the new study. */
    method UploadThenReadAIReport(caller: Caller, form: StudyForm, files: seq<UploadedFile>, fileIds: seq<string>,
                                  idDraws: seq<nat>, aiDraws: seq<nat>, docDraws: seq<nat>, now: int)
      returns (uploaded: Result<Study>, read: Result<AIReport>)
      requires Valid() && caller.role == Technician
      requires |idDraws| == StudyIdLength && |aiDraws| == StudyIdLength && |docDraws| == StudyIdLength
      requires UploadIdsFresh(files, fileIds, idDraws, aiDraws)
      modifies this`studies, this`aiReports, this`blobs
      ensures uploaded.Ok? && uploaded.value.aiReportId.Some? && read.Ok?
      ensures read.value == NewAIReport(uploaded.value.aiReportId.value, uploaded.value.studyId, form, now)
      ensures read.value.studyId == uploaded.value.studyId
    {
      uploaded := UploadStudy(caller, form, files, fileIds, idDraws, aiDraws, docDraws, now);
      read := GetAIReport(uploaded.value.studyId);
    }

    /** A radiologist's report on a stored study is what get_final_report then returns. */
    method ReportThenRead(caller: Caller, studyId: string, form: ReportForm, draws: seq<nat>, now: int)
      returns (created: Result<FinalReport>, read: Result<FinalReport>)
      requires Valid() && |draws| == StudyIdLength
      requires caller.role == Radiologist && studyId in studies && ReportIdFresh(draws)
      modifies this`studies, this`finalReports
      ensures created.Ok? && read == created
      ensures studyId in studies && studies[studyId].status == Completed
    {
      created := CreateFinalReport(caller, studyId, form, draws, now);
      read := GetFinalReport(studyId);
    }
  }

  /** While every study is linked to its AI report, reading any stored study's AI report succeeds. */
  lemma LinkedAIReportReadable(db: Database, studyId: string)
    requires db.AIReportsLinked() && studyId in db.studies
    ensures db.GetAIReport(studyId).Ok? && db.GetAIReport(studyId).value.studyId == studyId
  {
  }
}
