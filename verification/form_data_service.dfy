/**
 * The store of submitted clinical forms: a submission is pinned to the
 * current version of its template, checked against that version's
 * validation schema, run through its processing rules and kept with a
 * status that afterwards moves only along the transition table, except that
 * voiding a submission is always allowed and hides it from every read.
 */
module FormDataStore {
  import opened Wrappers
  import opened JsonValues
  import opened FormStatusTypes
  import FormProcessor
  import SchemaValidation
  import TemplateStore

  /** Row ids handed out by the store. */
  type Id = nat

  /** The status values of the submission API: the five statuses without VOIDED. */
  datatype HttpFormStatus = HttpDraft | HttpCompleted | HttpSigned | HttpArchived

  /** The service status an API status value stands for. */
  function FromHttp(h: HttpFormStatus): (s: FormStatus)
    ensures s != Voided
  {
    match h
    case HttpDraft => Draft
    case HttpCompleted => Completed
    case HttpSigned => Signed
    case HttpArchived => Archived
  }

  /** Every status but VOIDED has an API value, so through the API a status change never voids. */
  lemma HttpStatusesAreTheLiveOnes(s: FormStatus)
    ensures s != Voided <==> exists h :: FromHttp(h) == s
  {
    if s != Voided {
      var h := match s
        case Draft => HttpDraft
        case Completed => HttpCompleted
        case Signed => HttpSigned
        case _ => HttpArchived;
      assert FromHttp(h) == s;
    }
  }

  /** The stored value of each status. */
  function StatusValue(s: FormStatus): string {
    match s
    case Draft => "draft"
    case Completed => "completed"
    case Signed => "signed"
    case Archived => "archived"
    case Voided => "voided"
  }

  /** What the client sends to submit a form; `status` is whatever the client asks for, if anything. */
  datatype SubmitFormDto = SubmitFormDto(
    templateId: TemplateStore.Id,
    patientId: string,
    encounterId: Option<string>,
    formData: Record,
    status: Option<FormStatus>)

  /** A stored submission. */
  datatype FormData = FormData(
    id: Id,
    tenantId: string,
    templateId: TemplateStore.Id,
    templateVersionId: TemplateStore.Id,
    patientId: string,
    encounterId: Option<string>,
    formData: Record,
    creator: string,
    dateCreated: int,
    changedBy: Option<string>,
    dateChanged: Option<int>,
    voided: bool,
    voidedBy: Option<string>,
    dateVoided: Option<int>,
    voidReason: Option<string>,
    status: FormStatus)

  /**
   * The errors of the store: a missing submission, a rejected request (with
   * the validator's error list when the schema check failed), an error of the
   * template store, and the error of a failing processing rule.
   */
  datatype FormDataError =
    | NotFound(message: string)
    | BadRequest(message: string, errors: Option<seq<SchemaValidation.SchemaError>>)
    | TemplateFailure(cause: TemplateStore.TemplateError)
    | ProcessingFailure(failure: FormProcessor.ProcessingError)

  function FormDataNotFound(id: Id): FormDataError {
    NotFound("Form data with ID \"" + NatText(id) + "\" not found")
  }

  /** `isValidStatusTransition`: whether the table lists the new status for the current one. */
  function IsValidStatusTransition(current: FormStatus, next: FormStatus): (ok: bool)
    ensures ok <==> CanMove(current, next)
    ensures ok ==> current != Voided && next != current
  {
    next in Transitions(current)
  }

  /**
   * The filters of `findAll` that the model keeps; a filter that is absent or
   * an empty string does not restrict the listing.
   */
  datatype ListFilter = ListFilter(
    patientId: Option<string>,
    templateId: Option<TemplateStore.Id>,
    encounterId: Option<string>,
    status: Option<FormStatus>)

  /** Whether a string filter is set in the JavaScript sense: present and not empty. */
  predicate FilterSet(f: Option<string>) {
    f.Some? && f.value != ""
  }

  /** Whether a record satisfies the filters that are set. */
  predicate MatchesFilter(record: FormData, filter: ListFilter) {
    && (FilterSet(filter.patientId) ==> record.patientId == filter.patientId.value)
    && (filter.templateId.Some? ==> record.templateId == filter.templateId.value)
    && (FilterSet(filter.encounterId) ==> record.encounterId == filter.encounterId)
    && (filter.status.Some? ==> record.status == filter.status.value)
  }

  class FormDataService {
    const templateService: TemplateStore.TemplateService
    const validator: SchemaValidation.FormValidator
    var records: map<Id, FormData>
    var nextId: Id

    /** Every submission is stored under its own id, below the next id; the validator is well formed. */
    ghost predicate Valid()
      reads this, validator
    {
      && validator.Valid()
      && forall id | id in records :: records[id].id == id && id < nextId
    }

    constructor (templateService: TemplateStore.TemplateService)
      ensures Valid() && records == map[] && this.templateService == templateService
    {
      this.templateService := templateService;
      validator := new SchemaValidation.FormValidator();
      records, nextId := map[], 0;
    }

    /** `findOne`: the submission with this id in this tenant, unless it is voided. */
    function FindOne(id: Id, tenant: string): (r: Result<FormData, FormDataError>)
      reads this
      ensures r.Success? <==> id in records && records[id].tenantId == tenant && !records[id].voided
      ensures r.Success? ==> r.value == records[id]
      ensures r.Failure? ==> r.error == FormDataNotFound(id)
    {
      if id in records && records[id].tenantId == tenant && !records[id].voided then Success(records[id])
      else Failure(FormDataNotFound(id))
    }

    /** `findAll` without paging: the ids of the tenant's submissions that are not voided and match the filters. */
    function FindAll(tenant: string, filter: ListFilter): (r: set<Id>)
      reads this
      ensures r <= records.Keys
      ensures forall id | id in r :: records[id].tenantId == tenant && !records[id].voided
      ensures forall id | id in records && records[id].tenantId == tenant && !records[id].voided ::
                id in r <==> MatchesFilter(records[id], filter)
    {
      set id | id in records && records[id].tenantId == tenant && !records[id].voided
                 && MatchesFilter(records[id], filter)
    }

    /** The version the template currently points at, looked up as `submit` does it. */
    function PinnedVersion(templateId: TemplateStore.Id, tenant: string): (r: Result<TemplateStore.TemplateVersion, TemplateStore.TemplateError>)
      reads templateService
      ensures r.Success? ==>
        && templateService.FindOne(templateId, tenant).Success?
        && var current := templateService.templates[templateId].currentVersionId;
           current in templateService.versions && r.value == templateService.versions[current]
           && r.value.templateId == templateId && r.value.tenantId == tenant
      ensures templateService.FindOne(templateId, tenant).Failure? ==> r == Failure(TemplateStore.TemplateNotFound(templateId))
    {
      var template :- templateService.FindOne(templateId, tenant);
      templateService.GetVersion(templateId, template.currentVersionId, tenant)
    }

    /**
     * `submit`: the data is checked against the pinned version's validation
     * schema, processed with that version's rules (none when it has none) and
     * stored with the requested status, DRAFT by default. Nothing is stored
     * when any step fails.
     */
    method Submit(dto: SubmitFormDto, tenant: string, creator: string, now: int,
                  host: FormProcessor.Host, oracle: SchemaValidation.SchemaOracle)
      returns (r: Result<FormData, FormDataError>)
      requires Valid()
      modifies this, validator
      ensures Valid()
      ensures PinnedVersion(dto.templateId, tenant).Failure? ==>
                r == Failure(TemplateFailure(PinnedVersion(dto.templateId, tenant).error))
      ensures PinnedVersion(dto.templateId, tenant).Success? ==>
        var version := PinnedVersion(dto.templateId, tenant).value;
        var verdict := oracle(SchemaValidation.ConfiguredAjv(), version.validationSchema, Obj(dto.formData));
        var processed := FormProcessor.Process(host, dto.formData, version.processingRules.GetOr([]));
        && (!verdict.isValid ==> r == Failure(BadRequest("Form validation failed", verdict.errors)))
        && (verdict.isValid && processed.Failure? ==> r == Failure(ProcessingFailure(processed.error)))
        && (r.Success? <==> verdict.isValid && processed.Success?)
        && (r.Success? ==> r.value.templateVersionId == version.id && r.value.formData == processed.value)
      ensures r.Failure? ==> records == old(records) && nextId == old(nextId)
      ensures r.Success? ==>
        && r.value == FormData(old(nextId), tenant, dto.templateId, r.value.templateVersionId, dto.patientId,
                               dto.encounterId, r.value.formData, creator, now, None, None, false, None, None, None,
                               dto.status.GetOr(Draft))
        && r.value.id !in old(records)
        && records == old(records)[r.value.id := r.value]
        && FindOne(r.value.id, tenant) == r
    {
      var version := PinnedVersion(dto.templateId, tenant);
      if version.Failure? {
        return Failure(TemplateFailure(version.error));
      }
      var verdict := validator.ValidateFormData(Obj(dto.formData), version.value.validationSchema, oracle);
      if !verdict.isValid {
        return Failure(BadRequest("Form validation failed", verdict.errors));
      }
      var processed := FormProcessor.ProcessFormData(host, dto.formData, version.value.processingRules);
      if processed.Failure? {
        return Failure(ProcessingFailure(processed.error));
      }
      var record := FormData(nextId, tenant, dto.templateId, version.value.id, dto.patientId, dto.encounterId,
                             processed.value, creator, now, None, None, false, None, None, None, dto.status.GetOr(Draft));
      Insert(record);
      nextId := nextId + 1;
      r := FindOne(record.id, tenant);
    }

    /** Writes one submission row under its id. */
    method Insert(record: FormData)
      modifies this
      ensures records == old(records)[record.id := record] && nextId == old(nextId)
    {
      records := records[record.id := record];
    }

    /**
     * `updateStatus`: allowed only along the transition table; a success
     * changes the status and the editor and nothing else.
     */
    method UpdateStatus(id: Id, newStatus: FormStatus, tenant: string, updatedBy: string, now: int)
      returns (r: Result<FormData, FormDataError>)
      requires Valid()
      modifies this
      ensures Valid() && nextId == old(nextId)
      ensures old(FindOne(id, tenant)).Failure? ==> r == Failure(FormDataNotFound(id))
      ensures old(FindOne(id, tenant)).Success? && !CanMove(old(records)[id].status, newStatus) ==>
                r == Failure(BadRequest("Invalid status transition from " + StatusValue(old(records)[id].status)
                                        + " to " + StatusValue(newStatus), None))
      ensures r.Success? <==> old(FindOne(id, tenant)).Success? && CanMove(old(records)[id].status, newStatus)
      ensures r.Failure? ==> records == old(records)
      ensures r.Success? ==>
        && records == old(records)[id := old(records)[id].(status := newStatus, changedBy := Some(updatedBy), dateChanged := Some(now))]
        && r == FindOne(id, tenant)
    {
      var found := FindOne(id, tenant);
      if found.Failure? {
        return Failure(found.error);
      }
      var current := found.value.status;
      if !IsValidStatusTransition(current, newStatus) {
        return Failure(BadRequest("Invalid status transition from " + StatusValue(current) + " to " + StatusValue(newStatus), None));
      }
      var updated := found.value.(status := newStatus, changedBy := Some(updatedBy), dateChanged := Some(now));
      Insert(updated);
      r := FindOne(id, tenant);
    }

    /**
     * `void`: allowed from every status without consulting the table; the
     * submission is marked voided with who, when and why, and its status is
     * left as it was.
     */
    method Void(id: Id, reason: string, tenant: string, voidedBy: string, now: int)
      returns (r: Result<(), FormDataError>)
      requires Valid()
      modifies this
      ensures Valid() && nextId == old(nextId)
      ensures r.Failure? <==> old(FindOne(id, tenant)).Failure?
      ensures r.Failure? ==> r.error == FormDataNotFound(id) && records == old(records)
      ensures r.Success? ==>
        && records == old(records)[id := old(records)[id].(voided := true, voidedBy := Some(voidedBy),
                                                            dateVoided := Some(now), voidReason := Some(reason))]
        && records[id].status == old(records)[id].status
        && forall t :: FindOne(id, t).Failure?
    {
      var found := FindOne(id, tenant);
      if found.Failure? {
        return Failure(found.error);
      }
      var voided := found.value.(voided := true, voidedBy := Some(voidedBy), dateVoided := Some(now), voidReason := Some(reason));
      Insert(voided);
      r := Success(());
    }
  }

  /** A submission appears in the unfiltered listing of a tenant exactly when `findOne` finds it there. */
  lemma ListedIffFound(service: FormDataService, id: Id, tenant: string)
    ensures id in service.FindAll(tenant, ListFilter(None, None, None, None)) <==> service.FindOne(id, tenant).Success?
  {
  }

  /** A voided submission is found by no read: neither `findOne` nor any listing, in any tenant. */
  lemma VoidedIsInvisible(service: FormDataService, id: Id, tenant: string, filter: ListFilter)
    requires id in service.records && service.records[id].voided
    ensures service.FindOne(id, tenant).Failure? && id !in service.FindAll(tenant, filter)
  {
  }

  /**
   * Templates are created and versioned without processing rules, so in
   * every state the template store can reach `submit` processes with the
   * empty rule list and keeps the submitted data as it was sent.
   */
  lemma UnruledVersionsKeepData(service: FormDataService, dto: SubmitFormDto, tenant: string, host: FormProcessor.Host)
    requires service.templateService.Valid()
    requires service.PinnedVersion(dto.templateId, tenant).Success?
    ensures FormProcessor.Process(host, dto.formData, service.PinnedVersion(dto.templateId, tenant).value.processingRules.GetOr([]))
            == Success(dto.formData)
  {
    FormProcessor.ProcessEmpty(host, dto.formData);
  }
}
