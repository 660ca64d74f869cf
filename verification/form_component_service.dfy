/**
 * The library of reusable form components: a soft-delete store whose every
 * change appends one entry to an audit history that is never edited, and the
 * paged, newest-first view of one component's history.
 */
module FormComponentStore {
  import opened Wrappers
  import JsonValues

  /** Row ids handed out by the store. */
  type Id = nat

  /** The kinds of form component. */
  datatype FormComponentType =
    | Text | Number | Date | Select | MultiSelect | Checkbox
    | Radio | Textarea | Vitals | LabResult | Medication | FileUpload

  /** The stored value of each kind. */
  function TypeValue(t: FormComponentType): string {
    match t
    case Text => "text"
    case Number => "number"
    case Date => "date"
    case Select => "select"
    case MultiSelect => "multi_select"
    case Checkbox => "checkbox"
    case Radio => "radio"
    case Textarea => "textarea"
    case Vitals => "vitals"
    case LabResult => "lab_result"
    case Medication => "medication"
    case FileUpload => "file_upload"
  }

  /** Distinct kinds are stored as distinct values. */
  lemma TypeValuesAreDistinct(s: FormComponentType, t: FormComponentType)
    ensures TypeValue(s) == TypeValue(t) ==> s == t
  {
  }

  /** `getComponentTypes`: every kind, once each. */
  function GetComponentTypes(): (r: seq<FormComponentType>)
    ensures |r| == 12
    ensures forall i, j | 0 <= i < j < |r| :: r[i] != r[j]
  {
    [Text, Number, Date, Select, MultiSelect, Checkbox, Radio, Textarea, Vitals, LabResult, Medication, FileUpload]
  }

  /** Every kind is listed by `getComponentTypes`. */
  lemma EveryTypeListed(t: FormComponentType)
    ensures t in GetComponentTypes()
  {
    var all := GetComponentTypes();
    var k := match t
      case Text => 0 case Number => 1 case Date => 2 case Select => 3
      case MultiSelect => 4 case Checkbox => 5 case Radio => 6 case Textarea => 7
      case Vitals => 8 case LabResult => 9 case Medication => 10 case FileUpload => 11;
    assert all[k] == t;
  }

  /**
   * The stored columns a client sets on creation. The create request names its
   * rule list `validationRules`, which is not a column, so `validation` starts
   * out empty.
   */
  datatype CreateFormComponentDto = CreateFormComponentDto(
    componentType: FormComponentType,
    labelText: string,
    required: Option<bool>,
    properties: Option<JsonValues.Record>)

  /** Every field optional: a field that is present replaces the stored one. */
  datatype UpdateFormComponentDto = UpdateFormComponentDto(
    componentType: Option<FormComponentType>,
    labelText: Option<string>,
    required: Option<bool>,
    properties: Option<JsonValues.Record>)

  datatype FormComponent = FormComponent(
    id: Id,
    tenantId: string,
    componentType: FormComponentType,
    labelText: string,
    required: bool,
    validation: Option<seq<JsonValues.Json>>,
    properties: Option<JsonValues.Record>,
    creator: string,
    dateCreated: int,
    changedBy: Option<string>,
    dateChanged: Option<int>,
    retired: bool,
    retiredBy: Option<string>,
    dateRetired: Option<int>,
    retireReason: Option<string>)

  datatype HistoryAction = CreateAction | UpdateAction | RetireAction {
    function Value(): string {
      match this
      case CreateAction => "CREATE"
      case UpdateAction => "UPDATE"
      case RetireAction => "RETIRE"
    }
  }

  /** One audit entry: which component, what happened, the component as recorded, and why (on retirement). */
  datatype HistoryEntry = HistoryEntry(
    id: Id,
    tenantId: string,
    componentId: Id,
    action: HistoryAction,
    changes: FormComponent,
    reason: Option<string>,
    creator: string,
    dateCreated: int)

  datatype ComponentError = NotFound(message: string)

  function ComponentNotFound(id: Id): ComponentError {
    NotFound("Form component with ID \"" + JsonValues.NatText(id) + "\" not found")
  }

  /** `{ data, total }` of a history page. */
  datatype HistoryPage = HistoryPage(data: seq<HistoryEntry>, total: nat)

  /** The stored component with the request's fields laid over it and the editor recorded. */
  function MergeComponentUpdate(component: FormComponent, dto: UpdateFormComponentDto, updatedBy: string, now: int): (r: FormComponent)
    ensures r.componentType == dto.componentType.GetOr(component.componentType)
    ensures r.labelText == dto.labelText.GetOr(component.labelText)
    ensures r.required == dto.required.GetOr(component.required)
    ensures r.properties == if dto.properties.Some? then dto.properties else component.properties
    ensures r.changedBy == Some(updatedBy) && r.dateChanged == Some(now)
    ensures r.(componentType := component.componentType, labelText := component.labelText, required := component.required,
               properties := component.properties, changedBy := component.changedBy, dateChanged := component.dateChanged)
            == component
  {
    component.(
      componentType := dto.componentType.GetOr(component.componentType),
      labelText := dto.labelText.GetOr(component.labelText),
      required := dto.required.GetOr(component.required),
      properties := if dto.properties.Some? then dto.properties else component.properties,
      changedBy := Some(updatedBy),
      dateChanged := Some(now))
  }

  /** An update request without fields changes nothing but the editor. */
  lemma EmptyUpdateOnlyRecordsEditor(component: FormComponent, updatedBy: string, now: int)
    ensures MergeComponentUpdate(component, UpdateFormComponentDto(None, None, None, None), updatedBy, now)
            == component.(changedBy := Some(updatedBy), dateChanged := Some(now))
  {
  }

  /** The entries of one component in one tenant, newest first. */
  function NewestFirst(entries: seq<HistoryEntry>, id: Id, tenant: string): (r: seq<HistoryEntry>)
    ensures |r| <= |entries|
    ensures forall e | e in r :: e in entries && e.componentId == id && e.tenantId == tenant
    decreases |entries|
  {
    if entries == [] then []
    else
      var last := entries[|entries| - 1];
      var earlier := NewestFirst(entries[..|entries| - 1], id, tenant);
      if last.componentId == id && last.tenantId == tenant then [last] + earlier else earlier
  }

  /** Every entry of the component in the tenant is listed. */
  lemma {:induction false} NewestFirstIsComplete(entries: seq<HistoryEntry>, id: Id, tenant: string, e: HistoryEntry)
    requires e in entries && e.componentId == id && e.tenantId == tenant
    ensures e in NewestFirst(entries, id, tenant)
    decreases |entries|
  {
    var last := entries[|entries| - 1];
    if e != last {
      assert e in entries[..|entries| - 1] by {
        var k :| 0 <= k < |entries| && entries[k] == e;
        assert k != |entries| - 1;
        assert entries[..|entries| - 1][k] == e;
      }
      NewestFirstIsComplete(entries[..|entries| - 1], id, tenant, e);
    }
  }

  /** Entry ids grow along the log. */
  ghost predicate IdsIncrease(entries: seq<HistoryEntry>) {
    forall i, j | 0 <= i < j < |entries| :: entries[i].id < entries[j].id
  }

  /** Entry ids shrink along a listing. */
  ghost predicate IdsDecrease(entries: seq<HistoryEntry>) {
    forall i, j | 0 <= i < j < |entries| :: entries[i].id > entries[j].id
  }

  /** Over a log whose ids grow, the listing goes from the newest entry to the oldest. */
  lemma {:induction false} NewestFirstIsDescending(entries: seq<HistoryEntry>, id: Id, tenant: string)
    requires IdsIncrease(entries)
    ensures IdsDecrease(NewestFirst(entries, id, tenant))
    decreases |entries|
  {
    if entries != [] {
      var earlier := entries[..|entries| - 1];
      assert IdsIncrease(earlier) by {
        forall i, j | 0 <= i < j < |earlier| ensures earlier[i].id < earlier[j].id {
          assert earlier[i] == entries[i] && earlier[j] == entries[j];
        }
      }
      NewestFirstIsDescending(earlier, id, tenant);
      var last := entries[|entries| - 1];
      var rest := NewestFirst(earlier, id, tenant);
      if last.componentId == id && last.tenantId == tenant {
        forall e | e in rest ensures e.id < last.id {
          var k :| 0 <= k < |earlier| && earlier[k] == e;
          assert entries[k] == e;
        }
        PrependLarger(last, rest);
      }
    }
  }

  /** Putting an entry with a larger id in front of a descending listing keeps it descending. */
  lemma PrependLarger(first: HistoryEntry, rest: seq<HistoryEntry>)
    requires IdsDecrease(rest) && forall e | e in rest :: e.id < first.id
    ensures IdsDecrease([first] + rest)
  {
    var r := [first] + rest;
    forall i, j | 0 <= i < j < |r| ensures r[i].id > r[j].id {
      assert r[j] == rest[j - 1];
      if i > 0 {
        assert r[i] == rest[i - 1];
      }
    }
  }

  /** The number of entries before page `page` of size `limit`. */
  function Skip(page: nat, limit: nat): nat
    requires page >= 1
  {
    (page - 1) * limit
  }

  function Min(a: int, b: int): int {
    if a <= b then a else b
  }

  /** The entries of `s` from `skip` on, at most `limit` of them. */
  function Window<T>(s: seq<T>, skip: nat, limit: nat): (r: seq<T>)
    ensures |r| <= limit
    ensures skip < |s| ==> |r| == Min(limit, |s| - skip)
    ensures forall i | 0 <= i < |r| :: skip + i < |s| && r[i] == s[skip + i]
  {
    if skip >= |s| then []
    else if skip + limit >= |s| then s[skip..]
    else s[skip..skip + limit]
  }

  /** Entry j is on page `j / limit + 1`, at position `j % limit`. */
  lemma PageOfEntry(j: nat, limit: nat)
    requires limit >= 1
    ensures Skip(j / limit + 1, limit) <= j && j - Skip(j / limit + 1, limit) == j % limit < limit
  {
    assert (j / limit + 1 - 1) * limit == (j / limit) * limit;
  }

  class FormComponentService {
    var components: map<Id, FormComponent>
    var history: seq<HistoryEntry>
    var nextId: Id

    /**
     * Every component is stored under its own id, below the next id; the i-th
     * history entry has id i and records a stored component of its own tenant.
     */
    ghost predicate Valid()
      reads this
    {
      && (forall id | id in components :: components[id].id == id && id < nextId)
      && (forall i | 0 <= i < |history| ::
            && history[i].id == i
            && history[i].componentId in components
            && history[i].tenantId == components[history[i].componentId].tenantId)
    }

    constructor ()
      ensures Valid() && components == map[] && history == []
    {
      components, history, nextId := map[], [], 0;
    }

    /** `findOne`: the component with this id in this tenant, unless it is retired. */
    function FindOne(id: Id, tenant: string): (r: Result<FormComponent, ComponentError>)
      reads this
      ensures r.Success? <==> id in components && components[id].tenantId == tenant && !components[id].retired
      ensures r.Success? ==> r.value == components[id]
      ensures r.Failure? ==> r.error == ComponentNotFound(id)
    {
      if id in components && components[id].tenantId == tenant && !components[id].retired then Success(components[id])
      else Failure(ComponentNotFound(id))
    }

    /** `getHistory`: page `page` (from 1) of `limit` entries of the component's history, newest first, and their count. */
    function GetHistory(id: Id, tenant: string, page: nat, limit: nat): (r: HistoryPage)
      requires page >= 1 && limit >= 1
      reads this
      ensures r.total == |NewestFirst(history, id, tenant)|
      ensures |r.data| <= limit
      ensures forall i | 0 <= i < |r.data| ::
                Skip(page, limit) + i < r.total && r.data[i] == NewestFirst(history, id, tenant)[Skip(page, limit) + i]
      ensures Skip(page, limit) < r.total ==> |r.data| == Min(limit, r.total - Skip(page, limit))
    {
      var all := NewestFirst(history, id, tenant);
      HistoryPage(Window(all, Skip(page, limit), limit), |all|)
    }

    /** Stores a component row and appends one history entry. */
    method Record(component: FormComponent, entry: HistoryEntry)
      modifies this
      ensures components == old(components)[component.id := component] && history == old(history) + [entry]
      ensures nextId == old(nextId)
    {
      components := components[component.id := component];
      history := history + [entry];
    }

    /** `create`: a new component, with `required` false unless asked for, and its CREATE entry. */
    method Create(dto: CreateFormComponentDto, tenant: string, creator: string, now: int) returns (r: FormComponent)
      requires Valid()
      modifies this
      ensures Valid()
      ensures r.id == old(nextId) && r.id !in old(components)
      ensures r == FormComponent(r.id, tenant, dto.componentType, dto.labelText, dto.required.GetOr(false), None,
                                 dto.properties, creator, now, None, None, false, None, None, None)
      ensures components == old(components)[r.id := r]
      ensures history == old(history) + [HistoryEntry(|old(history)|, tenant, r.id, CreateAction, r, None, creator, now)]
      ensures FindOne(r.id, tenant) == Success(r)
    {
      var component := FormComponent(nextId, tenant, dto.componentType, dto.labelText, dto.required.GetOr(false), None,
                                     dto.properties, creator, now, None, None, false, None, None, None);
      Record(component, HistoryEntry(|history|, tenant, component.id, CreateAction, component, None, creator, now));
      nextId := nextId + 1;
      r := component;
    }

    /** `update`: the request's fields laid over the component, and an UPDATE entry holding the result. */
    method Update(id: Id, dto: UpdateFormComponentDto, tenant: string, updatedBy: string, now: int)
      returns (r: Result<FormComponent, ComponentError>)
      requires Valid()
      modifies this
      ensures Valid() && nextId == old(nextId)
      ensures r.Failure? <==> old(FindOne(id, tenant)).Failure?
      ensures r.Failure? ==> r.error == ComponentNotFound(id) && components == old(components) && history == old(history)
      ensures r.Success? ==>
        && r.value == MergeComponentUpdate(old(components)[id], dto, updatedBy, now)
        && components == old(components)[id := r.value]
        && history == old(history) + [HistoryEntry(|old(history)|, tenant, id, UpdateAction, r.value, None, updatedBy, now)]
        && FindOne(id, tenant) == r
    {
      var found := FindOne(id, tenant);
      if found.Failure? {
        return Failure(found.error);
      }
      var updated := MergeComponentUpdate(found.value, dto, updatedBy, now);
      Record(updated, HistoryEntry(|history|, tenant, id, UpdateAction, updated, None, updatedBy, now));
      r := FindOne(id, tenant);
    }

    /**
     * `remove`: the component is retired with who, when and why; the RETIRE
     * entry holds the component as it was before and the reason.
     */
    method Remove(id: Id, tenant: string, retiredBy: string, reason: string, now: int)
      returns (r: Result<(), ComponentError>)
      requires Valid()
      modifies this
      ensures Valid() && nextId == old(nextId)
      ensures r.Failure? <==> old(FindOne(id, tenant)).Failure?
      ensures r.Failure? ==> r.error == ComponentNotFound(id) && components == old(components) && history == old(history)
      ensures r.Success? ==>
        && components == old(components)[id := old(components)[id].(retired := true, retiredBy := Some(retiredBy),
                                                                    dateRetired := Some(now), retireReason := Some(reason))]
        && history == old(history) + [HistoryEntry(|old(history)|, tenant, id, RetireAction, old(components)[id], Some(reason), retiredBy, now)]
        && forall t :: FindOne(id, t).Failure?
    {
      var found := FindOne(id, tenant);
      if found.Failure? {
        return Failure(found.error);
      }
      var retired := found.value.(retired := true, retiredBy := Some(retiredBy), dateRetired := Some(now), retireReason := Some(reason));
      Record(retired, HistoryEntry(|history|, tenant, id, RetireAction, found.value, Some(reason), retiredBy, now));
      r := Success(());
    }
  }

  /** In a well-formed store the history listing of a component runs from its newest entry to its oldest. */
  lemma HistoryIsNewestFirst(service: FormComponentService, id: Id, tenant: string)
    requires service.Valid()
    ensures IdsDecrease(NewestFirst(service.history, id, tenant))
  {
    NewestFirstIsDescending(service.history, id, tenant);
  }

  /** Entry j of the listing is entry `j % limit` of page `j / limit + 1`: the pages tile the listing. */
  lemma EveryEntryOnItsPage(service: FormComponentService, id: Id, tenant: string, limit: nat, j: nat)
    requires limit >= 1 && j < |NewestFirst(service.history, id, tenant)|
    ensures var p := service.GetHistory(id, tenant, j / limit + 1, limit);
            j % limit < |p.data| && p.data[j % limit] == NewestFirst(service.history, id, tenant)[j]
  {
    PageOfEntry(j, limit);
  }
}
