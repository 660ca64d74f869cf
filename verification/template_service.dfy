/**
 * The clinical template store: templates, their numbered schema versions, the
 * pointer from each template to its current version, publication and soft
 * retirement. Each public operation is one atomic step over the two tables.
 */
module TemplateStore {
  import opened Wrappers
  import opened JsonValues
  import FormProcessor

  /** Row ids handed out by the store. */
  type Id = nat

  /** The schema part of a template: what a new version is made from. */
  datatype VersionPayload = VersionPayload(
    schema: Json,
    uiSchema: Json,
    validationSchema: Json,
    changeReason: Option<string>)

  datatype CreateTemplateDto = CreateTemplateDto(
    name: string,
    description: Option<string>,
    categoryId: string,
    version: VersionPayload,
    isPublished: Option<bool>)

  /** Every field optional: a field that is present replaces the stored one. */
  datatype UpdateTemplateDto = UpdateTemplateDto(
    name: Option<string>,
    description: Option<string>,
    categoryId: Option<string>,
    version: Option<VersionPayload>,
    isPublished: Option<bool>)

  datatype Template = Template(
    id: Id,
    tenantId: string,
    name: string,
    description: Option<string>,
    categoryId: string,
    isPublished: bool,
    currentVersionId: Id,
    creator: string,
    dateCreated: int,
    changedBy: Option<string>,
    dateChanged: Option<int>,
    retired: bool,
    retiredBy: Option<string>,
    dateRetired: Option<int>,
    retireReason: Option<string>)

  datatype TemplateVersion = TemplateVersion(
    id: Id,
    tenantId: string,
    templateId: Id,
    version: nat,
    schema: Json,
    uiSchema: Json,
    validationSchema: Json,
    processingRules: Option<seq<FormProcessor.ProcessingRule>>,
    creator: string,
    dateCreated: int,
    changeReason: Option<string>)

  datatype TemplateError = NotFound(message: string) | Conflict(message: string)

  function TemplateNotFound(id: Id): TemplateError {
    NotFound("Template with ID \"" + NatText(id) + "\" not found")
  }

  /** Every template has a lineage, and every lineage belongs to a template. */
  ghost predicate SameKeys(templates: map<Id, Template>, lineage: map<Id, seq<Id>>) {
    forall t :: t in lineage <==> t in templates
  }

  /** Each lineage is non-empty, and its i-th entry is a version of that template and tenant numbered i+1. */
  ghost predicate NumberedInOrder(templates: map<Id, Template>, versions: map<Id, TemplateVersion>, lineage: map<Id, seq<Id>>) {
    && (forall t | t in lineage :: |lineage[t]| >= 1)
    && (forall t, i | t in lineage && t in templates && 0 <= i < |lineage[t]| ::
          && lineage[t][i] in versions
          && versions[lineage[t][i]].templateId == t
          && versions[lineage[t][i]].version == i + 1
          && versions[lineage[t][i]].tenantId == templates[t].tenantId)
  }

  /** Every version sits in the lineage of its template at the place its number gives. */
  ghost predicate PlacedByNumber(versions: map<Id, TemplateVersion>, lineage: map<Id, seq<Id>>) {
    forall v | v in versions ::
      && versions[v].templateId in lineage
      && 1 <= versions[v].version <= |lineage[versions[v].templateId]|
      && lineage[versions[v].templateId][versions[v].version - 1] == v
  }

  /** Every template points at one of its own versions. */
  ghost predicate PointsToOwnVersion(templates: map<Id, Template>, versions: map<Id, TemplateVersion>) {
    forall t | t in templates ::
      templates[t].currentVersionId in versions && versions[templates[t].currentVersionId].templateId == t
  }

  /**
   * The version bookkeeping every store state keeps: `lineage[t]` lists the
   * versions of template t in creation order.
   */
  ghost predicate LineageOk(templates: map<Id, Template>, versions: map<Id, TemplateVersion>, lineage: map<Id, seq<Id>>) {
    && SameKeys(templates, lineage)
    && NumberedInOrder(templates, versions, lineage)
    && PlacedByNumber(versions, lineage)
    && PointsToOwnVersion(templates, versions)
  }

  /** Every row is stored under its own id, and every id is below the next one to be handed out. */
  ghost predicate IdsOk(templates: map<Id, Template>, versions: map<Id, TemplateVersion>, nextId: Id) {
    && (forall id | id in templates :: templates[id].id == id && id < nextId)
    && (forall id | id in versions :: versions[id].id == id && id < nextId)
  }

  /**
   * No stored version carries processing rules: `create` and
   * `createNewVersion` never copy any into the version row.
   */
  ghost predicate NoStoredRules(versions: map<Id, TemplateVersion>) {
    forall v | v in versions :: versions[v].processingRules.None?
  }

  ghost predicate StateOk(templates: map<Id, Template>, versions: map<Id, TemplateVersion>, nextId: Id, lineage: map<Id, seq<Id>>) {
    IdsOk(templates, versions, nextId) && LineageOk(templates, versions, lineage)
  }

  /** Whether `v` is a version row of template `t` in tenant `tenant`. */
  ghost predicate VersionOf(versions: map<Id, TemplateVersion>, v: Id, t: Id, tenant: string) {
    v in versions && versions[v].templateId == t && versions[v].tenantId == tenant
  }

  /** The numbers 1..k. */
  ghost function OneTo(k: nat): (r: set<nat>)
    ensures forall n :: n in r <==> 1 <= n <= k
  {
    if k == 0 then {} else OneTo(k - 1) + {k}
  }

  /** The numbers of a template's versions. */
  ghost function VersionNumbers(versions: map<Id, TemplateVersion>, t: Id): set<nat> {
    set v | v in versions && versions[v].templateId == t :: versions[v].version
  }

  /** The versions of a template are numbered exactly 1..n, n being the number of versions it has. */
  lemma VersionNumbersAreOneToN(templates: map<Id, Template>, versions: map<Id, TemplateVersion>, lineage: map<Id, seq<Id>>, t: Id)
    requires LineageOk(templates, versions, lineage) && t in templates
    ensures VersionNumbers(versions, t) == OneTo(|lineage[t]|)
  {
    forall n: nat | 1 <= n <= |lineage[t]| ensures n in VersionNumbers(versions, t) {
      var v := lineage[t][n - 1];
      assert v in versions && versions[v].templateId == t && versions[v].version == n;
    }
    forall n | n in VersionNumbers(versions, t) ensures 1 <= n <= |lineage[t]| {
      var v :| v in versions && versions[v].templateId == t && versions[v].version == n;
    }
  }

  /** No two versions of a template share a number. */
  lemma VersionNumbersAreUnique(templates: map<Id, Template>, versions: map<Id, TemplateVersion>, lineage: map<Id, seq<Id>>, v: Id, w: Id)
    requires LineageOk(templates, versions, lineage)
    requires v in versions && w in versions && versions[v].templateId == versions[w].templateId
    requires versions[v].version == versions[w].version
    ensures v == w
  {
  }

  /** The highest number among a template's versions is its number of versions, carried by the newest. */
  lemma NewestIsHighest(templates: map<Id, Template>, versions: map<Id, TemplateVersion>, lineage: map<Id, seq<Id>>, t: Id)
    requires LineageOk(templates, versions, lineage) && t in templates
    ensures VersionOf(versions, lineage[t][|lineage[t]| - 1], t, templates[t].tenantId)
    ensures versions[lineage[t][|lineage[t]| - 1]].version == |lineage[t]|
    ensures forall v | v in versions && versions[v].templateId == t :: versions[v].version <= |lineage[t]|
  {
  }

  lemma NumberedAfterCreate(templates: map<Id, Template>, versions: map<Id, TemplateVersion>, lineage: map<Id, seq<Id>>,
                            template: Template, version: TemplateVersion)
    requires NumberedInOrder(templates, versions, lineage)
    requires template.id !in lineage && version.id !in versions
    requires version.templateId == template.id && version.version == 1 && version.tenantId == template.tenantId
    ensures NumberedInOrder(templates[template.id := template], versions[version.id := version], lineage[template.id := [version.id]])
  {
    var templates', versions', lineage' := templates[template.id := template], versions[version.id := version], lineage[template.id := [version.id]];
    forall t, i | t in lineage' && t in templates' && 0 <= i < |lineage'[t]|
      ensures lineage'[t][i] in versions' && versions'[lineage'[t][i]] == (if t == template.id then version else versions[lineage[t][i]])
    {
      if t != template.id {
        assert lineage'[t][i] == lineage[t][i] && lineage[t][i] in versions;
      }
    }
  }

  lemma PlacedAfterCreate(versions: map<Id, TemplateVersion>, lineage: map<Id, seq<Id>>, version: TemplateVersion)
    requires PlacedByNumber(versions, lineage)
    requires version.templateId !in lineage && version.id !in versions && version.version == 1
    ensures PlacedByNumber(versions[version.id := version], lineage[version.templateId := [version.id]])
  {
  }

  lemma PointsAfterCreate(templates: map<Id, Template>, versions: map<Id, TemplateVersion>, template: Template, version: TemplateVersion)
    requires PointsToOwnVersion(templates, versions)
    requires version.id !in versions && template.currentVersionId == version.id && version.templateId == template.id
    ensures PointsToOwnVersion(templates[template.id := template], versions[version.id := version])
  {
    forall t | t in templates && t != template.id ensures templates[t].currentVersionId != version.id {
      assert templates[t].currentVersionId in versions;
    }
  }

  /** Adding a new template with one fresh version numbered 1 keeps the bookkeeping. */
  lemma LineageAfterCreate(templates: map<Id, Template>, versions: map<Id, TemplateVersion>, lineage: map<Id, seq<Id>>,
                           template: Template, version: TemplateVersion)
    requires LineageOk(templates, versions, lineage)
    requires template.id !in templates && version.id !in versions
    requires template.currentVersionId == version.id
    requires version.templateId == template.id && version.version == 1 && version.tenantId == template.tenantId
    ensures LineageOk(templates[template.id := template], versions[version.id := version], lineage[template.id := [version.id]])
  {
    NumberedAfterCreate(templates, versions, lineage, template, version);
    PlacedAfterCreate(versions, lineage, version);
    PointsAfterCreate(templates, versions, template, version);
  }

  lemma NumberedAfterNewVersion(templates: map<Id, Template>, versions: map<Id, TemplateVersion>, lineage: map<Id, seq<Id>>,
                                t: Id, version: TemplateVersion)
    requires NumberedInOrder(templates, versions, lineage) && t in templates && t in lineage
    requires version.id !in versions
    requires version.templateId == t && version.version == |lineage[t]| + 1 && version.tenantId == templates[t].tenantId
    ensures NumberedInOrder(templates[t := templates[t].(currentVersionId := version.id)], versions[version.id := version],
                            lineage[t := lineage[t] + [version.id]])
  {
    var templates' := templates[t := templates[t].(currentVersionId := version.id)];
    var versions', lineage' := versions[version.id := version], lineage[t := lineage[t] + [version.id]];
    forall u, i | u in lineage' && u in templates' && 0 <= i < |lineage'[u]|
      ensures && lineage'[u][i] in versions'
              && versions'[lineage'[u][i]].templateId == u
              && versions'[lineage'[u][i]].version == i + 1
              && versions'[lineage'[u][i]].tenantId == templates'[u].tenantId
    {
      if u != t {
        assert lineage'[u][i] == lineage[u][i] && lineage[u][i] in versions;
      } else if i < |lineage[t]| {
        assert lineage'[u][i] == lineage[t][i] && lineage[t][i] in versions;
      }
    }
  }

  lemma PlacedAfterNewVersion(versions: map<Id, TemplateVersion>, lineage: map<Id, seq<Id>>, version: TemplateVersion)
    requires PlacedByNumber(versions, lineage) && version.templateId in lineage
    requires version.id !in versions && version.version == |lineage[version.templateId]| + 1
    ensures PlacedByNumber(versions[version.id := version], lineage[version.templateId := lineage[version.templateId] + [version.id]])
  {
    var t := version.templateId;
    var lineage' := lineage[t := lineage[t] + [version.id]];
    forall v | v in versions && versions[v].templateId == t
      ensures lineage'[t][versions[v].version - 1] == v
    {
      assert lineage'[t][versions[v].version - 1] == lineage[t][versions[v].version - 1];
    }
  }

  lemma PointsAfterNewVersion(templates: map<Id, Template>, versions: map<Id, TemplateVersion>, t: Id, version: TemplateVersion)
    requires PointsToOwnVersion(templates, versions) && t in templates
    requires version.id !in versions && version.templateId == t
    ensures PointsToOwnVersion(templates[t := templates[t].(currentVersionId := version.id)], versions[version.id := version])
  {
    forall u | u in templates && u != t ensures templates[u].currentVersionId != version.id {
      assert templates[u].currentVersionId in versions;
    }
  }

  /** Appending a fresh version numbered one past the newest keeps the bookkeeping. */
  lemma LineageAfterNewVersion(templates: map<Id, Template>, versions: map<Id, TemplateVersion>, lineage: map<Id, seq<Id>>,
                               t: Id, version: TemplateVersion)
    requires LineageOk(templates, versions, lineage) && t in templates
    requires version.id !in versions
    requires version.templateId == t && version.version == |lineage[t]| + 1 && version.tenantId == templates[t].tenantId
    ensures LineageOk(templates[t := templates[t].(currentVersionId := version.id)], versions[version.id := version],
                      lineage[t := lineage[t] + [version.id]])
  {
    NumberedAfterNewVersion(templates, versions, lineage, t, version);
    PlacedAfterNewVersion(versions, lineage, version);
    PointsAfterNewVersion(templates, versions, t, version);
  }

  /** The whole store invariant after `create`: the bookkeeping, and ids still below the counter. */
  lemma StateAfterCreate(templates: map<Id, Template>, versions: map<Id, TemplateVersion>, nextId: Id,
                         lineage: map<Id, seq<Id>>, template: Template, version: TemplateVersion)
    requires StateOk(templates, versions, nextId, lineage)
    requires template.id == nextId && version.id == nextId + 1 && template.currentVersionId == version.id
    requires version.templateId == template.id && version.version == 1 && version.tenantId == template.tenantId
    ensures StateOk(templates[template.id := template], versions[version.id := version], nextId + 2,
                    lineage[template.id := [version.id]])
  {
    LineageAfterCreate(templates, versions, lineage, template, version);
  }

  /** The whole store invariant after a new version: the bookkeeping, and ids still below the counter. */
  lemma StateAfterNewVersion(templates: map<Id, Template>, versions: map<Id, TemplateVersion>, nextId: Id,
                             lineage: map<Id, seq<Id>>, t: Id, version: TemplateVersion)
    requires StateOk(templates, versions, nextId, lineage) && t in templates
    requires version.id == nextId
    requires version.templateId == t && version.version == |lineage[t]| + 1 && version.tenantId == templates[t].tenantId
    ensures StateOk(templates[t := templates[t].(currentVersionId := version.id)], versions[version.id := version],
                    nextId + 1, lineage[t := lineage[t] + [version.id]])
  {
    LineageAfterNewVersion(templates, versions, lineage, t, version);
  }

  /** Replacing a template row by one with the same tenant and a pointer into its lineage keeps the bookkeeping. */
  lemma LineageAfterEdit(templates: map<Id, Template>, versions: map<Id, TemplateVersion>, lineage: map<Id, seq<Id>>,
                         t: Id, edited: Template)
    requires LineageOk(templates, versions, lineage) && t in templates
    requires edited.tenantId == templates[t].tenantId
    requires edited.currentVersionId in versions && versions[edited.currentVersionId].templateId == t
    ensures LineageOk(templates[t := edited], versions, lineage)
  {
    assert NumberedInOrder(templates[t := edited], versions, lineage);
  }

  /** A second write to the same key replaces the first. */
  lemma OverwriteTwice<K, V>(m: map<K, V>, k: K, first: V, second: V)
    ensures m[k := first][k := second] == m[k := second]
  {
  }

  /** The row `update` writes: every field the DTO carries replaces the stored one; the editor and time are recorded. */
  function MergeTemplateUpdate(template: Template, dto: UpdateTemplateDto, updatedBy: string, now: int): (r: Template)
    ensures r.id == template.id && r.tenantId == template.tenantId && r.currentVersionId == template.currentVersionId
    ensures r.name == dto.name.GetOr(template.name) && r.categoryId == dto.categoryId.GetOr(template.categoryId)
    ensures r.isPublished == dto.isPublished.GetOr(template.isPublished)
    ensures r.description == if dto.description.Some? then dto.description else template.description
    ensures r.changedBy == Some(updatedBy) && r.dateChanged == Some(now)
    ensures r.retired == template.retired && r.creator == template.creator && r.dateCreated == template.dateCreated
  {
    template.(
      name := dto.name.GetOr(template.name),
      description := if dto.description.Some? then dto.description else template.description,
      categoryId := dto.categoryId.GetOr(template.categoryId),
      isPublished := dto.isPublished.GetOr(template.isPublished),
      changedBy := Some(updatedBy),
      dateChanged := Some(now))
  }

  /** Merging commutes with moving the version pointer. */
  lemma MergeIgnoresPointer(template: Template, pointer: Id, dto: UpdateTemplateDto, updatedBy: string, now: int)
    ensures MergeTemplateUpdate(template.(currentVersionId := pointer), dto, updatedBy, now)
         == MergeTemplateUpdate(template, dto, updatedBy, now).(currentVersionId := pointer)
  {
  }

  /**
   * Merging onto a snapshot taken before a new version was made puts the
   * pointer back: the saved row points at the version the snapshot saw.
   */
  lemma StaleMergeRevertsPointer(snapshot: Template, current: Template, dto: UpdateTemplateDto, updatedBy: string, now: int)
    requires current == snapshot.(currentVersionId := current.currentVersionId)
    requires current.currentVersionId != snapshot.currentVersionId
    ensures MergeTemplateUpdate(snapshot, dto, updatedBy, now).currentVersionId != current.currentVersionId
    ensures MergeTemplateUpdate(current, dto, updatedBy, now).currentVersionId == current.currentVersionId
  {
  }

  class TemplateService {
    var templates: map<Id, Template>
    var versions: map<Id, TemplateVersion>
    var nextId: Id
    ghost var lineage: map<Id, seq<Id>>

    ghost predicate Valid()
      reads this
    {
      StateOk(templates, versions, nextId, lineage) && NoStoredRules(versions)
    }

    constructor ()
      ensures Valid() && templates == map[] && versions == map[]
    {
      templates, versions, nextId := map[], map[], 0;
      lineage := map[];
    }

    /** `findOne`: the template with this id in this tenant, unless it is retired. */
    function FindOne(id: Id, tenant: string): (r: Result<Template, TemplateError>)
      reads this
      ensures r.Success? <==> id in templates && templates[id].tenantId == tenant && !templates[id].retired
      ensures r.Success? ==> r.value == templates[id]
      ensures r.Failure? ==> r.error == TemplateNotFound(id)
    {
      if id in templates && templates[id].tenantId == tenant && !templates[id].retired then Success(templates[id])
      else Failure(TemplateNotFound(id))
    }

    /** `getVersion`: succeeds only when id, template and tenant all match; retirement is not consulted. */
    function GetVersion(templateId: Id, versionId: Id, tenant: string): (r: Result<TemplateVersion, TemplateError>)
      reads this
      ensures r.Success? <==> versionId in versions && versions[versionId].templateId == templateId && versions[versionId].tenantId == tenant
      ensures r.Success? ==> r.value == versions[versionId]
      ensures r.Failure? ==> r.error == NotFound("Template version not found")
    {
      if versionId in versions && versions[versionId].templateId == templateId && versions[versionId].tenantId == tenant then
        Success(versions[versionId])
      else
        Failure(NotFound("Template version not found"))
    }

    /** `getLatestVersion`: the highest-numbered version of the template in the tenant. */
    method GetLatestVersion(templateId: Id, tenant: string) returns (r: Result<TemplateVersion, TemplateError>)
      requires forall v | v in versions :: versions[v].id == v
      ensures r.Success? ==> VersionOf(versions, r.value.id, templateId, tenant) && versions[r.value.id] == r.value
      ensures r.Success? ==> forall v | VersionOf(versions, v, templateId, tenant) :: versions[v].version <= r.value.version
      ensures r.Failure? <==> forall v :: !VersionOf(versions, v, templateId, tenant)
      ensures r.Failure? ==> r.error == NotFound("No versions found for template")
    {
      var pending := versions.Keys;
      var best: Option<Id> := None;
      while pending != {}
        invariant pending <= versions.Keys
        invariant best.Some? ==> VersionOf(versions, best.value, templateId, tenant)
        invariant best.Some? ==> forall v | v in versions.Keys - pending && VersionOf(versions, v, templateId, tenant) ::
                    versions[v].version <= versions[best.value].version
        invariant best.None? ==> forall v | v in versions.Keys - pending :: !VersionOf(versions, v, templateId, tenant)
        decreases pending
      {
        var k :| k in pending;
        if versions[k].templateId == templateId && versions[k].tenantId == tenant
           && (best.None? || versions[k].version > versions[best.value].version) {
          best := Some(k);
        }
        pending := pending - {k};
      }
      if best.None? {
        r := Failure(NotFound("No versions found for template"));
      } else {
        r := Success(versions[best.value]);
      }
    }

    /**
     * `create`: the template and its version 1 in one step; the template
     * points at that version. The version carries no processing rules and no
     * change reason.
     */
    method Create(dto: CreateTemplateDto, tenant: string, creator: string, now: int) returns (r: Template)
      requires Valid()
      modifies this
      ensures Valid()
      ensures r.id == old(nextId) && r.id !in old(templates) && r.currentVersionId !in old(versions)
      ensures templates == old(templates)[r.id := r]
      ensures r == Template(r.id, tenant, dto.name, dto.description, dto.categoryId, dto.isPublished.GetOr(false),
                            r.currentVersionId, creator, now, None, None, false, None, None, None)
      ensures versions == old(versions)[r.currentVersionId := TemplateVersion(
                r.currentVersionId, tenant, r.id, 1, dto.version.schema, dto.version.uiSchema,
                dto.version.validationSchema, None, creator, now, None)]
      ensures lineage == old(lineage)[r.id := [r.currentVersionId]]
      ensures FindOne(r.id, tenant) == Success(r)
    {
      var template := Template(nextId, tenant, dto.name, dto.description, dto.categoryId, dto.isPublished.GetOr(false),
                               nextId + 1, creator, now, None, None, false, None, None, None);
      var version := TemplateVersion(nextId + 1, tenant, nextId, 1, dto.version.schema, dto.version.uiSchema,
                                     dto.version.validationSchema, None, creator, now, None);
      AddTemplate(template, version);
      assert Valid() by {
        StateAfterCreate(old(templates), old(versions), old(nextId), old(lineage), template, version);
      }
      r := template;
    }

    /** Stores a new template row and its first version row under their ids and advances the counter past both. */
    method AddTemplate(template: Template, version: TemplateVersion)
      modifies this
      ensures nextId == old(nextId) + 2
      ensures templates == old(templates)[template.id := template]
      ensures versions == old(versions)[version.id := version]
      ensures lineage == old(lineage)[template.id := [version.id]]
    {
      templates := templates[template.id := template];
      versions := versions[version.id := version];
      lineage := lineage[template.id := [version.id]];
      nextId := nextId + 2;
    }

    /**
     * `createNewVersion`: a version numbered one past the highest, which the
     * template then points at; earlier versions are untouched.
     */
    method CreateNewVersion(templateId: Id, payload: VersionPayload, tenant: string, creator: string, now: int)
      returns (r: Result<TemplateVersion, TemplateError>)
      requires Valid()
      modifies this
      ensures Valid()
      ensures r.Failure? <==> old(FindOne(templateId, tenant)).Failure?
      ensures r.Failure? ==> r.error == TemplateNotFound(templateId)
                             && templates == old(templates) && versions == old(versions) && lineage == old(lineage)
      ensures r.Success? ==>
        && r.value == TemplateVersion(r.value.id, tenant, templateId, |old(lineage)[templateId]| + 1, payload.schema,
                                      payload.uiSchema, payload.validationSchema, None, creator, now, payload.changeReason)
        && r.value.id !in old(versions)
        && versions == old(versions)[r.value.id := r.value]
        && templates == old(templates)[templateId := old(templates)[templateId].(currentVersionId := r.value.id)]
        && lineage == old(lineage)[templateId := old(lineage)[templateId] + [r.value.id]]
    {
      var found := FindOne(templateId, tenant);
      if found.Failure? {
        return Failure(found.error);
      }
      var template := found.value;
      NewestIsHighest(templates, versions, lineage, templateId);
      ghost var newest := lineage[templateId][|lineage[templateId]| - 1];
      var latest := GetLatestVersion(templateId, tenant);
      // the newest version of the template exists, so the lookup cannot report NotFound
      assert VersionOf(versions, newest, templateId, tenant);
      assert latest.Success?;
      assert versions[newest].version <= latest.value.version;
      assert latest.value.version == |lineage[templateId]|;
      var newVersion := TemplateVersion(nextId, tenant, templateId, latest.value.version + 1, payload.schema,
                                        payload.uiSchema, payload.validationSchema, None, creator, now, payload.changeReason);
      AddVersion(newVersion);
      r := Success(newVersion);
    }

    /** Overwrites a stored template row with an edited one of the same tenant that points into its own lineage. */
    method SaveTemplate(edited: Template)
      requires Valid() && edited.id in templates && edited.tenantId == templates[edited.id].tenantId
      requires edited.currentVersionId in versions && versions[edited.currentVersionId].templateId == edited.id
      modifies this
      ensures Valid() && templates == old(templates)[edited.id := edited]
      ensures versions == old(versions) && lineage == old(lineage) && nextId == old(nextId)
    {
      LineageAfterEdit(templates, versions, lineage, edited.id, edited);
      templates := templates[edited.id := edited];
    }

    /** Stores a fresh version as the newest of its template and points the template at it. */
    method AddVersion(version: TemplateVersion)
      requires Valid() && version.templateId in templates && version.id == nextId
      requires version.version == |lineage[version.templateId]| + 1 && version.tenantId == templates[version.templateId].tenantId
      requires version.processingRules.None?
      modifies this
      ensures Valid() && nextId == old(nextId) + 1
      ensures versions == old(versions)[version.id := version]
      ensures templates == old(templates)[version.templateId := old(templates)[version.templateId].(currentVersionId := version.id)]
      ensures lineage == old(lineage)[version.templateId := old(lineage)[version.templateId] + [version.id]]
    {
      StateAfterNewVersion(templates, versions, nextId, lineage, version.templateId, version);
      versions := versions[version.id := version];
      templates := templates[version.templateId := templates[version.templateId].(currentVersionId := version.id)];
      lineage := lineage[version.templateId := lineage[version.templateId] + [version.id]];
      nextId := nextId + 1;
    }

    /**
     * `update` with the template re-read after the new version is made, so the
     * saved row keeps pointing at that version.
     */
    method Update(id: Id, dto: UpdateTemplateDto, tenant: string, updatedBy: string, now: int)
      returns (r: Result<Template, TemplateError>)
      requires Valid()
      modifies this
      ensures Valid()
      ensures r.Failure? <==> old(FindOne(id, tenant)).Failure?
      ensures r.Failure? ==> r.error == TemplateNotFound(id) && templates == old(templates) && versions == old(versions)
      ensures r.Success? ==> id in old(templates) && templates == old(templates)[id := r.value] && FindOne(id, tenant) == r
      ensures r.Success? ==>
        r.value == MergeTemplateUpdate(old(templates)[id], dto, updatedBy, now).(currentVersionId := r.value.currentVersionId)
      ensures r.Success? && dto.version.None? ==>
        versions == old(versions) && r.value.currentVersionId == old(templates)[id].currentVersionId
      ensures r.Success? && dto.version.Some? ==>
        && |lineage[id]| == |old(lineage)[id]| + 1
        && r.value.currentVersionId == lineage[id][|lineage[id]| - 1]
        && r.value.currentVersionId !in old(versions)
        && versions == old(versions)[r.value.currentVersionId := versions[r.value.currentVersionId]]
        && versions[r.value.currentVersionId].version == |lineage[id]|
    {
      var found := FindOne(id, tenant);
      if found.Failure? {
        return Failure(found.error);
      }
      ghost var before: Template, table: map<Id, Template> := templates[id], templates;
      if dto.version.Some? {
        var made := CreateNewVersion(id, dto.version.value, tenant, updatedBy, now);
        assert made.Success?;
        assert lineage[id][|lineage[id]| - 1] == made.value.id;
        assert versions[made.value.id].version == |lineage[id]|;
      }
      ghost var pointed: Template := templates[id];
      assert templates == table[id := pointed];
      MergeIgnoresPointer(before, pointed.currentVersionId, dto, updatedBy, now);
      var saved := SaveMerged(id, dto, updatedBy, now);
      OverwriteTwice(table, id, pointed, saved);
      r := Success(saved);
    }

    /** Re-reads the stored template and saves it with the DTO's fields merged in. */
    method SaveMerged(id: Id, dto: UpdateTemplateDto, updatedBy: string, now: int) returns (saved: Template)
      requires Valid() && id in templates
      modifies this
      ensures Valid() && templates == old(templates)[id := saved]
      ensures saved == MergeTemplateUpdate(old(templates)[id], dto, updatedBy, now)
      ensures versions == old(versions) && lineage == old(lineage) && nextId == old(nextId)
    {
      saved := MergeTemplateUpdate(templates[id], dto, updatedBy, now);
      SaveTemplate(saved);
    }

    /**
     * `update` as written: the row saved is the snapshot read before the new
     * version was made, so a version update leaves the template pointing at
     * the version that was current before the call.
     */
    method UpdateAsWritten(id: Id, dto: UpdateTemplateDto, tenant: string, updatedBy: string, now: int)
      returns (r: Result<Template, TemplateError>)
      requires Valid()
      modifies this
      ensures Valid()
      ensures r.Failure? <==> old(FindOne(id, tenant)).Failure?
      ensures r.Failure? ==> templates == old(templates) && versions == old(versions)
      ensures r.Success? ==> templates == old(templates)[id := MergeTemplateUpdate(old(templates)[id], dto, updatedBy, now)]
      ensures r.Success? && dto.version.Some? ==>
        && |lineage[id]| == |old(lineage)[id]| + 1
        && templates[id].currentVersionId == old(templates)[id].currentVersionId
        && templates[id].currentVersionId != lineage[id][|lineage[id]| - 1]
    {
      var found := FindOne(id, tenant);
      if found.Failure? {
        return Failure(found.error);
      }
      var template := found.value;
      ghost var table: map<Id, Template> := templates;
      if dto.version.Some? {
        ghost var pointer := template.currentVersionId;
        assert pointer in versions;
        var made := CreateNewVersion(id, dto.version.value, tenant, updatedBy, now);
        assert made.Success?;
        assert pointer != made.value.id;
      }
      ghost var pointed: Template := templates[id];
      assert templates == table[id := pointed];
      var merged := MergeTemplateUpdate(template, dto, updatedBy, now);
      SaveTemplate(merged);
      OverwriteTwice(table, id, pointed, merged);
      r := FindOne(id, tenant);
    }

    /** `remove`: soft retirement with who, when and why; the template is then invisible. */
    method Remove(id: Id, tenant: string, retiredBy: string, retireReason: string, now: int)
      returns (r: Result<(), TemplateError>)
      requires Valid()
      modifies this
      ensures Valid() && versions == old(versions)
      ensures r.Failure? <==> old(FindOne(id, tenant)).Failure?
      ensures r.Failure? ==> r.error == TemplateNotFound(id) && templates == old(templates)
      ensures r.Success? ==> templates == old(templates)[id := old(templates)[id].(
                retired := true, retiredBy := Some(retiredBy), dateRetired := Some(now), retireReason := Some(retireReason))]
      ensures r.Success? ==> forall t :: FindOne(id, t).Failure?
    {
      var found := FindOne(id, tenant);
      if found.Failure? {
        return Failure(found.error);
      }
      var retired := found.value.(retired := true, retiredBy := Some(retiredBy), dateRetired := Some(now), retireReason := Some(retireReason));
      SaveTemplate(retired);
      r := Success(());
    }

    /** `publish`: Conflict when already published; otherwise the flag is set and the editor recorded. */
    method Publish(id: Id, tenant: string, updatedBy: string, now: int) returns (r: Result<Template, TemplateError>)
      requires Valid()
      modifies this
      ensures Valid() && versions == old(versions)
      ensures old(FindOne(id, tenant)).Failure? ==> r == old(FindOne(id, tenant)).PropagateFailure()
      ensures old(FindOne(id, tenant)).Success? && old(templates)[id].isPublished ==>
                r == Failure(Conflict("Template is already published"))
      ensures r.Failure? ==> templates == old(templates)
      ensures r.Success? <==> old(FindOne(id, tenant)).Success? && !old(templates)[id].isPublished
      ensures r.Success? ==>
        && templates == old(templates)[id := old(templates)[id].(isPublished := true, changedBy := Some(updatedBy), dateChanged := Some(now))]
        && r == FindOne(id, tenant)
    {
      var found := FindOne(id, tenant);
      if found.Failure? {
        return found.PropagateFailure();
      }
      if found.value.isPublished {
        return Failure(Conflict("Template is already published"));
      }
      var published := found.value.(isPublished := true, changedBy := Some(updatedBy), dateChanged := Some(now));
      SaveTemplate(published);
      r := Success(published);
    }

    /** `unpublish`: Conflict when not published; otherwise the flag is cleared and the editor recorded. */
    method Unpublish(id: Id, tenant: string, updatedBy: string, now: int) returns (r: Result<Template, TemplateError>)
      requires Valid()
      modifies this
      ensures Valid() && versions == old(versions)
      ensures old(FindOne(id, tenant)).Failure? ==> r == old(FindOne(id, tenant)).PropagateFailure()
      ensures old(FindOne(id, tenant)).Success? && !old(templates)[id].isPublished ==>
                r == Failure(Conflict("Template is not published"))
      ensures r.Failure? ==> templates == old(templates)
      ensures r.Success? <==> old(FindOne(id, tenant)).Success? && old(templates)[id].isPublished
      ensures r.Success? ==>
        && templates == old(templates)[id := old(templates)[id].(isPublished := false, changedBy := Some(updatedBy), dateChanged := Some(now))]
        && r == FindOne(id, tenant)
    {
      var found := FindOne(id, tenant);
      if found.Failure? {
        return found.PropagateFailure();
      }
      if !found.value.isPublished {
        return Failure(Conflict("Template is not published"));
      }
      var unpublished := found.value.(isPublished := false, changedBy := Some(updatedBy), dateChanged := Some(now));
      SaveTemplate(unpublished);
      r := Success(unpublished);
    }
  }
}
