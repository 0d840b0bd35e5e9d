/**
 * `AuditLogMixin` of apps/api/mixins.py: how a viewset names the audited
 * object, what change payload it sends to the recorder, and when each CRUD
 * hook logs relative to saving or deleting the instance.
 */
module AuditMixin {
  import opened Wrappers
  import opened Strings
  import opened PyValues
  import opened Audit
  import opened CoreModels

  /** `audit_list_object_id`: the object id of collection-level entries. */
  const ListObjectId: string := "list"

  datatype MixinError = ModelNameUnknown | AuditRejected(error: AuditError)

  /**
   * A model instance as the hooks see it: its `_meta.label` and its primary
   * key, which saving assigns and deleting clears (Django sets `pk` to
   * `None` after `delete()`).
   */
  class ModelInstance {
    const modelLabel: string
    var pk: Option<PyValue>

    constructor (modelLabel: string, pk: Option<PyValue>)
      ensures this.modelLabel == modelLabel && this.pk == pk
    {
      this.modelLabel := modelLabel;
      this.pk := pk;
    }

    /** `save()`: a new row gets the key the database assigns; an existing row keeps its key. */
    method Save(newPk: PyValue)
      modifies this
      ensures pk == if old(pk).Some? then old(pk) else Some(newPk)
    {
      if pk.None? {
        pk := Some(newPk);
      }
    }

    /** `delete()`: the row is gone and the instance no longer has a key. */
    method Delete()
      modifies this
      ensures pk == None
    {
      pk := None;
    }
  }

  /**
   * The object id stored for an instance with the given key: `str(pk)`, or
   * `""` when the instance has no `pk` attribute or its `pk` is `None`.
   */
  function ObjectIdOfPk(pk: Option<PyValue>): (r: string)
    ensures pk.None? || pk == Some(PyNone) ==> r == ""
    ensures pk.Some? && pk.value.PyInt? ==> r == IntToString(pk.value.i)
    ensures pk.Some? && pk.value.PyStr? ==> r == pk.value.s
  {
    if pk.Some? && !pk.value.PyNone? then Str(pk.value) else ""
  }

  /** `get_audit_object_id`: `"list"` without an instance, otherwise the instance's key as text. */
  function GetAuditObjectId(instance: ModelInstance?): (r: string)
    reads instance
    ensures instance == null ==> r == ListObjectId
    ensures instance != null ==> r == ObjectIdOfPk(instance.pk)
  {
    if instance == null then ListObjectId else ObjectIdOfPk(instance.pk)
  }

  /**
   * An integer key never yields the `"list"` sentinel nor the empty id, so
   * instance entries and collection entries cannot be confused.
   */
  lemma IntegerObjectIdIsNotSentinel(i: int)
    ensures ObjectIdOfPk(Some(PyInt(i))) != ListObjectId
    ensures ObjectIdOfPk(Some(PyInt(i))) != ""
  {
    var s := IntToString(i);
    assert IsDigit(s[0]) || s[0] == '-';
    assert ListObjectId[0] == 'l';
  }

  /**
   * `get_audit_model_name`: the instance's modelLabel; without an instance the
   * modelLabel of `queryset.model`, then of `serializer_class.Meta.model`; with
   * none of them a `ValueError`.
   */
  function GetAuditModelName(
    instance: ModelInstance?, querysetModel: Option<string>, serializerModel: Option<string>)
    : (r: Result<string, MixinError>)
    ensures r.Err? <==> instance == null && querysetModel.None? && serializerModel.None?
    ensures r.Err? ==> r.error == ModelNameUnknown
    ensures instance != null ==> r == Ok(instance.modelLabel)
    ensures instance == null && querysetModel.Some? ==> r == Ok(querysetModel.value)
    ensures instance == null && querysetModel.None? && serializerModel.Some? ==> r == Ok(serializerModel.value)
  {
    if instance != null then Ok(instance.modelLabel)
    else if querysetModel.Some? then Ok(querysetModel.value)
    else if serializerModel.Some? then Ok(serializerModel.value)
    else Err(ModelNameUnknown)
  }

  // ------------------------------------------------------------ change payloads

  /**
   * The value `_build_change_payload` puts under `key`, or `None` when it
   * leaves the key out: `fields` and `filters` as sets of strings,
   * `summary` and `metadata` only when truthy, `count` whenever it is given
   * (so 0 is kept). An empty iterable or string stands for `None` as well:
   * both are falsy.
   */
  function PayloadValue(
    key: string, fields: seq<string>, summary: string, count: Option<int>,
    filters: seq<string>, metadata: string)
    : (r: Option<PyValue>)
    ensures r.Some? ==> key in AllowedChangeKeys
  {
    if key == "fields" then (if |fields| > 0 then Some(PySet(StrList(Distinct(fields)))) else None)
    else if key == "summary" then (if summary != "" then Some(PyStr(summary)) else None)
    else if key == "count" then (if count.Some? then Some(PyInt(count.value)) else None)
    else if key == "filters" then (if |filters| > 0 then Some(PySet(StrList(Distinct(filters)))) else None)
    else if key == "metadata" then (if metadata != "" then Some(PyStr(metadata)) else None)
    else None
  }

  /** The dict `_build_change_payload` returns. */
  ghost predicate IsChangePayload(
    p: PyValue, fields: seq<string>, summary: string, count: Option<int>,
    filters: seq<string>, metadata: string)
  {
    && p.PyDict?
    && UniqueKeys(p.entries)
    && forall key :: Get(p.entries, key) == PayloadValue(key, fields, summary, count, filters, metadata)
  }

  /** The keys of a change payload, in the order `_build_change_payload` considers them. */
  const PayloadKeys: seq<string> := ["fields", "summary", "count", "filters", "metadata"]

  /** The position of `key` in `PayloadKeys`, or 5 for any other key. */
  function KeyIndex(key: string): (n: nat)
    ensures n <= 5
    ensures n < 5 ==> PayloadKeys[n] == key
    ensures key in AllowedChangeKeys <==> n < 5
  {
    if key == "fields" then 0
    else if key == "summary" then 1
    else if key == "count" then 2
    else if key == "filters" then 3
    else if key == "metadata" then 4
    else 5
  }

  /** The payload holds exactly the values of the first `n` payload keys. */
  ghost predicate FilledUpTo(
    entries: seq<(string, PyValue)>, n: nat, fields: seq<string>, summary: string, count: Option<int>,
    filters: seq<string>, metadata: string)
  {
    && UniqueKeys(entries)
    && forall key ::
      Get(entries, key) == if KeyIndex(key) < n then PayloadValue(key, fields, summary, count, filters, metadata) else None
  }

  /** Considering the next payload key: keep the dict, or add that key's value. */
  lemma FillStep(
    entries: seq<(string, PyValue)>, n: nat, fields: seq<string>, summary: string, count: Option<int>,
    filters: seq<string>, metadata: string)
    requires n < 5 && FilledUpTo(entries, n, fields, summary, count, filters, metadata)
    ensures
      var next := PayloadValue(PayloadKeys[n], fields, summary, count, filters, metadata);
      && (next.None? ==> FilledUpTo(entries, n + 1, fields, summary, count, filters, metadata))
      && (next.Some? ==> FilledUpTo(entries + [(PayloadKeys[n], next.value)], n + 1, fields, summary, count, filters, metadata))
  {
    var k := PayloadKeys[n];
    var next := PayloadValue(k, fields, summary, count, filters, metadata);
    assert KeyIndex(k) == n;
    if next.Some? {
      AddNewKey(entries, k, next.value);
    }
  }

  /** Once all five keys are considered, the dict is the change payload. */
  lemma FilledIsPayload(
    entries: seq<(string, PyValue)>, fields: seq<string>, summary: string, count: Option<int>,
    filters: seq<string>, metadata: string)
    requires FilledUpTo(entries, 5, fields, summary, count, filters, metadata)
    ensures IsChangePayload(PyDict(entries), fields, summary, count, filters, metadata)
  {
    forall key ensures Get(entries, key) == PayloadValue(key, fields, summary, count, filters, metadata) {
      if KeyIndex(key) == 5 {
        assert key !in AllowedChangeKeys;
      }
    }
  }

  /** `_build_change_payload`: fills the payload one optional key at a time. */
  method BuildChangePayload(
    fields: seq<string>, summary: string, count: Option<int>, filters: seq<string>, metadata: string)
    returns (payload: PyValue)
    ensures IsChangePayload(payload, fields, summary, count, filters, metadata)
  {
    var entries: seq<(string, PyValue)> := [];
    FillStep(entries, 0, fields, summary, count, filters, metadata);
    if |fields| > 0 {
      entries := entries + [("fields", PySet(StrList(Distinct(fields))))];
    }
    assert FilledUpTo(entries, 1, fields, summary, count, filters, metadata);
    FillStep(entries, 1, fields, summary, count, filters, metadata);
    if summary != "" {
      entries := entries + [("summary", PyStr(summary))];
    }
    assert FilledUpTo(entries, 2, fields, summary, count, filters, metadata);
    FillStep(entries, 2, fields, summary, count, filters, metadata);
    if count.Some? {
      entries := entries + [("count", PyInt(count.value))];
    }
    assert FilledUpTo(entries, 3, fields, summary, count, filters, metadata);
    FillStep(entries, 3, fields, summary, count, filters, metadata);
    if |filters| > 0 {
      entries := entries + [("filters", PySet(StrList(Distinct(filters))))];
    }
    assert FilledUpTo(entries, 4, fields, summary, count, filters, metadata);
    FillStep(entries, 4, fields, summary, count, filters, metadata);
    if metadata != "" {
      entries := entries + [("metadata", PyStr(metadata))];
    }
    assert FilledUpTo(entries, 5, fields, summary, count, filters, metadata);
    FilledIsPayload(entries, fields, summary, count, filters, metadata);
    payload := PyDict(entries);
  }

  /**
   * What the recorder keeps of such a payload under `key`: `fields` and
   * `filters` as sorted lists of distinct names, `summary`, `count` and
   * `metadata` as given.
   */
  function StoredValue(
    key: string, fields: seq<string>, summary: string, count: Option<int>,
    filters: seq<string>, metadata: string)
    : (r: Option<PyValue>)
    ensures r.Some? ==> key in AllowedChangeKeys
  {
    if key == "fields" then (if |fields| > 0 then Some(PyList(StrList(SortedDistinct(fields)))) else None)
    else if key == "summary" then (if summary != "" then Some(PyStr(summary)) else None)
    else if key == "count" then (if count.Some? then Some(PyInt(count.value)) else None)
    else if key == "filters" then (if |filters| > 0 then Some(PyList(StrList(SortedDistinct(filters)))) else None)
    else if key == "metadata" then (if metadata != "" then Some(PyStr(metadata)) else None)
    else None
  }

  /** The stored changes of a mixin payload, as a map. */
  function StoredChanges(
    fields: seq<string>, summary: string, count: Option<int>, filters: seq<string>, metadata: string)
    : (m: map<string, PyValue>)
    ensures forall key :: key in m <==> StoredValue(key, fields, summary, count, filters, metadata).Some?
    ensures forall key | key in m :: m[key] == StoredValue(key, fields, summary, count, filters, metadata).value
  {
    map key | key in AllowedChangeKeys && StoredValue(key, fields, summary, count, filters, metadata).Some?
      :: StoredValue(key, fields, summary, count, filters, metadata).value
  }

  /** A payload with only a summary is stored as just that summary. */
  lemma SummaryOnlyStored(summary: string)
    requires summary != ""
    ensures StoredChanges([], summary, None, [], "") == map["summary" := PyStr(summary)]
  {
    var m := StoredChanges([], summary, None, [], "");
    assert StoredValue("summary", [], summary, None, [], "") == Some(PyStr(summary));
    forall key ensures key in m <==> key == "summary" {
    }
  }

  lemma SanitizedStringSet(key: string, xs: seq<string>)
    requires key in ListKeys
    ensures SanitizedValue(key, PySet(StrList(Distinct(xs)))) == Some(PyList(StrList(SortedDistinct(xs))))
  {
    StrAllOfStrList(Distinct(xs));
    SortedDistinctSameElements(Distinct(xs), xs);
  }

  /**
   * The recorder keeps every key of a mixin payload and stores the field
   * and filter sets as sorted lists: key names, never values.
   */
  lemma ChangePayloadStored(
    p: PyValue, fields: seq<string>, summary: string, count: Option<int>,
    filters: seq<string>, metadata: string)
    requires IsChangePayload(p, fields, summary, count, filters, metadata)
    ensures Sanitized(p) == StoredChanges(fields, summary, count, filters, metadata)
  {
    var got := Sanitized(p);
    var want := StoredChanges(fields, summary, count, filters, metadata);
    forall key ensures (key in got <==> key in want) && (key in got ==> got[key] == want[key]) {
      SanitizeEntriesAt(p.entries, key);
      var given := PayloadValue(key, fields, summary, count, filters, metadata);
      assert Get(p.entries, key) == given;
      if given.Some? {
        var i :| 0 <= i < |p.entries| && p.entries[i] == (key, given.value);
        if key == "fields" {
          SanitizedStringSet(key, fields);
        } else if key == "filters" {
          SanitizedStringSet(key, filters);
        }
        assert SanitizedValue(key, given.value) == StoredValue(key, fields, summary, count, filters, metadata);
      }
    }
  }

  // ------------------------------------------------------------ list responses

  /**
   * The count a list response reports: the length of a paginated
   * `results` list, else an integer `count` value (a bool counts as an int
   * in Python, and `int(True)` is 1), else the length of a plain list.
   */
  function ListCount(data: PyValue): (r: Option<int>)
    ensures data.PyList? ==> r == Some(|data.items|)
    ensures data.PyDict? && Get(data.entries, "results").Some? && Get(data.entries, "results").value.PyList? ==>
      r == Some(|Get(data.entries, "results").value.items|)
    ensures data.PyDict? && !(Get(data.entries, "results").Some? && Get(data.entries, "results").value.PyList?) ==>
      match Get(data.entries, "count")
      case Some(PyInt(n)) => r == Some(n)
      case Some(PyBool(b)) => r == Some(if b then 1 else 0)
      case _ => r.None?
    ensures !data.PyDict? && !data.PyList? ==> r.None?
  {
    match data
    case PyDict(entries) =>
      (match Get(entries, "results")
       case Some(PyList(results)) => Some(|results|)
       case _ =>
         (match Get(entries, "count")
          case Some(PyInt(n)) => Some(n)
          case Some(PyBool(b)) => Some(if b then 1 else 0)
          case _ => None))
    case PyList(items) => Some(|items|)
    case _ => None
  }

  // ------------------------------------------------------------ CRUD hooks

  /** The hooks of a viewset that mixes in `AuditLogMixin`, over one recorder connection. */
  class AuditLogMixin {
    const db: Transaction
    const querysetModel: Option<string>
    const serializerModel: Option<string>

    constructor (db: Transaction, querysetModel: Option<string>, serializerModel: Option<string>)
      ensures this.db == db && this.querysetModel == querysetModel && this.serializerModel == serializerModel
    {
      this.db := db;
      this.querysetModel := querysetModel;
      this.serializerModel := serializerModel;
    }

    /** Saves, then logs the saved instance with the validated field names. */
    method SaveAndLog(
      instance: ModelInstance, action: AuditAction, validatedKeys: seq<string>, newPk: PyValue,
      user: Option<User>, request: Option<Request>)
      returns (r: Outcome<MixinError>)
      requires db.Valid()
      modifies instance, db
      ensures db.Valid()
      ensures instance.pk == if old(instance.pk).Some? then old(instance.pk) else Some(newPk)
      ensures r.Fail? <==> instance.modelLabel == ""
      ensures r.Fail? ==> r.error == AuditRejected(ModelNameRequired) && db.State() == old(db.State())
      ensures r.Pass? ==> db.State() == Step(old(db.State()), Write(EntryWith(
        user, action, instance.modelLabel, Some(PyStr(ObjectIdOfPk(instance.pk))), request,
        StoredChanges(validatedKeys, "", None, [], ""))))
    {
      instance.Save(newPk);
      var payload := BuildChangePayload(validatedKeys, "", None, [], "");
      ChangePayloadStored(payload, validatedKeys, "", None, [], "");
      var name := GetAuditModelName(instance, querysetModel, serializerModel);
      assert name.value == instance.modelLabel;
      var objectId := GetAuditObjectId(instance);
      assert objectId == ObjectIdOfPk(instance.pk);
      var logged := db.LogAuditEvent(user, action, name.value, Some(PyStr(objectId)), request, payload);
      assert objectId == ObjectIdOfPk(instance.pk);
      assert logged.Pass? ==> db.State() == Step(old(db.State()), Write(MakeEntry(user, action, instance.modelLabel, Some(PyStr(objectId)), request, payload)));
      r := if logged.Fail? then Fail(AuditRejected(logged.error)) else Pass;
    }

    /** `perform_create`: the entry is written after `save()`, so it names the new key. */
    method PerformCreate(
      instance: ModelInstance, validatedKeys: seq<string>, newPk: PyValue,
      user: Option<User>, request: Option<Request>)
      returns (r: Outcome<MixinError>)
      requires db.Valid()
      modifies instance, db
      ensures db.Valid()
      ensures instance.pk.Some? && (old(instance.pk).None? ==> instance.pk == Some(newPk))
      ensures r.Fail? ==> db.State() == old(db.State())
      ensures r.Pass? ==> db.State() == Step(old(db.State()), Write(EntryWith(
        user, AuditAction.Create, instance.modelLabel, Some(PyStr(ObjectIdOfPk(instance.pk))), request,
        StoredChanges(validatedKeys, "", None, [], ""))))
    {
      r := SaveAndLog(instance, AuditAction.Create, validatedKeys, newPk, user, request);
    }

    /** `perform_update`: logged after `save()` with the updated field names. */
    method PerformUpdate(
      instance: ModelInstance, validatedKeys: seq<string>, newPk: PyValue,
      user: Option<User>, request: Option<Request>)
      returns (r: Outcome<MixinError>)
      requires db.Valid()
      modifies instance, db
      ensures db.Valid()
      ensures old(instance.pk).Some? ==> instance.pk == old(instance.pk)
      ensures r.Fail? ==> db.State() == old(db.State())
      ensures r.Pass? ==> db.State() == Step(old(db.State()), Write(EntryWith(
        user, AuditAction.Update, instance.modelLabel, Some(PyStr(ObjectIdOfPk(instance.pk))), request,
        StoredChanges(validatedKeys, "", None, [], ""))))
    {
      r := SaveAndLog(instance, AuditAction.Update, validatedKeys, newPk, user, request);
    }

    /**
     * `perform_destroy`: the "delete" entry is logged before `delete()`,
     * while the instance still has its key; if logging raises, nothing is
     * deleted.
     */
    method PerformDestroy(instance: ModelInstance, user: Option<User>, request: Option<Request>)
      returns (r: Outcome<MixinError>)
      requires db.Valid()
      modifies instance, db
      ensures db.Valid()
      ensures r.Fail? <==> instance.modelLabel == ""
      ensures r.Fail? ==> instance.pk == old(instance.pk) && db.State() == old(db.State())
      ensures r.Pass? ==> instance.pk == None
      ensures r.Pass? ==> db.State() == Step(old(db.State()), Write(EntryWith(
        user, AuditAction.Delete, instance.modelLabel, Some(PyStr(ObjectIdOfPk(old(instance.pk)))), request,
        map["summary" := PyStr("record deleted")])))
    {
      var objectId := GetAuditObjectId(instance);
      var name := GetAuditModelName(instance, querysetModel, serializerModel);
      var payload := BuildChangePayload([], "record deleted", None, [], "");
      ChangePayloadStored(payload, [], "record deleted", None, [], "");
      SummaryOnlyStored("record deleted");
      var logged := db.LogAuditEvent(user, AuditAction.Delete, name.value, Some(PyStr(objectId)), request, payload);
      if logged.Fail? {
        return Fail(AuditRejected(logged.error));
      }
      instance.Delete();
      r := Pass;
    }

    /** `retrieve`: a "view" entry for the instance when the response status is below 400. */
    method Retrieve(instance: ModelInstance, status: int, user: Option<User>, request: Option<Request>)
      returns (r: Outcome<MixinError>)
      requires db.Valid()
      modifies db
      ensures db.Valid()
      ensures status >= 400 ==> r == Pass && db.State() == old(db.State())
      ensures status < 400 && instance.modelLabel == "" ==> r.Fail? && db.State() == old(db.State())
      ensures status < 400 && instance.modelLabel != "" ==>
        && r == Pass
        && db.State() == Step(old(db.State()), Write(EntryWith(
             user, AuditAction.View, instance.modelLabel, Some(PyStr(ObjectIdOfPk(instance.pk))), request,
             map["summary" := PyStr("record retrieved")])))
    {
      if status >= 400 {
        return Pass;
      }
      var name := GetAuditModelName(instance, querysetModel, serializerModel);
      var payload := BuildChangePayload([], "record retrieved", None, [], "");
      ChangePayloadStored(payload, [], "record retrieved", None, [], "");
      SummaryOnlyStored("record retrieved");
      var logged := db.LogAuditEvent(user, AuditAction.View, name.value, Some(PyStr(GetAuditObjectId(instance))), request, payload);
      r := if logged.Fail? then Fail(AuditRejected(logged.error)) else Pass;
    }

    /**
     * `list`: a "view" entry for the collection (object id `"list"`) when
     * the response status is below 400, with the reported count and the
     * names of the query parameters as filters.
     */
    method List(data: PyValue, status: int, queryParams: seq<string>, user: Option<User>, request: Option<Request>)
      returns (r: Outcome<MixinError>)
      requires db.Valid()
      modifies db
      ensures db.Valid()
      ensures status >= 400 ==> r == Pass && db.State() == old(db.State())
      ensures status < 400 && querysetModel.None? && serializerModel.None? ==>
        r == Fail(ModelNameUnknown) && db.State() == old(db.State())
      ensures status < 400 && GetAuditModelName(null, querysetModel, serializerModel).Ok? ==>
        var name := GetAuditModelName(null, querysetModel, serializerModel).value;
        && (r.Fail? <==> name == "")
        && (r.Fail? ==> db.State() == old(db.State()))
        && (r.Pass? ==> db.State() == Step(old(db.State()), Write(EntryWith(
              user, AuditAction.View, name, Some(PyStr(ListObjectId)), request,
              StoredChanges([], "list retrieved", ListCount(data), queryParams, "")))))
    {
      if status >= 400 {
        return Pass;
      }
      var count := ListCount(data);
      var name := GetAuditModelName(null, querysetModel, serializerModel);
      if name.Err? {
        return Fail(name.error);
      }
      var payload := BuildChangePayload([], "list retrieved", count, queryParams, "");
      ChangePayloadStored(payload, [], "list retrieved", count, queryParams, "");
      var logged := db.LogAuditEvent(user, AuditAction.View, name.value, Some(PyStr(GetAuditObjectId(null))), request, payload);
      assert logged.Pass? ==> db.State() == Step(old(db.State()), Write(MakeEntry(
        user, AuditAction.View, name.value, Some(PyStr(ListObjectId)), request, payload)));
      r := if logged.Fail? then Fail(AuditRejected(logged.error)) else Pass;
    }
  }
}
