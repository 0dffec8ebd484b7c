/** The ingestion dropbox
    src/core-plugins/jupyter-api/1/dss/reporting-plugins/jupyter-uploader-api/dataset-uploader-api.py:
    `process` checks the request, finds the sample, registers a container
    data set and a result and a notebook data set linked to it, and reports
    its status in a table.

    The platform (the registration transaction, its search service and the
    data store's session-workspace service) is a `Transaction` object whose
    searches and data-set codes are given from outside: the model states
    what the script does with their answers. The data sets created in the
    transaction are kept in `created`, and the setters applied to them
    (type, sample, parents, properties) show only there. A ghost log
    records the other calls: the searches, making the sample mutable,
    each `createNewDataSet`, the property changes of a data set found by
    name, and the file preparation, move and deletions. */
module DatasetUploader {
  import opened Wrappers
  import opened UploaderParsing

  /** What the script raises. */
  datatype Failure =
    | UserFailure(message: string)   // UserFailureException
    | TypeError                      // unpacking `None`, iterating `None`, `re.match` on a non-string
    | AttributeError                 // `.get` or `.split` on a value that has no such method
    | IndexError                     // an identifier with fewer than three fields
    | PreparationFailed              // whatever `prepareFilesForRegistration` raises

  datatype Attribute = SpaceAttribute | CodeAttribute

  datatype MatchClause =
    | AttributeMatch(attribute: Attribute, wanted: string)
    | PropertyMatch(propertyCode: string, desired: Value)

  datatype SearchOperator = MatchAllClauses

  /** `SearchCriteria`; `operator` is `None` while the platform default is kept. */
  datatype Criteria = Criteria(clauses: seq<MatchClause>, operator: Option<SearchOperator>)

  /** A sample, by its permanent id. */
  datatype Sample = Sample(permId: string)

  /** A data set the script holds: one the search service found, by its
      code, or the `index`-th one created in this transaction. */
  datatype DataSetHandle = Found(code: string) | Created(index: nat)

  /** A data set created in this transaction: its code (given by the
      platform), its type, its sample, its parent codes and its properties. */
  datatype NewDataSet = NewDataSet(
    code: string,
    typeCode: string,
    sample: Option<Sample>,
    parents: Option<seq<string>>,
    properties: map<string, Option<string>>)

  /** The platform calls the script makes, in order. */
  datatype Call =
    | SearchForSamples(criteria: Criteria)
    | SearchForDataSets(criteria: Criteria)
    | MakeSampleMutable(sample: Sample)
    | CreateNewDataSet(typeCode: string)
    | SetPropertyOfFound(code: string, key: string, value: Option<string>)
    | PrepareFiles(fileNames: seq<string>, folderName: string)
    | MoveFile(source: string, target: DataSetHandle)
    | DeleteSessionWorkspaceFile(sessionToken: Value, fileName: string)

  class Transaction {
    /** What the search service answers. */
    const sampleSearch: Criteria -> seq<Sample>
    const dataSetSearch: Criteria -> seq<string>
    /** The code the platform gives the `n`-th data set created. */
    const newCode: nat -> string
    var created: seq<NewDataSet>
    ghost var log: seq<Call>

    constructor (sampleSearch: Criteria -> seq<Sample>, dataSetSearch: Criteria -> seq<string>, newCode: nat -> string)
      ensures this.sampleSearch == sampleSearch && this.dataSetSearch == dataSetSearch && this.newCode == newCode
      ensures created == [] && log == []
    {
      this.sampleSearch := sampleSearch;
      this.dataSetSearch := dataSetSearch;
      this.newCode := newCode;
      created := [];
      log := [];
    }

    predicate IsHandle(h: DataSetHandle)
      reads this
    {
      h.Created? ==> h.index < |created|
    }

    /** `getDataSetCode()` */
    function DataSetCode(h: DataSetHandle): string
      reads this
      requires IsHandle(h)
    {
      match h
      case Found(code) => code
      case Created(i) => created[i].code
    }

    /** `getSearchService().searchForSamples(criteria)` */
    method SearchForSamples(criteria: Criteria) returns (found: seq<Sample>)
      modifies this
      ensures found == sampleSearch(criteria)
      ensures log == old(log) + [Call.SearchForSamples(criteria)] && created == old(created)
    {
      found := sampleSearch(criteria);
      log := log + [Call.SearchForSamples(criteria)];
    }

    /** `getSearchService().searchForDataSets(criteria)`, as data set codes. */
    method SearchForDataSets(criteria: Criteria) returns (found: seq<string>)
      modifies this
      ensures found == dataSetSearch(criteria)
      ensures log == old(log) + [Call.SearchForDataSets(criteria)] && created == old(created)
    {
      found := dataSetSearch(criteria);
      log := log + [Call.SearchForDataSets(criteria)];
    }

    /** `makeSampleMutable(sample)` */
    method MakeSampleMutable(sample: Sample) returns (mutable: Sample)
      modifies this
      ensures mutable == sample
      ensures log == old(log) + [Call.MakeSampleMutable(sample)] && created == old(created)
    {
      mutable := sample;
      log := log + [Call.MakeSampleMutable(sample)];
    }

    /** `createNewDataSet(typeCode)` */
    method CreateNewDataSet(typeCode: string) returns (h: DataSetHandle)
      modifies this
      ensures h == Created(|old(created)|)
      ensures created == old(created) + [NewDataSet(newCode(|old(created)|), typeCode, None, None, map[])]
      ensures log == old(log) + [Call.CreateNewDataSet(typeCode)]
    {
      h := Created(|created|);
      created := created + [NewDataSet(newCode(|created|), typeCode, None, None, map[])];
      log := log + [Call.CreateNewDataSet(typeCode)];
    }

    /** `setSample(sample)` on a data set created in this transaction. */
    method SetSample(i: nat, sample: Sample)
      requires i < |created|
      modifies this
      ensures created == old(created)[i := old(created)[i].(sample := Some(sample))]
      ensures log == old(log)
    {
      created := created[i := created[i].(sample := Some(sample))];
    }

    /** `setParentDatasets(codes)` on a data set created in this transaction. */
    method SetParentDatasets(i: nat, codes: Option<seq<string>>)
      requires i < |created|
      modifies this
      ensures created == old(created)[i := old(created)[i].(parents := codes)]
      ensures log == old(log)
    {
      created := created[i := created[i].(parents := codes)];
    }

    /** `setPropertyValue(key, value)`: recorded on a data set created here,
        passed on to the platform for a data set that was found. */
    method SetPropertyValue(h: DataSetHandle, key: string, value: Option<string>)
      requires IsHandle(h)
      modifies this
      ensures h.Created? ==>
                && created == old(created)[h.index := old(created)[h.index].(properties := old(created)[h.index].properties[key := value])]
                && log == old(log)
      ensures h.Found? ==> created == old(created) && log == old(log) + [Call.SetPropertyOfFound(h.code, key, value)]
    {
      match h
      case Created(i) =>
        created := created[i := created[i].(properties := created[i].properties[key := value])];
      case Found(code) =>
        log := log + [Call.SetPropertyOfFound(code, key, value)];
    }

    /** Where `prepareFilesForRegistration` runs. The step itself is not
        part of this model: `prepared` is what it gives, the directory it
        returns or `None` when it raises. */
    method PrepareFiles(fileNames: seq<string>, folderName: string, prepared: Option<string>) returns (r: Result<string, Failure>)
      modifies this
      ensures prepared == None ==> r == Failure(PreparationFailed)
      ensures prepared != None ==> r == Success(prepared.value)
      ensures log == old(log) + [Call.PrepareFiles(fileNames, folderName)] && created == old(created)
    {
      r := if prepared == None then Failure(PreparationFailed) else Success(prepared.value);
      log := log + [Call.PrepareFiles(fileNames, folderName)];
    }

    /** `moveFile(source, dataSet)` */
    method MoveFile(source: string, target: DataSetHandle)
      modifies this
      ensures log == old(log) + [Call.MoveFile(source, target)] && created == old(created)
    {
      log := log + [Call.MoveFile(source, target)];
    }

    /** `deleteSessionWorkspaceFile(sessionToken, fileName)` of the data store service. */
    method DeleteSessionWorkspaceFile(sessionToken: Value, fileName: string)
      modifies this
      ensures log == old(log) + [Call.DeleteSessionWorkspaceFile(sessionToken, fileName)] && created == old(created)
    {
      log := log + [Call.DeleteSessionWorkspaceFile(sessionToken, fileName)];
    }
  }

  /** The status table the script fills: its headers and its rows, each a
      map from header to cell. */
  class TableBuilder {
    var headers: seq<string>
    var rows: seq<map<string, Option<string>>>

    constructor ()
      ensures headers == [] && rows == []
    {
      headers := [];
      rows := [];
    }

    method AddHeader(header: string)
      modifies this
      ensures headers == old(headers) + [header] && rows == old(rows)
    {
      headers := headers + [header];
    }

    method AddRow() returns (i: nat)
      modifies this
      ensures i == |old(rows)| && rows == old(rows) + [map[]] && headers == old(headers)
    {
      i := |rows|;
      rows := rows + [map[]];
    }

    method SetCell(i: nat, header: string, value: Option<string>)
      requires i < |rows|
      modifies this
      ensures rows == old(rows)[i := old(rows)[i][header := value]] && headers == old(headers)
    {
      rows := rows[i := rows[i][header := value]];
    }
  }

  // ---- the checks before any lookup ----

  /** The parameters `process` requires, in the order it checks them. */
  const MandatoryParameters: seq<string> := ["sample", "container", "sessionToken"]

  function MissingParameterMessage(name: string): string {
    "mandatory parameter " + name + " is missing"
  }

  const MissingIdentifierMessage: string := "mandatory parameter sample[\"identifier\"] is missing"

  /** The position of the first of `names[from..]` whose parameter is `None`. */
  function FirstMissing(params: map<string, Value>, names: seq<string>, from: nat): (r: Option<nat>)
    requires from <= |names|
    ensures r == None <==> forall i :: from <= i < |names| ==> Get(params, names[i]) != Null
    ensures r != None ==>
              && from <= r.value < |names|
              && Get(params, names[r.value]) == Null
              && forall i :: from <= i < r.value ==> Get(params, names[i]) != Null
    decreases |names| - from
  {
    if from == |names| then None
    else if Get(params, names[from]) == Null then Some(from)
    else FirstMissing(params, names, from + 1)
  }

  /** The loop `for param in ('sample', 'container', 'sessionToken')`:
      rejects the first missing parameter, naming it. */
  method CheckMandatory(params: map<string, Value>) returns (r: Outcome<Failure>)
    ensures FirstMissing(params, MandatoryParameters, 0) == None ==> r == Pass
    ensures FirstMissing(params, MandatoryParameters, 0) != None ==>
              r == Fail(UserFailure(MissingParameterMessage(MandatoryParameters[FirstMissing(params, MandatoryParameters, 0).value])))
  {
    var i := 0;
    while i < |MandatoryParameters|
      invariant 0 <= i <= |MandatoryParameters|
      invariant forall j :: 0 <= j < i ==> Get(params, MandatoryParameters[j]) != Null
    {
      var name := MandatoryParameters[i];
      if Get(params, name) == Null {
        return Fail(UserFailure(MissingParameterMessage(name)));
      }
      i := i + 1;
    }
    return Pass;
  }

  /** The session token unpacks into (username, session id): it is a
      string and the split finds a dash. */
  predicate IsSplittableToken(token: Value) {
    token.Text? && UsernameSessionId(token.s) != None
  }

  /** Everything `process` checks before its first platform call, in its
      order: the mandatory parameters, the session-token split, the
      sample's identifier. On success, the identifier. */
  function Precheck(params: map<string, Value>): (r: Result<string, Failure>)
    ensures FirstMissing(params, MandatoryParameters, 0) != None ==>
              r == Failure(UserFailure(MissingParameterMessage(MandatoryParameters[FirstMissing(params, MandatoryParameters, 0).value])))
    ensures FirstMissing(params, MandatoryParameters, 0) == None && !IsSplittableToken(Get(params, "sessionToken")) ==>
              r == Failure(TypeError)
    ensures r.Success? ==>
              && (forall i :: 0 <= i < |MandatoryParameters| ==> Get(params, MandatoryParameters[i]) != Null)
              && IsSplittableToken(Get(params, "sessionToken"))
              && Get(params, "sample").Dict?
              && Get(Get(params, "sample").entries, "identifier") == Text(r.value)
    ensures FirstMissing(params, MandatoryParameters, 0) == None && IsSplittableToken(Get(params, "sessionToken")) ==>
              && (!Get(params, "sample").Dict? ==> r == Failure(AttributeError))
              && (Get(params, "sample").Dict? && Get(Get(params, "sample").entries, "identifier") == Null ==>
                    r == Failure(UserFailure(MissingIdentifierMessage)))
  {
    match FirstMissing(params, MandatoryParameters, 0)
    case Some(k) => Failure(UserFailure(MissingParameterMessage(MandatoryParameters[k])))
    case None =>
      if !IsSplittableToken(Get(params, "sessionToken")) then Failure(TypeError)
      else
        var sample := Get(params, "sample");
        if !sample.Dict? then Failure(AttributeError)
        else
          var identifier := Get(sample.entries, "identifier");
          if identifier == Null then Failure(UserFailure(MissingIdentifierMessage))
          else if !identifier.Text? then Failure(AttributeError)
          else Success(identifier.s)
  }

  /** The mandatory parameters are checked in the order sample, container,
      sessionToken, and the first missing one is named. */
  lemma MandatoryOrder(params: map<string, Value>)
    ensures Get(params, "sample") == Null ==>
              Precheck(params) == Failure(UserFailure(MissingParameterMessage("sample")))
    ensures Get(params, "sample") != Null && Get(params, "container") == Null ==>
              Precheck(params) == Failure(UserFailure(MissingParameterMessage("container")))
    ensures Get(params, "sample") != Null && Get(params, "container") != Null && Get(params, "sessionToken") == Null ==>
              Precheck(params) == Failure(UserFailure(MissingParameterMessage("sessionToken")))
  {
    if Get(params, "sample") == Null {
      MissingAt(params, 0);
    } else if Get(params, "container") == Null {
      MissingAt(params, 1);
    } else if Get(params, "sessionToken") == Null {
      MissingAt(params, 2);
    }
  }

  /** When the `k`-th mandatory parameter is the first one missing, the
      checks fail naming it. */
  lemma MissingAt(params: map<string, Value>, k: nat)
    requires k < |MandatoryParameters| && Get(params, MandatoryParameters[k]) == Null
    requires forall i :: 0 <= i < k ==> Get(params, MandatoryParameters[i]) != Null
    ensures Precheck(params) == Failure(UserFailure(MissingParameterMessage(MandatoryParameters[k])))
  {
    assert FirstMissing(params, MandatoryParameters, 0) == Some(k);
  }

  /** A request passes the checks exactly when it has a container, a
      session token that splits, and a sample map whose identifier is a
      string. */
  lemma PrecheckSucceedsIff(params: map<string, Value>)
    ensures Precheck(params).Success? <==>
              && Get(params, "container") != Null
              && IsSplittableToken(Get(params, "sessionToken"))
              && Get(params, "sample").Dict?
              && Get(Get(params, "sample").entries, "identifier").Text?
  {
    assert MandatoryParameters[0] == "sample" && MandatoryParameters[1] == "container" && MandatoryParameters[2] == "sessionToken";
  }

  // ---- the lookups ----

  function SampleCriteria(space: string, code: string): Criteria {
    Criteria([AttributeMatch(SpaceAttribute, space), AttributeMatch(CodeAttribute, code)], Some(MatchAllClauses))
  }

  /** The property holding a container's name. */
  const ContainerNameProperty: string := "NAME"

  function NameCriteria(name: Value): Criteria {
    Criteria([PropertyMatch(ContainerNameProperty, name)], None)
  }

  function PermIdCriteria(permId: string): Criteria {
    Criteria([AttributeMatch(CodeAttribute, permId)], None)
  }

  /** `sample` is the one hit of the search for the identifier's space
      and code. */
  predicate IsSampleOf(search: Criteria -> seq<Sample>, identifier: string, sample: Sample) {
    && SpaceAndCode(identifier) != None
    && search(SampleCriteria(SpaceAndCode(identifier).value.0, SpaceAndCode(identifier).value.1)) == [sample]
  }

  /** `getSampleByIdentifier(transaction, identifier)`: the one sample in
      the identifier's space with its code, made mutable; raises when the
      identifier has fewer than three fields (before searching) or when the
      search does not find exactly one sample. */
  method GetSampleByIdentifier(tr: Transaction, identifier: string) returns (r: Result<Sample, Failure>)
    modifies tr
    ensures tr.created == old(tr.created)
    ensures SpaceAndCode(identifier) == None ==> r == Failure(IndexError) && tr.log == old(tr.log)
    ensures SpaceAndCode(identifier) != None ==>
              var criteria := SampleCriteria(SpaceAndCode(identifier).value.0, SpaceAndCode(identifier).value.1);
              var found := tr.sampleSearch(criteria);
              && (|found| == 1 ==>
                    r == Success(found[0])
                    && tr.log == old(tr.log) + [Call.SearchForSamples(criteria), Call.MakeSampleMutable(found[0])])
              && (|found| != 1 ==>
                    r == Failure(UserFailure(identifier + "Not found by search service."))
                    && tr.log == old(tr.log) + [Call.SearchForSamples(criteria)])
    ensures r.Success? ==> IsSampleOf(tr.sampleSearch, identifier, r.value)
  {
    var spaceAndCode := SpaceAndCode(identifier);
    if spaceAndCode == None {
      return Failure(IndexError);
    }
    var (space, code) := spaceAndCode.value;
    var found := tr.SearchForSamples(SampleCriteria(space, code));
    if |found| == 1 {
      var sample := tr.MakeSampleMutable(found[0]);
      r := Success(sample);
    } else {
      r := Failure(UserFailure(identifier + "Not found by search service."));
    }
  }

  /** `get_dataset_for_name(transaction, name)`: the code of the one data
      set whose NAME property is `name`, or `None`. */
  method GetDataSetForName(tr: Transaction, name: Value) returns (r: Option<string>)
    modifies tr
    ensures r == ExactlyOne(tr.dataSetSearch(NameCriteria(name)))
    ensures tr.log == old(tr.log) + [Call.SearchForDataSets(NameCriteria(name))] && tr.created == old(tr.created)
  {
    var found := tr.SearchForDataSets(NameCriteria(name));
    r := if |found| == 1 then Some(found[0]) else None;
  }

  /** `get_dataset_for_permid(transaction, permid)`: the code of the one
      data set with that code, or `None`. */
  method GetDataSetForPermId(tr: Transaction, permId: string) returns (r: Option<string>)
    modifies tr
    ensures r == ExactlyOne(tr.dataSetSearch(PermIdCriteria(permId)))
    ensures tr.log == old(tr.log) + [Call.SearchForDataSets(PermIdCriteria(permId))] && tr.created == old(tr.created)
  {
    var found := tr.SearchForDataSets(PermIdCriteria(permId));
    r := if |found| == 1 then Some(found[0]) else None;
  }

  // ---- registration ----

  /** The parent codes `setParentDatasets` receives from the `parents`
      parameter: none, or a list of codes; anything else is refused. */
  function ParentCodes(v: Value): Result<Option<seq<string>>, Failure> {
    match v
    case Null => Success(None)
    case Items(elems, _) =>
      if forall i :: 0 <= i < |elems| ==> elems[i].Text? then
        Success(Some(seq(|elems|, i requires 0 <= i < |elems| && elems[i].Text? => elems[i].s)))
      else Failure(TypeError)
    case _ => Failure(TypeError)
  }

  /** The properties `registerContainer` sets for the keys `keys` of the
      container map: for each key, the value of the TOP-LEVEL parameter of
      that name (the script reads `parameters.get(key)`, not the container
      map), as `PropertyValueOf` stores it. */
  function ContainerProperties(params: map<string, Value>, keys: set<string>): (props: map<string, Option<string>>)
    ensures props.Keys == keys
  {
    map key | key in keys :: PropertyValueOf(Get(params, key))
  }

  /** A container key with no top-level parameter of that name is stored
      as the text "None", even when the container map gives it a value; a
      key whose top-level parameter is the empty string is stored as `None`;
      any other text is stored as it is. */
  lemma ContainerPropertyQuirk(params: map<string, Value>, keys: set<string>, key: string, s: string)
    requires key in keys
    ensures key !in params ==> ContainerProperties(params, keys)[key] == Some("None")
    ensures key in params && params[key] == Text("") ==> ContainerProperties(params, keys)[key] == None
    ensures key in params && params[key] == Text(s) && s != "" ==> ContainerProperties(params, keys)[key] == Some(s)
  {
  }

  /** The calls that set the properties of a found container: one call for
      each key, in some order, each with the value `PropertyValueOf` gives. */
  ghost predicate SetsEachKeyOnce(calls: seq<Call>, code: string, keys: set<string>, params: map<string, Value>) {
    && |calls| == |keys|
    && (forall i :: 0 <= i < |calls| ==>
          && calls[i].SetPropertyOfFound?
          && calls[i].code == code
          && calls[i].key in keys
          && calls[i].value == PropertyValueOf(Get(params, calls[i].key)))
    && (forall i, j :: 0 <= i < j < |calls| ==> calls[i].key != calls[j].key)
  }

  lemma SetsEachKeyOnceExtend(calls: seq<Call>, code: string, done: set<string>, key: string, params: map<string, Value>)
    requires SetsEachKeyOnce(calls, code, done, params) && key !in done
    ensures SetsEachKeyOnce(calls + [Call.SetPropertyOfFound(code, key, PropertyValueOf(Get(params, key)))], code, done + {key}, params)
  {
  }

  lemma ContainerPropertiesExtend(base: map<string, Option<string>>, params: map<string, Value>, done: set<string>, key: string)
    ensures base + ContainerProperties(params, done + {key}) == (base + ContainerProperties(params, done))[key := PropertyValueOf(Get(params, key))]
  {
  }

  /** The loop `for key in parameters.get("container").keySet()` on a data
      set created in this transaction: the properties end up holding one
      entry per key. */
  method SetPropertiesOfCreated(tr: Transaction, i: nat, keys: set<string>, params: map<string, Value>)
    requires i < |tr.created|
    modifies tr
    ensures tr.log == old(tr.log)
    ensures tr.created == old(tr.created)[i := old(tr.created)[i].(properties :=
              old(tr.created)[i].properties + ContainerProperties(params, keys))]
  {
    ghost var before := tr.created[i];
    var remaining := keys;
    ghost var done: set<string> := {};
    ghost var props := before.properties;
    assert ContainerProperties(params, done) == map[];
    while remaining != {}
      invariant done + remaining == keys && done !! remaining
      invariant props == before.properties + ContainerProperties(params, done)
      invariant tr.log == old(tr.log)
      invariant |tr.created| == |old(tr.created)| && tr.created[i] == before.(properties := props)
      invariant forall j :: 0 <= j < |tr.created| && j != i ==> tr.created[j] == old(tr.created)[j]
      decreases remaining
    {
      var key :| key in remaining;
      var value := PropertyValueOf(Get(params, key));
      tr.SetPropertyValue(Created(i), key, value);
      ContainerPropertiesExtend(before.properties, params, done, key);
      remaining := remaining - {key};
      done := done + {key};
      props := props[key := value];
    }
    assert done == keys;
    assert tr.created == old(tr.created)[i := before.(properties := props)];
  }

  /** The same loop on a data set the search found: one call per key, each
      passed on to the platform. */
  method SetPropertiesOfFound(tr: Transaction, code: string, keys: set<string>, params: map<string, Value>)
    modifies tr
    ensures tr.created == old(tr.created)
    ensures |tr.log| >= |old(tr.log)| && tr.log[..|old(tr.log)|] == old(tr.log)
    ensures SetsEachKeyOnce(tr.log[|old(tr.log)|..], code, keys, params)
  {
    var remaining := keys;
    ghost var done: set<string> := {};
    ghost var calls: seq<Call> := [];
    while remaining != {}
      invariant done + remaining == keys && done !! remaining
      invariant tr.created == old(tr.created)
      invariant tr.log == old(tr.log) + calls
      invariant SetsEachKeyOnce(calls, code, done, params)
      decreases |remaining|
    {
      var key :| key in remaining;
      var value := PropertyValueOf(Get(params, key));
      tr.SetPropertyValue(Found(code), key, value);
      SetsEachKeyOnceExtend(calls, code, done, key, params);
      calls := calls + [Call.SetPropertyOfFound(code, key, value)];
      remaining := remaining - {key};
      done := done + {key};
    }
    assert tr.log[|old(tr.log)|..] == calls;
  }

  /** `registerContainer(transaction, sample, parameters)`: reuses the data
      set named like the container when exactly one exists; otherwise
      creates a JUPYTER_CONTAINER data set for the sample with the given
      parents. Then it sets one property per key of the container map.
      It fails as `ContainerError` states; the data sets it leaves are
      those `CreatesContainer` states and its calls those `LogsContainer`
      states. */
  method RegisterContainer(tr: Transaction, sample: Sample, params: map<string, Value>) returns (r: Result<DataSetHandle, Failure>)
    modifies tr
    ensures !Get(params, "container").Dict? ==>
              r == Failure(AttributeError) && tr.log == old(tr.log) && tr.created == old(tr.created)
    ensures Get(params, "container").Dict? && ExistingContainer(tr.dataSetSearch, params) != None ==>
              r == Success(Found(ExistingContainer(tr.dataSetSearch, params).value))
    ensures r.Raised() == ContainerError(tr.dataSetSearch, params)
    ensures Get(params, "container").Dict? ==> LogsContainer(tr.dataSetSearch, params, old(tr.log), tr.log)
    ensures r.Success? ==> tr.IsHandle(r.value)
    ensures r.Success? ==> CreatesContainer(tr.dataSetSearch, tr.newCode, old(tr.created), tr.created, sample, params, tr.DataSetCode(r.value))
  {
    var containerParam := Get(params, "container");
    if !containerParam.Dict? {
      return Failure(AttributeError);
    }
    var keys := containerParam.entries.Keys;
    var found := GetDataSetForName(tr, Get(containerParam.entries, "name"));
    if found != None {
      SetPropertiesOfFound(tr, found.value, keys, params);
      return Success(Found(found.value));
    }
    var container := tr.CreateNewDataSet("JUPYTER_CONTAINER");
    tr.SetSample(container.index, sample);
    var parents := ParentCodes(Get(params, "parents"));
    if parents.Failure? {
      return Failure(TypeError);
    }
    tr.SetParentDatasets(container.index, parents.value);
    SetPropertiesOfCreated(tr, container.index, keys, params);
    assert map[] + ContainerProperties(params, keys) == ContainerProperties(params, keys);
    r := Success(container);
  }

  /** The file names the script iterates for a `fileNames` parameter: a
      list of names, or, for a single string, its characters one by one. */
  function FileNames(v: Value): (r: Result<seq<string>, Failure>)
    ensures v.Items? && (forall i :: 0 <= i < |v.elems| ==> v.elems[i].Text?) ==>
              r.Success? && |r.value| == |v.elems| && forall i :: 0 <= i < |v.elems| ==> r.value[i] == v.elems[i].s
    ensures v.Text? ==> r.Success? && |r.value| == |v.s| && forall i :: 0 <= i < |v.s| ==> r.value[i] == [v.s[i]]
    ensures v.Null? ==> r == Failure(TypeError)
  {
    match v
    case Text(s) => Success(seq(|s|, i requires 0 <= i < |s| => [s[i]]))
    case Items(elems, _) =>
      if forall i :: 0 <= i < |elems| ==> elems[i].Text? then
        Success(seq(|elems|, i requires 0 <= i < |elems| && elems[i].Text? => elems[i].s))
      else Failure(TypeError)
    case _ => Failure(TypeError)
  }

  /** The calls that empty the session workspace of the files `names`. */
  function DeleteCalls(sessionToken: Value, names: seq<string>): (calls: seq<Call>)
    ensures |calls| == |names|
  {
    seq(|names|, i requires 0 <= i < |names| => Call.DeleteSessionWorkspaceFile(sessionToken, names[i]))
  }

  /** `registerResultFiles(transaction, sample, container, parameters)`:
      creates a JUPYTER_RESULT data set of the sample whose only parent is
      the container, moves the prepared files (the directory `prepared`
      holds, unless preparing them raised) into it and deletes each file
      from the session workspace. */
  method RegisterResultFiles(tr: Transaction, sample: Sample, container: DataSetHandle, params: map<string, Value>, prepared: Option<string>)
    returns (r: Result<DataSetHandle, Failure>)
    requires tr.IsHandle(container)
    modifies tr
    ensures |tr.created| == |old(tr.created)| + 1
    ensures tr.created == old(tr.created) + [NewDataSet(tr.newCode(|old(tr.created)|), "JUPYTER_RESULT", Some(sample),
                                                        Some([old(tr.DataSetCode(container))]), map[])]
    ensures !Get(params, "result").Dict? ==>
              r == Failure(AttributeError) && tr.log == old(tr.log) + [Call.CreateNewDataSet("JUPYTER_RESULT")]
    ensures Get(params, "result").Dict? && FileNames(Get(Get(params, "result").entries, "fileNames")).Failure? ==>
              r == Failure(TypeError) && tr.log == old(tr.log) + [Call.CreateNewDataSet("JUPYTER_RESULT")]
    ensures Get(params, "result").Dict? && FileNames(Get(Get(params, "result").entries, "fileNames")).Success? && prepared == None ==>
              var names := FileNames(Get(Get(params, "result").entries, "fileNames")).value;
              && r == Failure(PreparationFailed)
              && tr.log == old(tr.log) + [Call.CreateNewDataSet("JUPYTER_RESULT"), Call.PrepareFiles(names, "results")]
    ensures Get(params, "result").Dict? && FileNames(Get(Get(params, "result").entries, "fileNames")).Success? && prepared != None ==>
              var names := FileNames(Get(Get(params, "result").entries, "fileNames")).value;
              && r == Success(Created(|old(tr.created)|))
              && tr.log == old(tr.log)
                           + [Call.CreateNewDataSet("JUPYTER_RESULT"), Call.PrepareFiles(names, "results"),
                              Call.MoveFile(prepared.value, Created(|old(tr.created)|))]
                           + DeleteCalls(Get(params, "sessionToken"), names)
    ensures r.Success? ==> tr.IsHandle(r.value)
  {
    var code := tr.DataSetCode(container);
    var dataSet := tr.CreateNewDataSet("JUPYTER_RESULT");
    tr.SetSample(dataSet.index, sample);
    tr.SetParentDatasets(dataSet.index, Some([code]));
    var resultParam := Get(params, "result");
    if !resultParam.Dict? {
      return Failure(AttributeError);
    }
    var files := FileNames(Get(resultParam.entries, "fileNames"));
    if files.Failure? {
      return Failure(TypeError);
    }
    var names := files.value;
    var dir := tr.PrepareFiles(names, "results", prepared);
    if dir.Failure? {
      return Failure(dir.error);
    }
    var sessionToken := Get(params, "sessionToken");
    tr.MoveFile(dir.value, dataSet);
    ghost var logMoved := tr.log;
    var i := 0;
    while i < |names|
      invariant 0 <= i <= |names|
      invariant tr.created == old(tr.created) + [NewDataSet(tr.newCode(|old(tr.created)|), "JUPYTER_RESULT", Some(sample), Some([code]), map[])]
      invariant tr.log == logMoved + DeleteCalls(sessionToken, names[..i])
    {
      tr.DeleteSessionWorkspaceFile(sessionToken, names[i]);
      assert DeleteCalls(sessionToken, names[..i + 1]) == DeleteCalls(sessionToken, names[..i]) + [Call.DeleteSessionWorkspaceFile(sessionToken, names[i])];
      i := i + 1;
    }
    assert names[..i] == names;
    r := Success(dataSet);
  }

  /** A value `for file in files: pass` can iterate. */
  predicate IsIterable(v: Value) {
    v.Text? || v.Items? || v.Dict?
  }

  /** `registerNotebook(transaction, sample, container, parameters)`:
      creates a JUPYTER_NOTEBOOK data set of the sample whose only parent
      is the container. Its file names are iterated and nothing else is
      done with them. */
  method RegisterNotebook(tr: Transaction, sample: Sample, container: DataSetHandle, params: map<string, Value>)
    returns (r: Result<DataSetHandle, Failure>)
    requires tr.IsHandle(container)
    modifies tr
    ensures tr.created == old(tr.created) + [NewDataSet(tr.newCode(|old(tr.created)|), "JUPYTER_NOTEBOOK", Some(sample),
                                                        Some([old(tr.DataSetCode(container))]), map[])]
    ensures tr.log == old(tr.log) + [Call.CreateNewDataSet("JUPYTER_NOTEBOOK")]
    ensures !Get(params, "notebook").Dict? ==> r == Failure(AttributeError)
    ensures Get(params, "notebook").Dict? ==>
              r == (if IsIterable(Get(Get(params, "notebook").entries, "fileNames")) then Success(Created(|old(tr.created)|))
                    else Failure(TypeError))
    ensures r.Success? ==> tr.IsHandle(r.value)
  {
    var code := tr.DataSetCode(container);
    var dataSet := tr.CreateNewDataSet("JUPYTER_NOTEBOOK");
    tr.SetSample(dataSet.index, sample);
    tr.SetParentDatasets(dataSet.index, Some([code]));
    var notebookParam := Get(params, "notebook");
    if !notebookParam.Dict? {
      return Failure(AttributeError);
    }
    if !IsIterable(Get(notebookParam.entries, "fileNames")) {
      return Failure(TypeError);
    }
    r := Success(dataSet);
  }

  // ---- process ----

  const StatusHeader: string := "STATUS"
  const MessageHeader: string := "MESSAGE"
  const ResultHeader: string := "RESULT"

  /** The row of a successful registration. */
  const SuccessRow: map<string, Option<string>> :=
    map[StatusHeader := Some("OK"), MessageHeader := Some("Dataset registration successful"), ResultHeader := None]

  /** The checks `process` makes before its first platform call, in its
      order: the mandatory parameters, the session-token split, the
      sample's identifier. */
  method CheckRequest(params: map<string, Value>) returns (r: Result<string, Failure>)
    ensures r == Precheck(params)
  {
    var mandatory := CheckMandatory(params);
    if mandatory.Fail? {
      return Failure(mandatory.error);
    }
    var sessionToken := Get(params, "sessionToken");
    if !IsSplittableToken(sessionToken) {
      return Failure(TypeError);
    }
    var sampleParam := Get(params, "sample");
    if !sampleParam.Dict? {
      return Failure(AttributeError);
    }
    var identifier := Get(sampleParam.entries, "identifier");
    if identifier == Null {
      return Failure(UserFailure(MissingIdentifierMessage));
    }
    if !identifier.Text? {
      return Failure(AttributeError);
    }
    r := Success(identifier.s);
  }

  /** The three headers and the one row of a successful registration. */
  method ReportSuccess(table: TableBuilder)
    modifies table
    ensures table.headers == old(table.headers) + [StatusHeader, MessageHeader, ResultHeader]
    ensures table.rows == old(table.rows) + [SuccessRow]
  {
    table.AddHeader(StatusHeader);
    table.AddHeader(MessageHeader);
    table.AddHeader(ResultHeader);
    var row := table.AddRow();
    table.SetCell(row, StatusHeader, Some("OK"));
    table.SetCell(row, MessageHeader, Some("Dataset registration successful"));
    table.SetCell(row, ResultHeader, None);
  }

  /** The data set `registerContainer` reuses: the one hit of the search
      for the container's name, if there is exactly one. */
  function ExistingContainer(search: Criteria -> seq<string>, params: map<string, Value>): Option<string>
    requires Get(params, "container").Dict?
  {
    ExactlyOne(search(NameCriteria(Get(Get(params, "container").entries, "name"))))
  }

  /** What the three registrations leave behind, going from the data sets
      `before` to `after`. When no container of that name exists, a
      JUPYTER_CONTAINER data set of the sample comes first, with the given
      parents and the container properties. Then come a JUPYTER_RESULT and
      a JUPYTER_NOTEBOOK data set of the sample, each with the container as
      its only parent, and nothing else is created. `containerCode` is the
      code of the data set found by name, or of the one created. */
  predicate RegistersAll(search: Criteria -> seq<string>, newCode: nat -> string, before: seq<NewDataSet>, after: seq<NewDataSet>,
                         sample: Sample, params: map<string, Value>, containerCode: string)
  {
    && Get(params, "container").Dict?
    && var n := |before|;
       var existing := ExistingContainer(search, params);
       var k := if existing != None then n else n + 1;
       && containerCode == (if existing != None then existing.value else newCode(n))
       && |after| == k + 2
       && after[..n] == before
       && (existing == None ==>
             && ParentCodes(Get(params, "parents")).Success?
             && after[n] == NewDataSet(newCode(n), "JUPYTER_CONTAINER", Some(sample), ParentCodes(Get(params, "parents")).value,
                                       ContainerProperties(params, Get(params, "container").entries.Keys)))
       && after[k] == NewDataSet(newCode(k), "JUPYTER_RESULT", Some(sample), Some([containerCode]), map[])
       && after[k + 1] == NewDataSet(newCode(k + 1), "JUPYTER_NOTEBOOK", Some(sample), Some([containerCode]), map[])
  }

  /** The failure of the result registration, in the order the script
      meets them, or `None` when it succeeds: a result that is not a map or
      whose file names cannot be iterated, preparing the files raising. */
  function ResultFilesError(params: map<string, Value>, prepared: Option<string>): Option<Failure> {
    var result := Get(params, "result");
    if !result.Dict? then Some(AttributeError)
    else if FileNames(Get(result.entries, "fileNames")).Failure? then Some(TypeError)
    else if prepared == None then Some(PreparationFailed)
    else None
  }

  /** The failure of the result and notebook registrations, or `None` when
      both succeed: what `ResultFilesError` names, then a notebook that is
      not a map or whose file names cannot be iterated. */
  function ResultNotebookError(params: map<string, Value>, prepared: Option<string>): Option<Failure> {
    var notebook := Get(params, "notebook");
    if ResultFilesError(params, prepared) != None then ResultFilesError(params, prepared)
    else if !notebook.Dict? then Some(AttributeError)
    else if !IsIterable(Get(notebook.entries, "fileNames")) then Some(TypeError)
    else None
  }

  /** The failure of the container registration, or `None` when it
      succeeds: a container that is not a map, or parents that are not a
      list for a container that has to be created. */
  function ContainerError(search: Criteria -> seq<string>, params: map<string, Value>): Option<Failure> {
    if !Get(params, "container").Dict? then Some(AttributeError)
    else if ExistingContainer(search, params) == None && ParentCodes(Get(params, "parents")).Failure? then Some(TypeError)
    else None
  }

  /** The failure of the three registrations, in the order the script meets
      them, or `None` when all three succeed: what `ContainerError` names,
      then what `ResultNotebookError` names. */
  function RegistrationError(search: Criteria -> seq<string>, params: map<string, Value>, prepared: Option<string>): Option<Failure> {
    if ContainerError(search, params) != None then ContainerError(search, params)
    else ResultNotebookError(params, prepared)
  }

  /** The calls of a successful result and notebook registration: the
      result data set (at position `resultIndex` of the created data sets)
      is created, its files are prepared, moved from `dir` into it and
      deleted from the session workspace, then the notebook data set is
      created. */
  function ResultAndNotebookCalls(params: map<string, Value>, dir: string, resultIndex: nat): (calls: seq<Call>)
    requires Get(params, "result").Dict? && FileNames(Get(Get(params, "result").entries, "fileNames")).Success?
    ensures var names := FileNames(Get(Get(params, "result").entries, "fileNames")).value;
            && |calls| == |names| + 4
            && calls[0] == Call.CreateNewDataSet("JUPYTER_RESULT")
            && calls[|calls| - 1] == Call.CreateNewDataSet("JUPYTER_NOTEBOOK")
  {
    var names := FileNames(Get(Get(params, "result").entries, "fileNames")).value;
    [Call.CreateNewDataSet("JUPYTER_RESULT"), Call.PrepareFiles(names, "results"), Call.MoveFile(dir, Created(resultIndex))]
    + DeleteCalls(Get(params, "sessionToken"), names) + [Call.CreateNewDataSet("JUPYTER_NOTEBOOK")]
  }

  /** What a successful container registration leaves behind, going from
      the data sets `before` to `after`: nothing new when a container of
      that name exists, and it is the container; otherwise one new
      JUPYTER_CONTAINER data set of the sample, with the given parents and
      the container properties. */
  predicate CreatesContainer(search: Criteria -> seq<string>, newCode: nat -> string, before: seq<NewDataSet>, after: seq<NewDataSet>,
                             sample: Sample, params: map<string, Value>, containerCode: string)
  {
    && Get(params, "container").Dict?
    && var existing := ExistingContainer(search, params);
       && (existing != None ==> after == before && containerCode == existing.value)
       && (existing == None ==>
             && ParentCodes(Get(params, "parents")).Success?
             && containerCode == newCode(|before|)
             && after == before + [NewDataSet(newCode(|before|), "JUPYTER_CONTAINER", Some(sample), ParentCodes(Get(params, "parents")).value,
                                              ContainerProperties(params, Get(params, "container").entries.Keys))])
  }

  /** The data sets of a successful result and notebook registration,
      the first at position `n` of the created data sets: a JUPYTER_RESULT
      and a JUPYTER_NOTEBOOK data set of the sample, each with the container
      as its only parent. */
  function ResultAndNotebookSets(newCode: nat -> string, n: nat, sample: Sample, containerCode: string): seq<NewDataSet> {
    [NewDataSet(newCode(n), "JUPYTER_RESULT", Some(sample), Some([containerCode]), map[]),
     NewDataSet(newCode(n + 1), "JUPYTER_NOTEBOOK", Some(sample), Some([containerCode]), map[])]
  }

  /** A successful container registration followed by a successful result
      and notebook registration leaves the data sets `RegistersAll` states
      and makes the calls `LogsRegistration` states. */
  lemma RegistrationSucceeded(search: Criteria -> seq<string>, newCode: nat -> string, params: map<string, Value>, prepared: Option<string>,
                              sample: Sample, containerCode: string, before: seq<NewDataSet>, mid: seq<NewDataSet>,
                              after: seq<NewDataSet>, logBefore: seq<Call>, logMid: seq<Call>, logAfter: seq<Call>)
    requires RegistrationError(search, params, prepared) == None
    requires CreatesContainer(search, newCode, before, mid, sample, params, containerCode)
    requires LogsContainer(search, params, logBefore, logMid)
    requires after == mid + ResultAndNotebookSets(newCode, |mid|, sample, containerCode)
    requires logAfter == logMid + ResultAndNotebookCalls(params, prepared.value, |mid|)
    ensures RegistersAll(search, newCode, before, after, sample, params, containerCode)
    ensures LogsRegistration(search, params, prepared, |before|, logBefore, logAfter)
  {
    var tail := ResultAndNotebookCalls(params, prepared.value, |mid|);
    assert logAfter[..|logAfter| - |tail|] == logMid;
    assert logAfter[|logAfter| - |tail|..] == tail;
  }

  /** The result and notebook registrations after the container. The
      result data set is always created, and the notebook data set only when
      the result registration has succeeded; each has the container as its
      only parent. They succeed exactly when `ResultNotebookError` finds
      nothing, and then make the calls `ResultAndNotebookCalls` lists. */
  method RegisterResultAndNotebook(tr: Transaction, sample: Sample, container: DataSetHandle, params: map<string, Value>,
                                   prepared: Option<string>) returns (r: Result<(), Failure>)
    requires tr.IsHandle(container)
    modifies tr
    ensures var n := |old(tr.created)|;
            var parents := Some([old(tr.DataSetCode(container))]);
            tr.created == old(tr.created) + [NewDataSet(tr.newCode(n), "JUPYTER_RESULT", Some(sample), parents, map[])]
                          + (if ResultFilesError(params, prepared) == None
                             then [NewDataSet(tr.newCode(n + 1), "JUPYTER_NOTEBOOK", Some(sample), parents, map[])]
                             else [])
    ensures r.Raised() == ResultNotebookError(params, prepared)
    ensures r.Success? ==>
              && tr.created == old(tr.created) + ResultAndNotebookSets(tr.newCode, |old(tr.created)|, sample, old(tr.DataSetCode(container)))
              && tr.log == old(tr.log) + ResultAndNotebookCalls(params, prepared.value, |old(tr.created)|)
  {
    var code := tr.DataSetCode(container);
    var result := RegisterResultFiles(tr, sample, container, params, prepared);
    if result.Failure? {
      return Failure(result.error);
    }
    var notebook := RegisterNotebook(tr, sample, container, params);
    if notebook.Failure? {
      return Failure(notebook.error);
    }
    r := Success(());
  }

  /** The calls of the container registration, going from the log
      `before` to `after`: the search for the container's name; then
      either one property set per container key on the data set found, or
      the creation of the container. */
  ghost predicate LogsContainer(search: Criteria -> seq<string>, params: map<string, Value>, before: seq<Call>, after: seq<Call>)
    requires Get(params, "container").Dict?
  {
    var container := Get(params, "container").entries;
    var existing := ExistingContainer(search, params);
    var m := |before| + 1;
    && m <= |after|
    && after[..m] == before + [Call.SearchForDataSets(NameCriteria(Get(container, "name")))]
    && if existing != None then SetsEachKeyOnce(after[m..], existing.value, container.Keys, params)
       else after[m..] == [Call.CreateNewDataSet("JUPYTER_CONTAINER")]
  }

  /** The calls of three successful registrations, going from the log
      `before` to `after`, when `createdBefore` data sets had been created
      in the transaction: those of the container registration
      (`LogsContainer`), then the result data set with its files prepared,
      moved and deleted from the session workspace, then the notebook data
      set. The result data set comes right after the container when that
      is created, and first otherwise. */
  ghost predicate LogsRegistration(search: Criteria -> seq<string>, params: map<string, Value>, prepared: Option<string>,
                                   createdBefore: nat, before: seq<Call>, after: seq<Call>)
    requires RegistrationError(search, params, prepared) == None
  {
    var resultIndex := if ExistingContainer(search, params) != None then createdBefore else createdBefore + 1;
    var tail := ResultAndNotebookCalls(params, prepared.value, resultIndex);
    && |tail| <= |after|
    && LogsContainer(search, params, before, after[..|after| - |tail|])
    && after[|after| - |tail|..] == tail
  }

  /** The three registrations of `process`, in order: the container, the
      result files, the notebook. They succeed exactly when
      `RegistrationError` finds nothing, and otherwise fail with the error
      it names. On success, the container's code; the data sets created
      are exactly those `RegistersAll` states and the calls made those
      `LogsRegistration` states. */
  method RegisterDataSets(tr: Transaction, sample: Sample, params: map<string, Value>, prepared: Option<string>)
    returns (r: Result<string, Failure>)
    modifies tr
    ensures r.Raised() == RegistrationError(tr.dataSetSearch, params, prepared)
    ensures r.Success? ==>
              && RegistersAll(tr.dataSetSearch, tr.newCode, old(tr.created), tr.created, sample, params, r.value)
              && LogsRegistration(tr.dataSetSearch, params, prepared, |old(tr.created)|, old(tr.log), tr.log)
  {
    var container := RegisterContainer(tr, sample, params);
    if container.Failure? {
      return Failure(container.error);
    }
    ghost var afterContainer := tr.created;
    ghost var logContainer := tr.log;
    var code := tr.DataSetCode(container.value);
    var registered := RegisterResultAndNotebook(tr, sample, container.value, params, prepared);
    if registered.Failure? {
      return Failure(registered.error);
    }
    r := Success(code);
    RegistrationSucceeded(tr.dataSetSearch, tr.newCode, params, prepared, sample, r.value, old(tr.created), afterContainer, tr.created,
                          old(tr.log), logContainer, tr.log);
  }

  /** The failure `process` reports, or `None` when it succeeds: what
      `Precheck` rejects; an identifier with fewer than three fields; a
      sample search without exactly one hit; then what `RegistrationError`
      names. */
  function ProcessError(sampleSearch: Criteria -> seq<Sample>, dataSetSearch: Criteria -> seq<string>, params: map<string, Value>,
                        prepared: Option<string>): Option<Failure>
  {
    match Precheck(params)
    case Failure(e) => Some(e)
    case Success(identifier) =>
      match SpaceAndCode(identifier)
      case None => Some(IndexError)
      case Some((space, code)) =>
        if |sampleSearch(SampleCriteria(space, code))| != 1 then Some(UserFailure(identifier + "Not found by search service."))
        else RegistrationError(dataSetSearch, params, prepared)
  }

  /** `process(transaction, parameters, tableBuilder)`. Nothing reaches the
      platform before every check of `Precheck` has passed. It fails
      exactly when `ProcessError` names a failure, with that failure, and
      then leaves the table untouched. A success registers the data sets
      `RegistersAll` states for the sample found for the identifier, makes
      the calls `LogsRegistration` states after the sample search, and
      reports one OK row. `prepared` is what preparing the result files
      gives. On success, `sample` is the sample found and `containerCode`
      the code of the container. */
  method Process(tr: Transaction, params: map<string, Value>, table: TableBuilder, prepared: Option<string>)
    returns (r: Outcome<Failure>, ghost sample: Sample, ghost containerCode: string)
    modifies tr, table
    ensures r.Raised() == ProcessError(tr.sampleSearch, tr.dataSetSearch, params, prepared)
    ensures Precheck(params).Failure? ==> tr.log == old(tr.log) && tr.created == old(tr.created)
    ensures r.Fail? ==> table.headers == old(table.headers) && table.rows == old(table.rows)
    ensures r.Pass? ==>
              && IsSampleOf(tr.sampleSearch, Precheck(params).value, sample)
              && RegistersAll(tr.dataSetSearch, tr.newCode, old(tr.created), tr.created, sample, params, containerCode)
              && LogsRegistration(tr.dataSetSearch, params, prepared, |old(tr.created)|,
                                  old(tr.log) + [Call.SearchForSamples(SampleCriteria(SpaceAndCode(Precheck(params).value).value.0,
                                                                                      SpaceAndCode(Precheck(params).value).value.1)),
                                                 Call.MakeSampleMutable(sample)],
                                  tr.log)
              && table.headers == old(table.headers) + [StatusHeader, MessageHeader, ResultHeader]
              && table.rows == old(table.rows) + [SuccessRow]
  {
    sample, containerCode := Sample(""), "";
    var checked := CheckRequest(params);
    if checked.Failure? {
      return Fail(checked.error), sample, containerCode;
    }
    var found := GetSampleByIdentifier(tr, checked.value);
    if found.Failure? {
      return Fail(found.error), sample, containerCode;
    }
    var theSample := found.value;
    sample := theSample;
    var registered := RegisterDataSets(tr, theSample, params, prepared);
    if registered.Failure? {
      return Fail(registered.error), sample, containerCode;
    }
    containerCode := registered.value;
    var everythingOk := true;
    if everythingOk {
      ReportSuccess(table);
    } else {
      assert false;
    }
    r := Pass;
  }
}
