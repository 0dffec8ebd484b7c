/** The master-data script src/core-plugins/jupyter-api/1/as/initialize-master-data.py:
    it registers the data set types of the Jupyter integration and their
    property types through a master-data transaction, creating each
    property type at most once thanks to the global `propertiesCache`.

    The transaction is an object holding the data set types, property types
    and property assignments it knows, each addressed by its position. */
module MasterData {
  import opened Wrappers

  /** The data types the script names; every other openBIS data type is
      `OtherDataType`. */
  datatype DataType = Varchar | MultilineVarchar | ControlledVocabulary | OtherDataType(name: string)

  /** One row of a property list:
      `[code, section, label, dataType, vocabularyCode, description, managedScript, dynamicScript]`. */
  datatype PropertyRow = PropertyRow(
    code: string,
    section: Option<string>,
    propertyLabel: string,
    dataType: DataType,
    vocabularyCode: Option<string>,
    description: string,
    managedScript: Option<string>,
    dynamicScript: Option<string>)

  /** A data set type; `None` for an attribute never set. */
  datatype DataSetType = DataSetType(code: string, kind: Option<string>, description: Option<string>)

  datatype PropertyType = PropertyType(code: string, dataType: DataType, description: Option<string>, propertyLabel: Option<string>)

  /** The assignment of property type `property` to data set type `entity`;
      each flag is `None` until its setter is called. */
  datatype Assignment = Assignment(
    entity: nat,
    property: nat,
    section: Option<string>,
    shownEdit: Option<bool>,
    managed: Option<bool>,
    dynamic: Option<bool>,
    scriptName: Option<string>)

  /** The position of the first item whose code is `code`. */
  function FirstWithCode<T>(items: seq<T>, codeOf: T -> string, code: string): (r: Option<nat>)
    ensures r != None ==> r.value < |items| && codeOf(items[r.value]) == code
  {
    if items == [] then None
    else if codeOf(items[0]) == code then Some(0)
    else
      var rest := FirstWithCode(items[1..], codeOf, code);
      if rest == None then None else Some(rest.value + 1)
  }

  /** `FirstWithCode` finds nothing exactly when no item has the code, and
      otherwise no item before the one it finds has the code. */
  lemma {:induction false} FirstWithCodeIsFirst<T>(items: seq<T>, codeOf: T -> string, code: string)
    ensures FirstWithCode(items, codeOf, code) == None <==> forall i :: 0 <= i < |items| ==> codeOf(items[i]) != code
    ensures FirstWithCode(items, codeOf, code) != None ==> forall i :: 0 <= i < FirstWithCode(items, codeOf, code).value ==> codeOf(items[i]) != code
  {
    if items != [] && codeOf(items[0]) != code {
      FirstWithCodeIsFirst(items[1..], codeOf, code);
      assert forall i :: 1 <= i < |items| ==> items[i] == items[1..][i - 1];
    }
  }

  function DataSetTypeCode(t: DataSetType): string { t.code }
  function PropertyTypeCode(t: PropertyType): string { t.code }

  /** The master-data registration transaction (`service.transaction()`). */
  class MasterDataTransaction {
    var dataSetTypes: seq<DataSetType>
    var propertyTypes: seq<PropertyType>
    var assignments: seq<Assignment>

    constructor (dataSetTypes: seq<DataSetType>, propertyTypes: seq<PropertyType>)
      ensures this.dataSetTypes == dataSetTypes && this.propertyTypes == propertyTypes && assignments == []
    {
      this.dataSetTypes := dataSetTypes;
      this.propertyTypes := propertyTypes;
      assignments := [];
    }

    /** `getOrCreateNewDataSetType(code)`: the existing type with that code,
        or a new one appended. */
    method GetOrCreateNewDataSetType(code: string) returns (e: nat)
      modifies this
      ensures FirstWithCode(old(dataSetTypes), DataSetTypeCode, code) != None ==>
                e == FirstWithCode(old(dataSetTypes), DataSetTypeCode, code).value && dataSetTypes == old(dataSetTypes)
      ensures FirstWithCode(old(dataSetTypes), DataSetTypeCode, code) == None ==>
                e == |old(dataSetTypes)| && dataSetTypes == old(dataSetTypes) + [DataSetType(code, None, None)]
      ensures e < |dataSetTypes| && dataSetTypes[e].code == code
      ensures propertyTypes == old(propertyTypes) && assignments == old(assignments)
    {
      var existing := FirstWithCode(dataSetTypes, DataSetTypeCode, code);
      if existing != None {
        e := existing.value;
      } else {
        e := |dataSetTypes|;
        dataSetTypes := dataSetTypes + [DataSetType(code, None, None)];
      }
    }

    method SetDataSetKind(e: nat, kind: string)
      requires e < |dataSetTypes|
      modifies this
      ensures dataSetTypes == old(dataSetTypes)[e := old(dataSetTypes)[e].(kind := Some(kind))]
      ensures propertyTypes == old(propertyTypes) && assignments == old(assignments)
    {
      dataSetTypes := dataSetTypes[e := dataSetTypes[e].(kind := Some(kind))];
    }

    method SetDataSetDescription(e: nat, description: string)
      requires e < |dataSetTypes|
      modifies this
      ensures dataSetTypes == old(dataSetTypes)[e := old(dataSetTypes)[e].(description := Some(description))]
      ensures propertyTypes == old(propertyTypes) && assignments == old(assignments)
    {
      dataSetTypes := dataSetTypes[e := dataSetTypes[e].(description := Some(description))];
    }

    /** `getOrCreateNewPropertyType(code, dataType)`: the existing type with
        that code, or a new one appended. */
    method GetOrCreateNewPropertyType(code: string, dataType: DataType) returns (p: nat)
      modifies this
      ensures FirstWithCode(old(propertyTypes), PropertyTypeCode, code) != None ==>
                p == FirstWithCode(old(propertyTypes), PropertyTypeCode, code).value && propertyTypes == old(propertyTypes)
      ensures FirstWithCode(old(propertyTypes), PropertyTypeCode, code) == None ==>
                p == |old(propertyTypes)| && propertyTypes == old(propertyTypes) + [PropertyType(code, dataType, None, None)]
      ensures p < |propertyTypes| && propertyTypes[p].code == code
      ensures dataSetTypes == old(dataSetTypes) && assignments == old(assignments)
    {
      var existing := FirstWithCode(propertyTypes, PropertyTypeCode, code);
      if existing != None {
        p := existing.value;
      } else {
        p := |propertyTypes|;
        propertyTypes := propertyTypes + [PropertyType(code, dataType, None, None)];
      }
    }

    method SetPropertyDescription(p: nat, description: string)
      requires p < |propertyTypes|
      modifies this
      ensures propertyTypes == old(propertyTypes)[p := old(propertyTypes)[p].(description := Some(description))]
      ensures dataSetTypes == old(dataSetTypes) && assignments == old(assignments)
    {
      propertyTypes := propertyTypes[p := propertyTypes[p].(description := Some(description))];
    }

    method SetPropertyLabel(p: nat, propertyLabel: string)
      requires p < |propertyTypes|
      modifies this
      ensures propertyTypes == old(propertyTypes)[p := old(propertyTypes)[p].(propertyLabel := Some(propertyLabel))]
      ensures dataSetTypes == old(dataSetTypes) && assignments == old(assignments)
    {
      propertyTypes := propertyTypes[p := propertyTypes[p].(propertyLabel := Some(propertyLabel))];
    }

    /** `assignPropertyType(entity, property)`: a new assignment with no flag set. */
    method AssignPropertyType(e: nat, p: nat) returns (a: nat)
      modifies this
      ensures a == |old(assignments)|
      ensures assignments == old(assignments) + [Assignment(e, p, None, None, None, None, None)]
      ensures dataSetTypes == old(dataSetTypes) && propertyTypes == old(propertyTypes)
    {
      a := |assignments|;
      assignments := assignments + [Assignment(e, p, None, None, None, None, None)];
    }

    method SetSection(a: nat, section: string)
      requires a < |assignments|
      modifies this
      ensures assignments == old(assignments)[a := old(assignments)[a].(section := Some(section))]
      ensures dataSetTypes == old(dataSetTypes) && propertyTypes == old(propertyTypes)
    {
      assignments := assignments[a := assignments[a].(section := Some(section))];
    }

    method SetShownEdit(a: nat, shown: bool)
      requires a < |assignments|
      modifies this
      ensures assignments == old(assignments)[a := old(assignments)[a].(shownEdit := Some(shown))]
      ensures dataSetTypes == old(dataSetTypes) && propertyTypes == old(propertyTypes)
    {
      assignments := assignments[a := assignments[a].(shownEdit := Some(shown))];
    }

    method SetManaged(a: nat, managed: bool)
      requires a < |assignments|
      modifies this
      ensures assignments == old(assignments)[a := old(assignments)[a].(managed := Some(managed))]
      ensures dataSetTypes == old(dataSetTypes) && propertyTypes == old(propertyTypes)
    {
      assignments := assignments[a := assignments[a].(managed := Some(managed))];
    }

    method SetDynamic(a: nat, dynamic: bool)
      requires a < |assignments|
      modifies this
      ensures assignments == old(assignments)[a := old(assignments)[a].(dynamic := Some(dynamic))]
      ensures dataSetTypes == old(dataSetTypes) && propertyTypes == old(propertyTypes)
    {
      assignments := assignments[a := assignments[a].(dynamic := Some(dynamic))];
    }

    method SetScriptName(a: nat, name: string)
      requires a < |assignments|
      modifies this
      ensures assignments == old(assignments)[a := old(assignments)[a].(scriptName := Some(name))]
      ensures dataSetTypes == old(dataSetTypes) && propertyTypes == old(propertyTypes)
    {
      assignments := assignments[a := assignments[a].(scriptName := Some(name))];
    }
  }

  /** The codes of the property types, in order. */
  function CodesOf(types: seq<PropertyType>): (codes: seq<string>)
    ensures |codes| == |types|
  {
    seq(|types|, i requires 0 <= i < |types| => types[i].code)
  }

  /** From position `from` on, no code occurs at an earlier position. */
  predicate FreshFrom(codes: seq<string>, from: nat) {
    forall j, k :: 0 <= k < j < |codes| && from <= j ==> codes[k] != codes[j]
  }

  /** Property types whose codes extend those of `before` keep the codes
      of `before` position by position. */
  lemma PrefixCodes(before: seq<PropertyType>, after: seq<PropertyType>)
    requires CodesOf(before) <= CodesOf(after)
    ensures forall j :: 0 <= j < |before| ==> after[j].code == before[j].code
  {
    forall j | 0 <= j < |before|
      ensures after[j].code == before[j].code
    {
      assert CodesOf(after)[j] == CodesOf(before)[j];
    }
  }

  /** Appending at most one code that occurs nowhere before keeps the
      codes fresh. */
  lemma FreshFromStep(before: seq<string>, after: seq<string>, from: nat, code: string)
    requires FreshFrom(before, from) && from <= |before|
    requires before <= after && |after| <= |before| + 1
    requires |after| > |before| ==> after[|before|] == code && code !in before
    ensures FreshFrom(after, from)
  {
    if |after| > |before| {
      assert after == before + [code];
    } else {
      assert after == before;
    }
  }

  // ---- the data set types ----

  /** The position `getOrCreateNewDataSetType(code)` returns: that of the
      first type with the code, or the end. */
  function DataSetTypeIndex(types: seq<DataSetType>, code: string): nat {
    match FirstWithCode(types, DataSetTypeCode, code)
    case Some(e) => e
    case None => |types|
  }

  /** The data set types once `code` is registered with `kind` and
      `description`: the first type with that code takes them, or a new
      type is appended. */
  function DefinedDataSetTypes(types: seq<DataSetType>, code: string, kind: string, description: string): seq<DataSetType> {
    match FirstWithCode(types, DataSetTypeCode, code)
    case Some(e) => types[e := DataSetType(code, Some(kind), Some(description))]
    case None => types + [DataSetType(code, Some(kind), Some(description))]
  }

  // ---- the property types ----

  /** The position `getOrCreateNewPropertyType(code, ...)` returns: that of
      the first type with the code, or the end. */
  function PropertyTypeIndex(types: seq<PropertyType>, code: string): nat {
    match FirstWithCode(types, PropertyTypeCode, code)
    case Some(p) => p
    case None => |types|
  }

  /** The property types after `createProperty`: the first type with the
      code keeps its data type and takes the description and label; without
      one, a new type is appended. */
  function CreatedTypes(types: seq<PropertyType>, code: string, dataType: DataType, propertyLabel: string, description: string)
    : seq<PropertyType>
  {
    match FirstWithCode(types, PropertyTypeCode, code)
    case Some(p) => types[p := types[p].(description := Some(description), propertyLabel := Some(propertyLabel))]
    case None => types + [PropertyType(code, dataType, Some(description), Some(propertyLabel))]
  }

  /** The property types after `addProperty` for `row` with the codes
      `cached` in the cache: unchanged for a cached code, otherwise as
      `createProperty` leaves them. */
  function TypeStep(types: seq<PropertyType>, cached: set<string>, row: PropertyRow): seq<PropertyType> {
    if row.code in cached then types else CreatedTypes(types, row.code, row.dataType, row.propertyLabel, row.description)
  }

  /** The property types after `addProperty` for each of `rows` in turn,
      starting from `types` with the codes `cached` in the cache: a row
      whose code is cached leaves them as they are; any other row changes
      them as `CreatedTypes` states, and its code is cached from then on. */
  function TypesAfterRows(types: seq<PropertyType>, cached: set<string>, rows: seq<PropertyRow>): seq<PropertyType>
    decreases |rows|
  {
    if rows == [] then types
    else
      TypesAfterRows(TypeStep(types, cached, rows[0]), cached + {rows[0].code}, rows[1..])
  }

  /** What remains of `TypesAfterRows` after `addProperty` for `rows[i]`. */
  lemma TypesAfterAdd(types: seq<PropertyType>, cached: set<string>, rows: seq<PropertyRow>, i: nat)
    requires i < |rows|
    ensures TypesAfterRows(types, cached, rows[i..])
            == TypesAfterRows(TypeStep(types, cached, rows[i]), cached + {rows[i].code}, rows[i + 1..])
  {
    assert rows[i..][1..] == rows[i + 1..];
  }

  /** `createProperty` keeps every code in place and appends at most one,
      `code`, only when no type has that code yet; the type at
      `PropertyTypeIndex` then has that code. */
  lemma CreatedTypesCodes(types: seq<PropertyType>, code: string, dataType: DataType, propertyLabel: string, description: string)
    ensures var after := CreatedTypes(types, code, dataType, propertyLabel, description);
            && CodesOf(types) <= CodesOf(after)
            && |after| <= |types| + 1
            && PropertyTypeIndex(types, code) < |after| && after[PropertyTypeIndex(types, code)].code == code
            && (|after| > |types| ==> after[|types|].code == code && code !in CodesOf(types))
  {
    var after := CreatedTypes(types, code, dataType, propertyLabel, description);
    assert forall i :: 0 <= i < |types| ==> after[i].code == types[i].code;
    if |after| > |types| {
      FirstWithCodeIsFirst(types, PropertyTypeCode, code);
      assert forall i :: 0 <= i < |types| ==> CodesOf(types)[i] != code;
    }
  }

  /** Over any rows, the codes of `types` stay in place, and every type
      from position `from` on has a code that occurs at no earlier position
      and was not among the codes `original`, provided this holds of
      `types`, `original` is part of `cached`, and the types from `from` on
      are cached already. */
  lemma {:induction false} TypesAfterRowsCodes(types: seq<PropertyType>, original: set<string>, cached: set<string>,
                                               rows: seq<PropertyRow>, from: nat)
    requires from <= |types| && original <= cached
    requires FreshFrom(CodesOf(types), from)
    requires forall j :: from <= j < |types| ==> types[j].code !in original && types[j].code in cached
    ensures var after := TypesAfterRows(types, cached, rows);
            && CodesOf(types) <= CodesOf(after)
            && FreshFrom(CodesOf(after), from)
            && forall j :: from <= j < |after| ==> after[j].code !in original
    decreases |rows|
  {
    if rows != [] {
      var row := rows[0];
      var next := TypeStep(types, cached, row);
      if row.code !in cached {
        CreatedTypesCodes(types, row.code, row.dataType, row.propertyLabel, row.description);
        FreshFromStep(CodesOf(types), CodesOf(next), from, row.code);
        PrefixCodes(types, next);
      }
      TypesAfterRowsCodes(next, original, cached + {row.code}, rows[1..], from);
    }
  }

  // ---- the assignment flags ----

  /** The assignment `addProperty` leaves behind for `row`, property type
      `property` and data set type `entity`, stated flag by flag rather
      than setter by setter. */
  function AssignmentFor(entity: nat, property: nat, row: PropertyRow): Assignment {
    Assignment(
      entity,
      property,
      row.section,
      Some(row.dynamicScript == None),
      if row.managedScript != None then Some(true) else None,
      if row.dynamicScript != None then Some(true) else None,
      if row.dynamicScript != None then row.dynamicScript else row.managedScript)
  }

  /** The section is set exactly when the row gives one; the assignment is
      editable exactly when there is no dynamic script; managed and dynamic
      are set (to true) exactly when their script is given, and never set
      to false; the script name is the dynamic script when both are
      given. */
  lemma AssignmentFlags(entity: nat, property: nat, row: PropertyRow)
    ensures AssignmentFor(entity, property, row).section != None <==> row.section != None
    ensures AssignmentFor(entity, property, row).shownEdit == Some(true) <==> row.dynamicScript == None
    ensures AssignmentFor(entity, property, row).shownEdit != None
    ensures AssignmentFor(entity, property, row).managed != None <==> row.managedScript != None
    ensures AssignmentFor(entity, property, row).managed != Some(false)
    ensures AssignmentFor(entity, property, row).dynamic != None <==> row.dynamicScript != None
    ensures AssignmentFor(entity, property, row).dynamic != Some(false)
    ensures row.dynamicScript != None ==> AssignmentFor(entity, property, row).scriptName == row.dynamicScript
    ensures row.dynamicScript == None ==> AssignmentFor(entity, property, row).scriptName == row.managedScript
  {
  }

  /** Every entry of the cache `before` is still in `after`, unchanged. */
  predicate KeepsEntries(before: map<string, nat>, after: map<string, nat>) {
    forall c :: c in before ==> c in after && after[c] == before[c]
  }

  /** `made` holds one assignment per row, in order, each to `entity` and
      to the property type `cache` gives for the row's code. */
  predicate AssignedRows(made: seq<Assignment>, entity: nat, cache: map<string, nat>, rows: seq<PropertyRow>)
    decreases |rows|
  {
    && |made| == |rows|
    && (rows != [] ==>
          && AssignedRows(made[..|made| - 1], entity, cache, rows[..|rows| - 1])
          && rows[|rows| - 1].code in cache
          && made[|made| - 1] == AssignmentFor(entity, cache[rows[|rows| - 1].code], rows[|rows| - 1]))
  }

  /** A cache that keeps every entry gives the same assignments. */
  lemma {:induction false} AssignedRowsKept(made: seq<Assignment>, entity: nat, cacheBefore: map<string, nat>,
                                            cacheAfter: map<string, nat>, rows: seq<PropertyRow>)
    requires AssignedRows(made, entity, cacheBefore, rows) && KeepsEntries(cacheBefore, cacheAfter)
    ensures AssignedRows(made, entity, cacheAfter, rows)
    decreases |rows|
  {
    if rows != [] {
      AssignedRowsKept(made[..|made| - 1], entity, cacheBefore, cacheAfter, rows[..|rows| - 1]);
    }
  }

  /** One more row's assignment, under a cache that keeps every entry of
      the earlier one. */
  lemma AssignedRowsStep(made: seq<Assignment>, entity: nat, cacheBefore: map<string, nat>, cacheAfter: map<string, nat>,
                         rows: seq<PropertyRow>, i: nat)
    requires i < |rows| && AssignedRows(made, entity, cacheBefore, rows[..i])
    requires KeepsEntries(cacheBefore, cacheAfter)
    requires rows[i].code in cacheAfter
    ensures AssignedRows(made + [AssignmentFor(entity, cacheAfter[rows[i].code], rows[i])], entity, cacheAfter, rows[..i + 1])
  {
    AssignedRowsKept(made, entity, cacheBefore, cacheAfter, rows[..i]);
    var next := made + [AssignmentFor(entity, cacheAfter[rows[i].code], rows[i])];
    assert next[..|next| - 1] == made;
    assert rows[..i + 1][..i] == rows[..i];
  }

  /** `AssignedRows` position by position: the `j`-th assignment is the
      one `AssignmentFor` gives for the `j`-th row. */
  lemma {:induction false} AssignedRowsAt(made: seq<Assignment>, entity: nat, cache: map<string, nat>, rows: seq<PropertyRow>)
    requires AssignedRows(made, entity, cache, rows)
    ensures |made| == |rows|
    ensures forall j :: 0 <= j < |rows| ==> rows[j].code in cache && made[j] == AssignmentFor(entity, cache[rows[j].code], rows[j])
    decreases |rows|
  {
    if rows != [] {
      var n := |rows| - 1;
      AssignedRowsAt(made[..n], entity, cache, rows[..n]);
      assert forall j :: 0 <= j < n ==> made[j] == made[..n][j] && rows[j] == rows[..n][j];
    }
  }

  /** A sequence one item longer than `before` keeps its first `n` items
      and extends its tail from `n` by that item. */
  lemma AppendedAfter<T>(before: seq<T>, after: seq<T>, n: nat)
    requires n <= |before| && |after| == |before| + 1 && after[..|before|] == before
    ensures after[..n] == before[..n]
    ensures after[n..] == before[n..] + [after[|before|]]
  {
    assert after == before + [after[|before|]];
  }

  // ---- the script ----

  /** The script's globals: the transaction `tr` and `propertiesCache`,
      which maps each property code the script created to its property
      type. */
  class MasterDataScript {
    const tr: MasterDataTransaction
    var propertiesCache: map<string, nat>

    /** Every cached code names a property type with that code. */
    predicate Valid()
      reads this, tr
    {
      forall code :: code in propertiesCache ==>
        propertiesCache[code] < |tr.propertyTypes| && tr.propertyTypes[propertiesCache[code]].code == code
    }

    /** The script starts with `propertiesCache = {}`. */
    constructor (tr: MasterDataTransaction)
      ensures this.tr == tr && propertiesCache == map[]
      ensures Valid()
    {
      this.tr := tr;
      propertiesCache := map[];
    }

    /** `createProperty(...)`: gets or creates the property type, sets its
        description and label, and caches it under its code. The branch for
        controlled vocabularies reads a `vocabulariesCache` the script never
        defines, so that data type is excluded. */
    method CreateProperty(code: string, dataType: DataType, propertyLabel: string, description: string, vocabularyCode: Option<string>)
      returns (p: nat)
      requires Valid() && dataType != ControlledVocabulary
      modifies this, tr
      ensures Valid()
      ensures p == PropertyTypeIndex(old(tr.propertyTypes), code)
      ensures propertiesCache == old(propertiesCache)[code := p]
      ensures tr.propertyTypes == CreatedTypes(old(tr.propertyTypes), code, dataType, propertyLabel, description)
      ensures tr.dataSetTypes == old(tr.dataSetTypes) && tr.assignments == old(tr.assignments)
    {
      ghost var before := tr.propertyTypes;
      p := tr.GetOrCreateNewPropertyType(code, dataType);
      tr.SetPropertyDescription(p, description);
      tr.SetPropertyLabel(p, propertyLabel);
      propertiesCache := propertiesCache[code := p];
      CreatedTypesCodes(before, code, dataType, propertyLabel, description);
      PrefixCodes(before, tr.propertyTypes);
    }

    /** `addProperty(entity, ...)`: the cached property type for the code,
        or a newly created one; then exactly one new assignment, whose flags
        are set one setter at a time and end as `AssignmentFor` states. */
    method AddProperty(entity: nat, row: PropertyRow)
      requires Valid() && row.dataType != ControlledVocabulary
      modifies this, tr
      ensures Valid()
      ensures row.code in propertiesCache
      ensures row.code in old(propertiesCache) ==> propertiesCache == old(propertiesCache)
      ensures row.code !in old(propertiesCache) ==>
                propertiesCache == old(propertiesCache)[row.code := PropertyTypeIndex(old(tr.propertyTypes), row.code)]
      ensures propertiesCache.Keys == old(propertiesCache.Keys) + {row.code}
      ensures KeepsEntries(old(propertiesCache), propertiesCache)
      ensures tr.propertyTypes == TypeStep(old(tr.propertyTypes), old(propertiesCache.Keys), row)
      ensures tr.assignments == old(tr.assignments) + [AssignmentFor(entity, propertiesCache[row.code], row)]
      ensures tr.dataSetTypes == old(tr.dataSetTypes)
    {
      var p: nat;
      if row.code in propertiesCache {
        p := propertiesCache[row.code];
      } else {
        p := CreateProperty(row.code, row.dataType, row.propertyLabel, row.description, row.vocabularyCode);
      }
      var a := tr.AssignPropertyType(entity, p);
      SetAssignmentFlags(a, row);
    }

    /** The setter calls of `addProperty` on the new assignment `a`, in
        their order: section, shownEdit, then the managed and the dynamic
        script. */
    method SetAssignmentFlags(a: nat, row: PropertyRow)
      requires a < |tr.assignments|
      requires tr.assignments[a] == Assignment(tr.assignments[a].entity, tr.assignments[a].property, None, None, None, None, None)
      modifies tr
      ensures tr.assignments == old(tr.assignments)[a := AssignmentFor(old(tr.assignments)[a].entity, old(tr.assignments)[a].property, row)]
      ensures tr.dataSetTypes == old(tr.dataSetTypes) && tr.propertyTypes == old(tr.propertyTypes)
    {
      if row.section != None {
        tr.SetSection(a, row.section.value);
      }
      tr.SetShownEdit(a, true);
      if row.managedScript != None {
        tr.SetManaged(a, true);
        tr.SetScriptName(a, row.managedScript.value);
      }
      if row.dynamicScript != None {
        tr.SetDynamic(a, true);
        tr.SetShownEdit(a, false);
        tr.SetScriptName(a, row.dynamicScript.value);
      }
    }

    /** `addProperties(entity, properties)`: one `addProperty` per row, in
        list order. Rows that share a code share one property type. */
    method AddProperties(entity: nat, rows: seq<PropertyRow>)
      requires Valid()
      requires forall i :: 0 <= i < |rows| ==> rows[i].dataType != ControlledVocabulary
      modifies this, tr
      ensures Valid()
      ensures KeepsEntries(old(propertiesCache), propertiesCache)
      ensures |tr.assignments| >= |old(tr.assignments)|
      ensures tr.assignments[..|old(tr.assignments)|] == old(tr.assignments)
      ensures AssignedRows(tr.assignments[|old(tr.assignments)|..], entity, propertiesCache, rows)
      ensures tr.propertyTypes == TypesAfterRows(old(tr.propertyTypes), old(propertiesCache.Keys), rows)
      ensures tr.dataSetTypes == old(tr.dataSetTypes)
    {
      var i := 0;
      ghost var final := TypesAfterRows(tr.propertyTypes, propertiesCache.Keys, rows);
      while i < |rows|
        invariant 0 <= i <= |rows|
        invariant Valid()
        invariant KeepsEntries(old(propertiesCache), propertiesCache)
        invariant |tr.assignments| >= |old(tr.assignments)|
        invariant tr.assignments[..|old(tr.assignments)|] == old(tr.assignments)
        invariant AssignedRows(tr.assignments[|old(tr.assignments)|..], entity, propertiesCache, rows[..i])
        invariant tr.dataSetTypes == old(tr.dataSetTypes)
        invariant TypesAfterRows(tr.propertyTypes, propertiesCache.Keys, rows[i..]) == final
      {
        ghost var cacheBefore := propertiesCache;
        ghost var assignmentsBefore := tr.assignments;
        TypesAfterAdd(tr.propertyTypes, propertiesCache.Keys, rows, i);
        AddProperty(entity, rows[i]);
        AppendedAfter(assignmentsBefore, tr.assignments, |old(tr.assignments)|);
        AssignedRowsStep(assignmentsBefore[|old(tr.assignments)|..], entity, cacheBefore, propertiesCache, rows, i);
        i := i + 1;
      }
      assert rows[..i] == rows && rows[i..] == [];
    }

    /** The first three calls of `createDataSetTypeWithProperties`: get
        or create the data set type, then set its kind and description. */
    method DefineDataSetType(code: string, kind: string, description: string) returns (e: nat)
      modifies tr
      ensures e == DataSetTypeIndex(old(tr.dataSetTypes), code)
      ensures tr.dataSetTypes == DefinedDataSetTypes(old(tr.dataSetTypes), code, kind, description)
      ensures tr.propertyTypes == old(tr.propertyTypes) && tr.assignments == old(tr.assignments)
    {
      e := tr.GetOrCreateNewDataSetType(code);
      tr.SetDataSetKind(e, kind);
      tr.SetDataSetDescription(e, description);
    }

    /** `createDataSetTypeWithProperties(code, kind, description, properties)`:
        the data set type `code` with that kind and description, then one
        assignment per row, creating the property types `TypesAfterRows`
        states. */
    method CreateDataSetTypeWithProperties(code: string, kind: string, description: string, rows: seq<PropertyRow>)
      returns (e: nat)
      requires Valid()
      requires forall i :: 0 <= i < |rows| ==> rows[i].dataType != ControlledVocabulary
      modifies this, tr
      ensures Valid()
      ensures e == DataSetTypeIndex(old(tr.dataSetTypes), code)
      ensures tr.dataSetTypes == DefinedDataSetTypes(old(tr.dataSetTypes), code, kind, description)
      ensures KeepsEntries(old(propertiesCache), propertiesCache)
      ensures |tr.assignments| >= |old(tr.assignments)|
      ensures tr.assignments[..|old(tr.assignments)|] == old(tr.assignments)
      ensures AssignedRows(tr.assignments[|old(tr.assignments)|..], e, propertiesCache, rows)
      ensures tr.propertyTypes == TypesAfterRows(old(tr.propertyTypes), old(propertiesCache.Keys), rows)
    {
      e := DefineDataSetType(code, kind, description);
      AddProperties(e, rows);
    }
  }

  // ---- initJupyterMasterData ----

  const ContainerRows: seq<PropertyRow> := [
    PropertyRow("NAME", None, "Name", Varchar, None, "Name", None, None),
    PropertyRow("DESCRIPTION", None, "Description", MultilineVarchar, None, "A Description", None, None)
  ]

  /** The three data set types of the Jupyter integration, as registered
      in a transaction that knew none of them. */
  const JupyterDataSetTypes: seq<DataSetType> := [
    DataSetType("JUPYTER_CONTAINER", Some("CONTAINER"), Some("Jupyter Analysis Results")),
    DataSetType("JUPYTER_RESULT", Some("PHYSICAL"), Some("Analysis Results Files")),
    DataSetType("JUPYTER_NOTEBOOK", Some("PHYSICAL"), Some("Analysis Notebook Files"))
  ]

  /** Registering a data set type whose code no type has appends it. */
  lemma DefinedWhenAbsent(types: seq<DataSetType>, code: string, kind: string, description: string)
    requires forall i :: 0 <= i < |types| ==> types[i].code != code
    ensures DataSetTypeIndex(types, code) == |types|
    ensures DefinedDataSetTypes(types, code, kind, description) == types + [DataSetType(code, Some(kind), Some(description))]
  {
    FirstWithCodeIsFirst(types, DataSetTypeCode, code);
  }

  /** Registering the three Jupyter types, in order, over types none of
      which has one of their codes appends them; the container type lands
      at the end of `before`. */
  lemma JupyterTypesAppend(before: seq<DataSetType>)
    requires forall i :: 0 <= i < |before| ==> before[i].code !in {"JUPYTER_CONTAINER", "JUPYTER_RESULT", "JUPYTER_NOTEBOOK"}
    ensures DataSetTypeIndex(before, "JUPYTER_CONTAINER") == |before|
    ensures var withContainer := DefinedDataSetTypes(before, "JUPYTER_CONTAINER", "CONTAINER", "Jupyter Analysis Results");
            var withResult := DefinedDataSetTypes(withContainer, "JUPYTER_RESULT", "PHYSICAL", "Analysis Results Files");
            DefinedDataSetTypes(withResult, "JUPYTER_NOTEBOOK", "PHYSICAL", "Analysis Notebook Files") == before + JupyterDataSetTypes
  {
    DefinedWhenAbsent(before, "JUPYTER_CONTAINER", "CONTAINER", "Jupyter Analysis Results");
    var withContainer := before + [JupyterDataSetTypes[0]];
    assert forall i :: 0 <= i < |withContainer| ==> withContainer[i].code !in {"JUPYTER_RESULT", "JUPYTER_NOTEBOOK"};
    DefinedWhenAbsent(withContainer, "JUPYTER_RESULT", "PHYSICAL", "Analysis Results Files");
    var withResult := withContainer + [JupyterDataSetTypes[1]];
    assert forall i :: 0 <= i < |withResult| ==> withResult[i].code != "JUPYTER_NOTEBOOK";
    DefinedWhenAbsent(withResult, "JUPYTER_NOTEBOOK", "PHYSICAL", "Analysis Notebook Files");
    assert withResult + [JupyterDataSetTypes[2]] == before + JupyterDataSetTypes;
  }

  /** The property types the container rows leave behind when neither NAME
      nor DESCRIPTION is cached or known yet: both are appended, in that
      order, with their data types, descriptions and labels. */
  lemma ContainerRowsAppend(types: seq<PropertyType>, cached: set<string>)
    requires "NAME" !in cached && "DESCRIPTION" !in cached
    requires forall i :: 0 <= i < |types| ==> types[i].code != "NAME" && types[i].code != "DESCRIPTION"
    ensures TypesAfterRows(types, cached, ContainerRows)
            == types + [PropertyType("NAME", Varchar, Some("Name"), Some("Name")),
                        PropertyType("DESCRIPTION", MultilineVarchar, Some("A Description"), Some("Description"))]
  {
    var name := PropertyType("NAME", Varchar, Some("Name"), Some("Name"));
    FirstWithCodeIsFirst(types, PropertyTypeCode, "NAME");
    assert TypeStep(types, cached, ContainerRows[0]) == types + [name];
    var withName := types + [name];
    assert forall i :: 0 <= i < |withName| ==> withName[i].code != "DESCRIPTION";
    FirstWithCodeIsFirst(withName, PropertyTypeCode, "DESCRIPTION");
    assert ContainerRows[1..][1..] == [];
  }

  /** `initJupyterMasterData()` against a transaction that does not know
      the three Jupyter types yet, whatever other types it knows: the three
      types are appended after the existing ones, and exactly two
      assignments are added, NAME and DESCRIPTION, both to the container
      type, editable and without section or scripts. The property types
      change as `TypesAfterRows` states for the container rows; when
      neither NAME nor DESCRIPTION is cached or known, both are appended. */
  method InitJupyterMasterData(script: MasterDataScript)
    requires script.Valid()
    requires forall i :: 0 <= i < |script.tr.dataSetTypes| ==>
               script.tr.dataSetTypes[i].code !in {"JUPYTER_CONTAINER", "JUPYTER_RESULT", "JUPYTER_NOTEBOOK"}
    modifies script, script.tr
    ensures script.Valid()
    ensures script.tr.dataSetTypes == old(script.tr.dataSetTypes) + JupyterDataSetTypes
    ensures |script.tr.assignments| == |old(script.tr.assignments)| + 2
    ensures script.tr.assignments[..|old(script.tr.assignments)|] == old(script.tr.assignments)
    ensures "NAME" in script.propertiesCache && "DESCRIPTION" in script.propertiesCache
    ensures script.tr.assignments[|old(script.tr.assignments)|]
            == Assignment(|old(script.tr.dataSetTypes)|, script.propertiesCache["NAME"], None, Some(true), None, None, None)
    ensures script.tr.assignments[|old(script.tr.assignments)| + 1]
            == Assignment(|old(script.tr.dataSetTypes)|, script.propertiesCache["DESCRIPTION"], None, Some(true), None, None, None)
    ensures script.tr.propertyTypes == TypesAfterRows(old(script.tr.propertyTypes), old(script.propertiesCache.Keys), ContainerRows)
    ensures && "NAME" !in old(script.propertiesCache) && "DESCRIPTION" !in old(script.propertiesCache)
            && (forall i :: 0 <= i < |old(script.tr.propertyTypes)| ==>
                  old(script.tr.propertyTypes)[i].code != "NAME" && old(script.tr.propertyTypes)[i].code != "DESCRIPTION")
            ==> script.tr.propertyTypes
                == old(script.tr.propertyTypes) + [PropertyType("NAME", Varchar, Some("Name"), Some("Name")),
                                                   PropertyType("DESCRIPTION", MultilineVarchar, Some("A Description"), Some("Description"))]
  {
    ghost var before := script.tr.dataSetTypes;
    ghost var typesBefore := script.tr.propertyTypes;
    ghost var cachedBefore := script.propertiesCache.Keys;
    JupyterTypesAppend(before);
    var container := script.CreateDataSetTypeWithProperties("JUPYTER_CONTAINER", "CONTAINER", "Jupyter Analysis Results", ContainerRows);
    assert ContainerRows[0].code == "NAME" && ContainerRows[1].code == "DESCRIPTION";
    ghost var afterContainer := script.tr.assignments;
    ghost var cache := script.propertiesCache;
    ghost var typesAfter := script.tr.propertyTypes;
    var result := script.CreateDataSetTypeWithProperties("JUPYTER_RESULT", "PHYSICAL", "Analysis Results Files", []);
    var notebook := script.CreateDataSetTypeWithProperties("JUPYTER_NOTEBOOK", "PHYSICAL", "Analysis Notebook Files", []);
    assert script.tr.assignments == afterContainer;
    assert script.propertiesCache["NAME"] == cache["NAME"];
    assert script.tr.propertyTypes == typesAfter;
    if "NAME" !in cachedBefore && "DESCRIPTION" !in cachedBefore
       && forall i :: 0 <= i < |typesBefore| ==> typesBefore[i].code != "NAME" && typesBefore[i].code != "DESCRIPTION"
    {
      ContainerRowsAppend(typesBefore, cachedBefore);
    }
  }
}
