/**
 * The relation panel of packages/xadmin-antd/src/model/components/ChildrenModel.js:
 * the child schema derived for one parent record, the parent filter the
 * panel's list starts from, the store key that keeps panels apart, the
 * reference values merged into the child form, which buttons show, and when
 * the list is refreshed after a save. Every merge is a shallow object spread.
 */
module ChildrenModel {
  import opened Wrappers
  import opened JsValue
  import ViewRules

  /** The `model` prop: a registered model's name, or a schema object. */
  datatype ModelRef = Named(name: string) | Inline(schema: map<string, Value>)

  /**
   * `cmodel`: a name is looked up in the `models` registry. `None` when the
   * name is not registered as an object, where reading the schema throws.
   */
  function ResolveModel(model: ModelRef, registry: map<string, Value>): (c: Option<map<string, Value>>)
    ensures model.Inline? ==> c == Some(model.schema)
    ensures model.Named? ==> (c.Some? <==> model.name in registry && registry[model.name].Obj?)
    ensures model.Named? && c.Some? ==> c.value == registry[model.name].fields
  {
    match model
    case Inline(schema) => Some(schema)
    case Named(name) =>
      if name in registry && registry[name].Obj? then Some(registry[name].fields) else None
  }

  /** The appended row action: an `EditChildrenModelBtn` closing over `refData` and `refreshTimeout`. */
  function EditAction(refData: Value, refreshTimeout: Value): Value {
    Fn("EditChildrenModelBtn", Obj(map["refData" := refData, "refreshTimeout" := refreshTimeout]))
  }

  /** `[...(cmodel.itemActions || [])]` can be spread: the actions are absent or an array. */
  predicate ActionsIterable(cmodel: map<string, Value>) {
    !Truthy(Field(cmodel, "itemActions")) || Field(cmodel, "itemActions").Arr?
  }

  function BaseActions(cmodel: map<string, Value>): seq<Value>
    requires ActionsIterable(cmodel)
  {
    var a := Field(cmodel, "itemActions");
    if a.Arr? then a.elems else []
  }

  /**
   * The derived permission: the original flags, then `edit: false`, then
   * `childEdit: cmodel.permission && cmodel.permission.edit`.
   */
  function DerivedPermission(cmodel: map<string, Value>): (p: map<string, Value>)
    ensures p.Keys == Spread(Field(cmodel, "permission")).Keys + {"edit", "childEdit"}
    ensures p["edit"] == Bool(false)
    ensures var perm := Field(cmodel, "permission");
      p["childEdit"] == (if Truthy(perm) then Prop(perm, "edit") else perm)
    ensures forall k :: k in Spread(Field(cmodel, "permission")) && k != "edit" && k != "childEdit" ==>
      p[k] == Spread(Field(cmodel, "permission"))[k]
  {
    var perm := Field(cmodel, "permission");
    Spread(perm)["edit" := Bool(false)]["childEdit" := And(perm, if Truthy(perm) then Prop(perm, "edit") else Undefined)]
  }

  /** The keys the derivation itself sets. */
  const DerivedKeys: set<string> := {"parent", "itemActions", "permission"}

  /**
   * The child `schema`: `{ ...cmodel, parent, itemActions, permission, ...modelProps }`.
   * `modelProps` is spread last, so each of its keys overrides every derived one.
   */
  function DerivedSchema(cmodel: map<string, Value>, parent: Value, refData: Value, refreshTimeout: Value,
                         modelProps: Value): (schema: map<string, Value>)
    requires ActionsIterable(cmodel)
    ensures schema.Keys == cmodel.Keys + DerivedKeys + Spread(modelProps).Keys
    ensures forall k :: k in Spread(modelProps) ==> schema[k] == Spread(modelProps)[k]
    ensures "parent" !in Spread(modelProps) ==> schema["parent"] == parent
    ensures "itemActions" !in Spread(modelProps) ==>
      schema["itemActions"] == Arr(BaseActions(cmodel) + [EditAction(refData, refreshTimeout)])
    ensures "permission" !in Spread(modelProps) ==> schema["permission"] == Obj(DerivedPermission(cmodel))
    ensures forall k :: k in cmodel && k !in DerivedKeys && k !in Spread(modelProps) ==> schema[k] == cmodel[k]
  {
    var actions := Arr(BaseActions(cmodel) + [EditAction(refData, refreshTimeout)]);
    cmodel["parent" := parent]["itemActions" := actions]["permission" := Obj(DerivedPermission(cmodel))]
      + Spread(modelProps)
  }

  /** The derived actions keep the original ones in front and add exactly one edit action. */
  lemma {:induction false} DerivedActionsShape(cmodel: map<string, Value>, parent: Value, refData: Value,
                                               refreshTimeout: Value, modelProps: Value)
    requires ActionsIterable(cmodel)
    requires "itemActions" !in Spread(modelProps)
    ensures var a := DerivedSchema(cmodel, parent, refData, refreshTimeout, modelProps)["itemActions"];
      && a.Arr?
      && |a.elems| == |BaseActions(cmodel)| + 1
      && a.elems[..|BaseActions(cmodel)|] == BaseActions(cmodel)
      && a.elems[|BaseActions(cmodel)|] == EditAction(refData, refreshTimeout)
  {
    var base := BaseActions(cmodel);
    assert (base + [EditAction(refData, refreshTimeout)])[..|base|] == base;
  }

  /** The edit button of a child row: `!!permission && !!permission.childEdit`. */
  predicate EditVisible(schema: map<string, Value>)
    ensures EditVisible(schema) ==> Truthy(Field(schema, "permission"))
    ensures !Truthy(Field(schema, "permission")) || !Truthy(Prop(Field(schema, "permission"), "childEdit")) ==>
      !EditVisible(schema)
    ensures Truthy(Field(schema, "permission")) && Truthy(Prop(Field(schema, "permission"), "childEdit")) ==>
      EditVisible(schema)
  {
    ViewRules.Grants(Field(schema, "permission"), "childEdit")
  }

  /** The add button shows iff the schema grants `add` (`canAdd` of `model.permission`). */
  predicate AddVisible(schema: map<string, Value>)
    ensures AddVisible(schema) <==> ViewRules.Grants(Field(schema, "permission"), "add")
    ensures !Truthy(Field(schema, "permission")) ==> !AddVisible(schema)
  {
    ViewRules.ModelPermissions(schema).canAdd
  }

  /**
   * Unless `modelProps` replaces the permission, the child panel cannot edit
   * in place, shows the child edit button exactly when the original schema
   * could edit, and keeps the original add and delete rights.
   */
  lemma {:induction false} ChildPermissionsNarrowed(cmodel: map<string, Value>, parent: Value, refData: Value,
                                                    refreshTimeout: Value, modelProps: Value)
    requires ActionsIterable(cmodel)
    requires "permission" !in Spread(modelProps)
    ensures var schema := DerivedSchema(cmodel, parent, refData, refreshTimeout, modelProps);
      && !ViewRules.ModelPermissions(schema).canEdit
      && (EditVisible(schema) <==> ViewRules.ModelPermissions(cmodel).canEdit)
      && (AddVisible(schema) <==> ViewRules.ModelPermissions(cmodel).canAdd)
      && (ViewRules.ModelPermissions(schema).canDelete <==> ViewRules.ModelPermissions(cmodel).canDelete)
  {
    var schema := DerivedSchema(cmodel, parent, refData, refreshTimeout, modelProps);
    var perm := Field(cmodel, "permission");
    var dp := DerivedPermission(cmodel);
    assert Field(schema, "permission") == Obj(dp);
    assert Prop(Obj(dp), "edit") == Bool(false);
    assert Prop(Obj(dp), "childEdit") == (if Truthy(perm) then Prop(perm, "edit") else perm);
    if perm.Obj? {
      assert Prop(Obj(dp), "add") == Prop(perm, "add");
      assert Prop(Obj(dp), "delete") == Prop(perm, "delete");
    } else {
      assert Prop(Obj(dp), "add") == Undefined;
      assert Prop(Obj(dp), "delete") == Undefined;
    }
  }

  /**
   * The filter the panel's list starts from: `refFilter` when given, which
   * replaces the parent filter rather than adding to it; otherwise
   * `{ [refField]: parent.id }`. `parent.id` is only read in that case.
   */
  function ParentFilter(refFilter: Value, refField: Value, parent: Value): (filters: Value)
    requires Truthy(refFilter) || !Nullish(parent)
    ensures Truthy(refFilter) ==> filters == refFilter
    ensures !Truthy(refFilter) ==> filters == Obj(map[ToDisplayString(refField) := Prop(parent, "id")])
  {
    if Truthy(refFilter) then refFilter else Obj(map[ToDisplayString(refField) := Prop(parent, "id")])
  }

  /** `initialValues` of the panel's store: `{ wheres: { filters } }`. */
  function InitialValues(refFilter: Value, refField: Value, parent: Value): (v: map<string, Value>)
    requires Truthy(refFilter) || !Nullish(parent)
    ensures v.Keys == {"wheres"}
    ensures v["wheres"] == Obj(map["filters" := ParentFilter(refFilter, refField, parent)])
  {
    map["wheres" := Obj(map["filters" := ParentFilter(refFilter, refField, parent)])]
  }

  /** The name part of `modelKey`: the string given, or the schema's `name`. */
  function KeyName(model: ModelRef): string {
    match model
    case Named(name) => name
    case Inline(schema) => ToDisplayString(Field(schema, "name"))
  }

  /** `modelKey`: `${name}_${parent.id}`, the panel's own store namespace. */
  function ModelKey(model: ModelRef, parent: Value): (key: string)
    requires !Nullish(parent)
    ensures |key| > |KeyName(model)|
    ensures key[..|KeyName(model)| + 1] == KeyName(model) + "_"
    ensures key[|KeyName(model)| + 1..] == ToDisplayString(Prop(parent, "id"))
  {
    var name := KeyName(model);
    var id := ToDisplayString(Prop(parent, "id"));
    assert (name + "_" + id)[..|name| + 1] == name + "_";
    assert (name + "_" + id)[|name| + 1..] == id;
    name + "_" + id
  }

  /** Panels of one model for parents whose ids print differently never share a store key. */
  lemma {:induction false} ModelKeysApart(model: ModelRef, p1: Value, p2: Value)
    requires !Nullish(p1) && !Nullish(p2)
    requires ToDisplayString(Prop(p1, "id")) != ToDisplayString(Prop(p2, "id"))
    ensures ModelKey(model, p1) != ModelKey(model, p2)
  {
  }

  /**
   * `{ ...base, ...refData }`: the child form starts from `{ ...data, ...refData }`
   * and saves `{ ...values, ...refData }`, so the reference values win both times.
   */
  function RefOverlay(base: Value, refData: Value): (merged: map<string, Value>)
    ensures merged.Keys == Spread(base).Keys + Spread(refData).Keys
    ensures forall k :: k in Spread(refData) ==> merged[k] == Spread(refData)[k]
    ensures forall k :: k in Spread(base) && k !in Spread(refData) ==> merged[k] == Spread(base)[k]
  {
    Spread(base) + Spread(refData)
  }

  /** Submitting the child form unchanged saves exactly what it showed: merging `refData` again changes nothing. */
  lemma {:induction false} UnchangedFormSavesInitial(data: Value, refData: Value)
    ensures RefOverlay(Obj(RefOverlay(data, refData)), refData) == RefOverlay(data, refData)
  {
    var init := RefOverlay(data, refData);
    var saved := RefOverlay(Obj(init), refData);
    assert saved.Keys == init.Keys;
    forall k | k in saved ensures saved[k] == init[k] {
    }
  }

  /** When the list is refreshed after a successful child save. */
  datatype Refresh = RefreshNow | RefreshAfter(delay: Value)

  /** `refreshTimeout ? setTimeout(getItems, refreshTimeout) : getItems()` */
  function RefreshAfterSave(refreshTimeout: Value): (r: Refresh)
    ensures r.RefreshNow? <==> !Truthy(refreshTimeout)
    ensures r.RefreshAfter? ==> r.delay == refreshTimeout
  {
    if Truthy(refreshTimeout) then RefreshAfter(refreshTimeout) else RefreshNow
  }
}
