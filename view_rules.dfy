/**
 * The small derivations of packages/xadmin-model/src/hooks.js that list and
 * form rendering read: permissions, a row's actions, a column's header and
 * orderability, and `model.list.item`, which resolves a cell's renderer once
 * per key and memoises it on the schema.
 */
module ViewRules {
  import opened Wrappers
  import opened JsValue

  /** `{ canAdd, canDelete, canEdit }` of `model.permission`. */
  datatype Permissions = Permissions(canAdd: bool, canDelete: bool, canEdit: bool)

  /** `!!p && !!p[flag]` */
  predicate Grants(permission: Value, flag: string) {
    Truthy(permission) && Truthy(Prop(permission, flag))
  }

  function ModelPermissions(model: map<string, Value>): (p: Permissions)
    ensures !Truthy(Field(model, "permission")) ==> !p.canAdd && !p.canDelete && !p.canEdit
    ensures p.canAdd <==> Grants(Field(model, "permission"), "add")
    ensures p.canDelete <==> Grants(Field(model, "permission"), "delete")
    ensures p.canEdit <==> Grants(Field(model, "permission"), "edit")
  {
    var perm := Field(model, "permission");
    Permissions(Grants(perm, "add"), Grants(perm, "delete"), Grants(perm, "edit"))
  }

  /** The actions of a row (hooks.js:283): the schema's `itemActions`, or `['edit', 'delete']`. */
  function RowActions(model: map<string, Value>): (actions: Value)
    ensures Truthy(Field(model, "itemActions")) ==> actions == Field(model, "itemActions")
    ensures !Truthy(Field(model, "itemActions")) ==> actions == Arr([Str("edit"), Str("delete")])
  {
    Or(Field(model, "itemActions"), Arr([Str("edit"), Str("delete")]))
  }

  /** A row always has actions to render: the result is truthy. */
  lemma {:induction false} RowActionsPresent(model: map<string, Value>)
    ensures Truthy(RowActions(model))
  {
  }

  /**
   * A column header (hooks.js:287-288): the property's `header`, else its
   * `title`, else `startCase(field)`. `property` is what `getFieldProp`
   * returned; `startCase` is lodash's.
   */
  function HeaderTitle(property: Value, field: string, startCase: string -> string): (title: Value)
    ensures var p := Or(property, Obj(map[]));
      && (Truthy(Prop(p, "header")) ==> title == Prop(p, "header"))
      && (!Truthy(Prop(p, "header")) && Truthy(Prop(p, "title")) ==> title == Prop(p, "title"))
      && (!Truthy(Prop(p, "header")) && !Truthy(Prop(p, "title")) ==> title == Str(startCase(field)))
  {
    var p := Or(property, Obj(map[]));
    Or(Prop(p, "header"), Or(Prop(p, "title"), Str(startCase(field))))
  }

  /** A header is never blank while `startCase` of the field name is not. */
  lemma {:induction false} HeaderNeverBlank(property: Value, field: string, startCase: string -> string)
    requires startCase(field) != ""
    ensures Truthy(HeaderTitle(property, field, startCase))
  {
  }

  /**
   * `canOrder` (hooks.js:294-296): the property's own `canOrder` when
   * defined; otherwise orderable when it names an `orderField` or is neither
   * an object nor an array.
   */
  function CanOrder(property: Value): (can: Value)
    ensures var p := Or(property, Obj(map[]));
      && (Prop(p, "canOrder") != Undefined ==> can == Prop(p, "canOrder"))
      && (Prop(p, "canOrder") == Undefined ==> can.Bool?)
      && (Prop(p, "canOrder") == Undefined ==>
            (can == Bool(true) <==>
               Prop(p, "orderField") != Undefined
               || (Prop(p, "type") != Str("object") && Prop(p, "type") != Str("array"))))
    ensures !Truthy(property) ==> can == Bool(true)
  {
    var p := Or(property, Obj(map[]));
    var explicit := Prop(p, "canOrder");
    if explicit != Undefined then explicit
    else Bool(Prop(p, "orderField") != Undefined
              || (!LooseEq(Prop(p, "type"), Str("object")) && !LooseEq(Prop(p, "type"), Str("array"))))
  }

  /**
   * Without an explicit `canOrder` or an `orderField`, a column orders iff
   * its type is neither `object` nor `array`.
   */
  lemma {:induction false} CanOrderByType(property: map<string, Value>)
    requires Field(property, "canOrder") == Undefined && Field(property, "orderField") == Undefined
    ensures CanOrder(Obj(property)) == Bool(Field(property, "type") != Str("object") && Field(property, "type") != Str("array"))
  {
    var t := Field(property, "type");
    assert LooseEq(t, Str("object")) <==> t == Str("object");
    assert LooseEq(t, Str("array")) <==> t == Str("array");
  }

  /**
   * `editable` (hooks.js:319): a nested cell is always editable; otherwise a
   * field is editable unless it is listed in `editableFields`, and every
   * field is when the schema has no such list (`undefined` or `null`).
   */
  function Editable(nest: Value, editableFields: Value, field: string): (editable: bool)
    requires Nullish(editableFields) || editableFields.Arr?
    ensures Nullish(editableFields) ==> editable
    ensures editableFields.Arr? && Str(field) !in editableFields.elems ==> editable
    ensures editableFields.Arr? && Str(field) in editableFields.elems ==>
      (editable <==> nest == Bool(true) || nest == Num(1) || nest == Str("1"))
  {
    LooseEqTrue(nest) || Nullish(editableFields) || Str(field) !in editableFields.elems
  }

  /** A field renderer resolver: `(prev, property, field) => next`. */
  type Resolver = (Value, Value, string) -> Value

  /** `resolvers.reduce((prev, render) => render(prev, property, field), prev)` */
  function FoldFrom(prev: Value, resolvers: seq<Resolver>, property: Value, field: string): (r: Value)
    ensures resolvers == [] ==> r == prev
    ensures |resolvers| == 1 ==> r == resolvers[0](prev, property, field)
    ensures (forall i :: 0 <= i < |resolvers| ==> PassesThrough(resolvers[i], property, field)) ==> r == prev
    decreases |resolvers|
  {
    if resolvers == [] then prev
    else FoldFrom(resolvers[0](prev, property, field), resolvers[1..], property, field)
  }

  /** The reduction starts from `null`. */
  function ResolveRender(resolvers: seq<Resolver>, property: Value, field: string): (render: Value)
    ensures resolvers == [] ==> render == Null
    ensures (forall i :: 0 <= i < |resolvers| ==> PassesThrough(resolvers[i], property, field)) ==> render == Null
    ensures |resolvers| > 0 ==> render == FoldFrom(resolvers[0](Null, property, field), resolvers[1..], property, field)
  {
    FoldFrom(Null, resolvers, property, field)
  }

  /** Folding over two lists of resolvers is folding over the second from where the first ended. */
  lemma {:induction false} FoldConcat(prev: Value, a: seq<Resolver>, b: seq<Resolver>, property: Value, field: string)
    ensures FoldFrom(prev, a + b, property, field) == FoldFrom(FoldFrom(prev, a, property, field), b, property, field)
    decreases |a|
  {
    if a == [] {
      assert a + b == b;
    } else {
      assert (a + b)[0] == a[0];
      assert (a + b)[1..] == a[1..] + b;
      FoldConcat(a[0](prev, property, field), a[1..], b, property, field);
    }
  }

  /** A resolver that passes its input through on this property changes nothing. */
  ghost predicate PassesThrough(r: Resolver, property: Value, field: string) {
    forall v :: r(v, property, field) == v
  }

  /**
   * The resolver after a prefix that passed through sees the initial value:
   * the first resolver that does not pass through decides from `prev`.
   */
  lemma {:induction false} FirstResolverDecides(prev: Value, passing: seq<Resolver>, r: Resolver, rest: seq<Resolver>, property: Value, field: string)
    requires forall i :: 0 <= i < |passing| ==> PassesThrough(passing[i], property, field)
    ensures FoldFrom(prev, passing + [r] + rest, property, field)
         == FoldFrom(r(prev, property, field), rest, property, field)
  {
    assert passing + [r] + rest == passing + ([r] + rest);
    FoldConcat(prev, passing, [r] + rest, property, field);
  }

  /** The memo key: `${schema.name}.${field}` for a nested schema, else the field name. */
  function MemoKey(schema: Value, field: string): (key: string)
    ensures !Truthy(schema) ==> key == field
    ensures Truthy(schema) ==> key == ToDisplayString(Prop(schema, "name")) + "." + field
  {
    if Truthy(schema) then ToDisplayString(Prop(schema, "name")) + "." + field else field
  }

  /**
   * `model.fieldRender`, the memo `model.list.item` keeps on the shared
   * schema object: absent (`None`) until the first cell is rendered.
   */
  class FieldRenderMemo {
    var fieldRender: Option<map<string, Value>>

    constructor ()
      ensures fieldRender == None
    {
      fieldRender := None;
    }

    /** The memoised renderer of `key`; `undefined` when none is stored. */
    function Entry(key: string): Value
      reads this
    {
      if fieldRender.Some? then Field(fieldRender.value, key) else Undefined
    }

    /**
     * `model.list.item({ schema, field, item, nest })`. `fieldProp` is what
     * `getFieldProp(model, field)` returns and `editableFields` the schema's
     * list. A key whose memo entry is `undefined` or `null` is resolved
     * (again) by folding `resolvers`; any other entry is reused untouched.
     */
    method ListItem(schema: Value, field: string, item: Value, nest: Value, fieldProp: Value,
                    editableFields: Value, resolvers: seq<Resolver>) returns (data: map<string, Value>)
      requires Nullish(editableFields) || editableFields.Arr?
      modifies this
      ensures fieldRender.Some?
      ensures var key := MemoKey(schema, field);
        var property := Or(schema, fieldProp);
        && (!Nullish(old(Entry(key))) ==> Entry(key) == old(Entry(key)))
        && (Nullish(old(Entry(key))) ==>
              Entry(key) == (if Nullish(property) then Null else ResolveRender(resolvers, property, field)))
        && (forall k :: k != key ==> Entry(k) == old(Entry(k)))
        && (Truthy(Entry(key)) ==> "componentClass" in data && data["componentClass"] == Entry(key))
        && (!Truthy(Entry(key)) ==> "componentClass" !in data)
        && (!Truthy(schema) <==> "schema" in data)
        && (!Truthy(schema) ==> data["schema"] == property)
      ensures "value" in data && data["value"] == PathGet(item, field)
      ensures "editable" in data && data["editable"] == Bool(Editable(nest, editableFields, field))
      ensures data.Keys <= {"schema", "componentClass", "value", "editable"}
    {
      var property := Or(schema, fieldProp);
      data := if Truthy(schema) then map[] else map["schema" := property];
      var key := MemoKey(schema, field);
      var table := if fieldRender.Some? then fieldRender.value else map[];
      if Nullish(Field(table, key)) {
        var resolved := if Nullish(property) then Null else ResolveRender(resolvers, property, field);
        table := table[key := resolved];
      }
      fieldRender := Some(table);
      if Truthy(table[key]) {
        data := data["componentClass" := table[key]];
      }
      data := data["value" := PathGet(item, field)];
      data := data["editable" := Bool(Editable(nest, editableFields, field))];
    }
  }
}
