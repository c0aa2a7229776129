/**
 * The `model.get` hook (packages/xadmin-model/src/hooks.js:20-53): the
 * default item a create form starts from, the form title, and the item
 * state that a change of `id` refreshes from the adapter.
 */
module ModelItem {
  import opened JsValue

  /**
   * `defaultData`: the given item when truthy; otherwise the schema's
   * `defaultValue` (called when it is a function, `invoke` giving what the
   * call returns) with a non-empty `query` spread over it.
   */
  function DefaultData(item: Value, model: map<string, Value>, query: Value, invoke: Value -> Value): (data: Value)
    ensures Truthy(item) ==> data == item
    ensures !Truthy(item) && !IsEmpty(query) ==> data.Obj?
    ensures !Truthy(item) && !Truthy(Field(model, "defaultValue")) ==>
      data == (if IsEmpty(query) then item else Obj(Spread(query)))
  {
    if Truthy(item) then item
    else
      var dv := Field(model, "defaultValue");
      var base := if Truthy(dv) then (if dv.Fn? then invoke(dv) else dv) else item;
      if !IsEmpty(query) then Obj(Spread(base) + Spread(query)) else base
  }

  /** The value the schema's `defaultValue` yields: its result when it is a function. */
  function SchemaDefault(model: map<string, Value>, invoke: Value -> Value): Value {
    var dv := Field(model, "defaultValue");
    if dv.Fn? then invoke(dv) else dv
  }

  /**
   * Without an item, the preset query values win over the schema default,
   * and every default field the query does not name is kept.
   */
  lemma {:induction false} QueryOverridesDefault(model: map<string, Value>, query: Value, invoke: Value -> Value, item: Value)
    requires !Truthy(item) && query.Obj? && query.fields != map[]
    requires Truthy(Field(model, "defaultValue"))
    ensures var data := DefaultData(item, model, query, invoke);
      && data.Obj?
      && data.fields.Keys == Spread(SchemaDefault(model, invoke)).Keys + query.fields.Keys
      && (forall k :: k in query.fields ==> data.fields[k] == query.fields[k])
      && (forall k :: k in Spread(SchemaDefault(model, invoke)) && k !in query.fields ==>
            data.fields[k] == Spread(SchemaDefault(model, invoke))[k])
  {
    assert !IsEmpty(query);
  }

  /** Without an item or a query, the create form starts from the schema default as it is. */
  lemma {:induction false} DefaultWithoutQuery(model: map<string, Value>, query: Value, invoke: Value -> Value, item: Value)
    requires !Truthy(item) && IsEmpty(query)
    requires Truthy(Field(model, "defaultValue"))
    ensures DefaultData(item, model, query, invoke) == SchemaDefault(model, invoke)
  {
  }

  /** The form title: `Edit {{title}}` when an id is given, `Create {{title}}` otherwise (before translation). */
  datatype Title = EditTitle(title: Value) | CreateTitle(title: Value)

  function ItemTitle(id: Value, model: map<string, Value>): (t: Title)
    ensures t.EditTitle? <==> Truthy(id)
    ensures t.title == Field(model, "title")
  {
    if Truthy(id) then EditTitle(Field(model, "title")) else CreateTitle(Field(model, "title"))
  }

  /** `id && data?.id != id`: the item shown is not the one asked for, so it is fetched. */
  predicate NeedsFetch(data: Value, id: Value)
    ensures NeedsFetch(data, id) ==> Truthy(id)
    ensures Truthy(id) && Nullish(data) ==> NeedsFetch(data, id)
    ensures Truthy(id) && data.Obj? && "id" !in data.fields ==> NeedsFetch(data, id)
    ensures Truthy(id) ==> (NeedsFetch(data, id) <==> OptProp(data, "id") != id)
  {
    Truthy(id) && !LooseEq(OptProp(data, "id"), id)
  }

  /** A fetched record carrying the requested id is current: the effect does not fetch it again. */
  lemma {:induction false} FetchedIsCurrent(payload: Value, id: Value)
    requires payload.Obj? && "id" in payload.fields && payload.fields["id"] == id
    ensures !NeedsFetch(payload, id)
  {
    assert OptProp(payload, "id") == id;
  }

  /** Without an id nothing is fetched, whatever is shown. */
  lemma {:induction false} NoIdNoFetch(data: Value, id: Value)
    requires !Truthy(id)
    ensures !NeedsFetch(data, id)
  {
  }

  /** What `rest.get(id)` settles to. */
  datatype FetchOutcome = Fetched(payload: Value) | FetchFailed(error: Value)

  /** The hook's `{ data, loading }` state. */
  class ItemLoader {
    var data: Value
    var loading: bool

    /** The first state: the default data, loading while it is missing and an id is given. */
    constructor (defaultData: Value, id: Value)
      ensures data == defaultData
      ensures loading == (!Truthy(defaultData) && Truthy(id))
    {
      data := defaultData;
      loading := !Truthy(defaultData) && Truthy(id);
    }

    /**
     * The effect run when `id` changes, up to the request: with a fetch
     * pending the old data stays and `loading` is raised; otherwise the
     * default data is shown.
     */
    method OnId(id: Value, defaultData: Value) returns (fetch: bool)
      modifies this
      ensures fetch == NeedsFetch(old(data), id)
      ensures fetch ==> data == old(data) && loading
      ensures !fetch ==> data == defaultData && !loading
    {
      fetch := Truthy(id) && !LooseEq(OptProp(data, "id"), id);
      if fetch {
        loading := true;
      } else {
        data := defaultData;
        loading := false;
      }
    }

    /**
     * The `.then` of `rest.get(id)`. The promise has no rejection handler
     * (hooks.js:42-44): after a failed fetch nothing changes, so `loading`
     * stays true and the old data stays shown.
     */
    method SettleFetch(outcome: FetchOutcome)
      modifies this
      ensures outcome.Fetched? ==> data == outcome.payload && !loading
      ensures outcome.FetchFailed? ==> data == old(data) && loading == old(loading)
    {
      if outcome.Fetched? {
        data := outcome.payload;
        loading := false;
      }
    }
  }
}
