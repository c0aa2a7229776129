/**
 * The list/query/item store behind the `model.getItems`, `model.save`,
 * `model.delete`, `model.pagination`, `model.pagesize` and `model.fields`
 * hooks (packages/xadmin-model/src/hooks.js).
 *
 * The store's atoms become the fields of class `Store`; the REST adapter is
 * a function parameter whose value is the outcome of the request the hook
 * sends. An `async` hook is split at its `await`: `Begin…` runs up to the
 * request and returns it, `Settle…` runs the continuation on the adapter's
 * outcome, and the whole call composes the two.
 */
module ModelStore {
  import opened Wrappers
  import opened JsValue
  import Pagination
  import ListFields

  /** What `rest.query(option, wheres)` settles to. */
  datatype QueryOutcome = Queried(items: seq<Value>, total: int) | QueryFailed(error: Value)

  /** `{ items, total }`, what a successful `getItems` resolves to. */
  datatype QueryPage = QueryPage(items: seq<Value>, total: int)

  type QueryAdapter = (map<string, Value>, Value) -> QueryOutcome

  /**
   * The request `getItems(query)` sends and what it keeps for the
   * continuation: the effective option and wheres, and the two parts of the
   * destructured query.
   */
  datatype QueryCall = QueryCall(
    option: map<string, Value>,
    wheres: Value,
    newOption: map<string, Value>,
    newWheres: Value)

  /**
   * `let { wheres: newWheres, ...newOption } = query || {}`, then the
   * effective wheres and option (hooks.js:109-111). An absent query is the
   * empty map.
   *
   * Modelled as written: line 110 reads `.content` of the stored wheres'
   * loadable, a property a loadable does not have (it has `.contents`), so
   * without a truthy `query.wheres` the adapter is sent `undefined` and the
   * stored wheres is never consulted.
   */
  function PlanQuery(stored: map<string, Value>, query: map<string, Value>): (call: QueryCall)
    ensures call.newOption.Keys == query.Keys - {"wheres"}
    ensures call.newWheres == Field(query, "wheres")
    ensures call.option.Keys == stored.Keys + call.newOption.Keys
    ensures forall k :: k in query && k != "wheres" ==> call.option[k] == query[k]
    ensures forall k :: k in stored && k !in query ==> call.option[k] == stored[k]
    ensures Truthy(call.newWheres) ==> call.wheres == call.newWheres
    ensures !Truthy(call.newWheres) ==> call.wheres == Undefined
  {
    var newWheres := Field(query, "wheres");
    var newOption := query - {"wheres"};
    var wheres := Or(newWheres, Undefined);
    QueryCall(stored + newOption, wheres, newOption, newWheres)
  }

  /** `!_.isEmpty(newOption)`: the merged option is stored only when the query overrode some key. */
  predicate PersistsOption(call: QueryCall) {
    call.newOption != map[]
  }

  /** `if (newWheres)`: the wheres is stored only when the query gave a truthy one. */
  predicate PersistsWheres(call: QueryCall) {
    Truthy(call.newWheres)
  }

  /** What `rest.save(item, partial)` settles to. */
  datatype SaveOutcome = Saved(data: Value) | SaveFailed(error: Value)

  type SaveAdapter = (map<string, Value>, Value) -> SaveOutcome

  /** The request `saveItem(item, partial)` sends. */
  datatype SaveCall = SaveCall(item: map<string, Value>, partial: Value)

  /** `partial` after hooks.js:62-64: forced to `true` by the schema or by the item. */
  function PartialFlag(model: map<string, Value>, item: map<string, Value>, partial: Value): (p: Value)
    ensures Truthy(Field(model, "partialSave")) ==> p == Bool(true)
    ensures Truthy(Field(item, "__partial__")) ==> p == Bool(true)
    ensures !Truthy(Field(model, "partialSave")) && !Truthy(Field(item, "__partial__")) ==> p == partial
  {
    if Truthy(Field(model, "partialSave")) || Truthy(Field(item, "__partial__")) then Bool(true) else partial
  }

  /**
   * The cache entry `set(atoms.item(data.id || item.id), data || item)`
   * writes: `None` when `data` is `undefined` or `null`, where reading
   * `data.id` throws before anything is written.
   */
  function CacheEntry(item: map<string, Value>, data: Value): (e: Option<(Value, Value)>)
    ensures Nullish(data) <==> e.None?
    ensures e.Some? && Truthy(Prop(data, "id")) ==> e.value.0 == Prop(data, "id")
    ensures e.Some? && !Truthy(Prop(data, "id")) ==> e.value.0 == Field(item, "id")
    ensures e.Some? && Truthy(data) ==> e.value.1 == data
    ensures e.Some? && !Truthy(data) ==> e.value.1 == Obj(item)
  {
    if Nullish(data) then None
    else Some((Or(Prop(data, "id"), Field(item, "id")), Or(data, Obj(item))))
  }

  /**
   * `throw err.formError || err.json || err` (hooks.js:77). Reading a
   * property of an `undefined` or `null` error throws a TypeError instead.
   */
  function ThrownSaveError(err: Value): (e: Value)
    ensures Nullish(err) ==> e == TypeError
    ensures !Nullish(err) && Truthy(Prop(err, "formError")) ==> e == Prop(err, "formError")
    ensures !Nullish(err) && !Truthy(Prop(err, "formError")) && Truthy(Prop(err, "json")) ==> e == Prop(err, "json")
    ensures !Nullish(err) && !Truthy(Prop(err, "formError")) && !Truthy(Prop(err, "json")) ==> e == err
  {
    if Nullish(err) then TypeError
    else Or(Prop(err, "formError"), Or(Prop(err, "json"), err))
  }

  /** An error without a structured part is rethrown as it is: a TypeError stays a TypeError. */
  lemma {:induction false} PlainErrorRethrown(err: Value)
    requires err.Obj? && "formError" !in err.fields && "json" !in err.fields
    ensures ThrownSaveError(err) == err
  {
    assert Prop(err, "formError") == Undefined;
    assert Prop(err, "json") == Undefined;
  }

  /** What `rest.delete(id)` settles to. */
  datatype DeleteOutcome = Deleted | DeleteFailed(error: Value)

  type DeleteAdapter = Value -> DeleteOutcome

  /**
   * `selected.filter(i => i.id !== id)`: the selected records whose id is
   * not `id`, in their order. Ids compare by value (see README).
   */
  function Unselect(selected: seq<map<string, Value>>, id: Value): (r: seq<map<string, Value>>)
    ensures forall x :: x in r <==> x in selected && Field(x, "id") != id
    ensures |r| <= |selected|
  {
    if selected == [] then []
    else
      var rest := Unselect(selected[1..], id);
      assert forall y :: y in selected <==> y == selected[0] || y in selected[1..] by {
        assert selected == [selected[0]] + selected[1..];
      }
      if Field(selected[0], "id") != id then [selected[0]] + rest else rest
  }

  /** Unselecting distributes over concatenation, so the kept records stay in order. */
  lemma {:induction false} UnselectConcat(a: seq<map<string, Value>>, b: seq<map<string, Value>>, id: Value)
    ensures Unselect(a + b, id) == Unselect(a, id) + Unselect(b, id)
  {
    if a == [] {
      assert a + b == b;
    } else {
      assert (a + b)[0] == a[0];
      assert (a + b)[1..] == a[1..] + b;
      UnselectConcat(a[1..], b, id);
    }
  }

  /** Deleting an id nobody selected leaves the selection as it is. */
  lemma {:induction false} UnselectAbsent(selected: seq<map<string, Value>>, id: Value)
    requires forall x :: x in selected ==> Field(x, "id") != id
    ensures Unselect(selected, id) == selected
  {
    if selected != [] {
      assert selected[0] in selected;
      assert forall x :: x in selected[1..] ==> x in selected;
      UnselectAbsent(selected[1..], id);
      assert selected == [selected[0]] + selected[1..];
    }
  }

  /** Unselecting twice is unselecting once. */
  lemma {:induction false} UnselectIdempotent(selected: seq<map<string, Value>>, id: Value)
    ensures Unselect(Unselect(selected, id), id) == Unselect(selected, id)
  {
    UnselectAbsent(Unselect(selected, id), id);
  }

  /** `model.listFields` is the array of these column names. */
  predicate ListFieldsOf(model: map<string, Value>, listFields: seq<string>) {
    Field(model, "listFields") == Arr(seq(|listFields|, i requires 0 <= i < |listFields| => Str(listFields[i])))
  }

  /**
   * `Object.keys(model.properties)`: every property name once. Their order
   * (integer-like keys first, then insertion order) is not in the map and is
   * given by the list.
   */
  predicate PropertyKeysOf(model: map<string, Value>, propertyKeys: seq<string>) {
    && Field(model, "properties").Obj?
    && ListFields.Distinct(propertyKeys)
    && (forall k :: k in propertyKeys ==> k in Field(model, "properties").fields)
    && (forall k :: k in Field(model, "properties").fields ==> k in propertyKeys)
  }

  class Store {
    /** The schema the hooks read (`model`). */
    const model: map<string, Value>
    /** `atoms.option`; its `skip` and `limit` entries are `atoms.skip` and `atoms.limit`. */
    var option: map<string, Value>
    /** `atoms.wheres`: filter key to predicate. */
    var wheres: Value
    /** `atoms.items`, written by a successful query; taken as an atom independent of `ids`. */
    var items: seq<Value>
    /** `atoms.ids`, reset by a failed query. */
    var ids: seq<Value>
    /** `atoms.count` */
    var count: int
    /** `atoms.selected`: the selected records. */
    var selected: seq<map<string, Value>>
    /** `atoms.fields`: the displayed columns. */
    var fields: seq<string>
    /** `atoms.loading(name)`; a name never set reads as false. */
    var loading: map<string, bool>
    /** `atoms.item(id)`: the item cache. */
    var cache: map<Value, Value>
    /** How many times `getItems` has been called. */
    ghost var queries: nat

    constructor (model: map<string, Value>, option: map<string, Value>, wheres: Value, fields: seq<string>)
      ensures this.model == model && this.option == option && this.wheres == wheres && this.fields == fields
      ensures items == [] && ids == [] && count == 0 && selected == []
      ensures loading == map[] && cache == map[] && queries == 0
    {
      this.model := model;
      this.option := option;
      this.wheres := wheres;
      this.fields := fields;
      items, ids, count, selected := [], [], 0, [];
      loading, cache, queries := map[], map[], 0;
    }

    function Loading(name: string): bool
      reads this
    {
      name in loading && loading[name]
    }

    /** `atoms.limit` is a number. */
    predicate HasLimit()
      reads this
    {
      "limit" in option && option["limit"].Num?
    }

    function Limit(): int
      reads this
      requires HasLimit()
    {
      option["limit"].n
    }

    /** Skip and limit are numbers and the limit is positive: the page figures are finite. */
    predicate HasWindow()
      reads this
    {
      HasLimit() && Limit() > 0 && "skip" in option && option["skip"].Num?
    }

    /** `items` of `model.pagination`: `Math.ceil(count / limit)`. */
    function PageCount(): (pages: int)
      reads this
      requires HasWindow()
      ensures (pages - 1) * Limit() < count <= pages * Limit()
    {
      Pagination.PageCount(count, Limit())
    }

    /** `activePage` of `model.pagination`: `Math.floor(skip / limit) + 1`. */
    function ActivePage(): (page: int)
      reads this
      requires HasWindow()
      ensures (page - 1) * Limit() <= option["skip"].n < page * Limit()
    {
      Pagination.ActivePage(option["skip"].n, Limit())
    }

    /** While the stored offset points inside the list, the active page is one of its pages. */
    lemma {:induction false} ActivePageWithinPages()
      requires HasWindow() && 0 <= option["skip"].n < count
      ensures 1 <= ActivePage() <= PageCount()
    {
      Pagination.ActivePageInRange(option["skip"].n, Limit(), count);
    }

    /** `changePage(page)`: the offset becomes `limit * (page - 1)`, which shows `page`. */
    method ChangePage(page: int)
      requires HasLimit()
      modifies this`option
      ensures option == old(option)["skip" := Num(Pagination.PageSkip(old(Limit()), page))]
      ensures HasLimit() && Limit() == old(Limit())
      ensures old(Limit()) > 0 ==> HasWindow() && ActivePage() == page
    {
      var skip := Limit() * (page - 1);
      option := option["skip" := Num(skip)];
      if Limit() > 0 {
        Pagination.ChangePageShowsPage(Limit(), page);
      }
    }

    /** `setPageSize(size)`: the limit becomes `size` and the offset 0, which is page 1. */
    method SetPageSize(size: int)
      modifies this`option
      ensures option == old(option)["limit" := Num(size)]["skip" := Num(0)]
      ensures size > 0 ==> HasWindow() && ActivePage() == 1
    {
      option := option["limit" := Num(size)];
      option := option["skip" := Num(0)];
      if size > 0 {
        Pagination.PageSizeResetShowsFirstPage(size);
      }
    }

    /**
     * `changeFieldDisplay([field, on])`: toggles `field` in a copy of the
     * selection, then stores the schema's columns (`listFields`, then the
     * property names in `Object.keys` order) that the copy holds. The two
     * lists are read off `model`.
     */
    method ChangeFieldDisplay(field: string, on: bool, listFields: seq<string>, propertyKeys: seq<string>)
      requires ListFieldsOf(model, listFields)
      requires PropertyKeysOf(model, propertyKeys)
      modifies this`fields
      ensures fields == ListFields.Displayed(old(fields), field, on, listFields, propertyKeys)
      ensures ListFields.Distinct(fields)
      ensures ListFields.Subsequence(fields, ListFields.Columns(listFields, propertyKeys))
      ensures field in ListFields.Columns(listFields, propertyKeys) ==> (field in fields <==> on)
      ensures forall g :: g in ListFields.Columns(listFields, propertyKeys) && g != field ==>
                (g in fields <==> g in old(fields))
    {
      var fs := fields;
      if on {
        if field !in fs {
          fs := fs + [field];
        }
      } else {
        fs := ListFields.RemoveAll(fs, field);
      }
      var list := ListFields.Columns(listFields, propertyKeys);
      fields := ListFields.KeepMembers(list, fs);
    }

    /** `getItems(query)` up to `await rest.query(...)`: plans the request and raises `loading('items')`. */
    method BeginGetItems(query: map<string, Value>) returns (call: QueryCall)
      modifies this`loading, this`queries
      ensures call == PlanQuery(option, query)
      ensures loading == old(loading)["items" := true]
      ensures Loading("items")
      ensures queries == old(queries) + 1
    {
      call := PlanQuery(option, query);
      loading := loading["items" := true];
      queries := queries + 1;
    }

    /**
     * The continuation of `getItems` once the adapter settles. On success
     * the items and count are stored and the option and wheres persisted by
     * the rules of `PersistsOption` and `PersistsWheres`; on failure the ids
     * and count are reset, nothing is persisted, and the error is rethrown.
     * Either way `loading('items')` drops.
     *
     * The clauses `ids == old(ids)` on success and `items == old(items)` on
     * failure rest on the reading of `atoms.items` and `atoms.ids` as two
     * independent atoms (line 117 writes the one, line 127 resets the other).
     * The atoms module is not part of this model; if `items` is derived from
     * `ids` and the item cache, those two clauses do not describe it.
     */
    method SettleGetItems(call: QueryCall, outcome: QueryOutcome) returns (r: Result<QueryPage, Value>)
      modifies this`items, this`ids, this`count, this`option, this`wheres, this`loading
      ensures loading == old(loading)["items" := false]
      ensures !Loading("items")
      ensures outcome.Queried? ==>
        && r == Ok(QueryPage(outcome.items, outcome.total))
        && items == outcome.items && count == outcome.total && ids == old(ids)
        && option == (if PersistsOption(call) then call.option else old(option))
        && wheres == (if PersistsWheres(call) then call.wheres else old(wheres))
    ensures outcome.QueryFailed? ==>
        && r == Err(outcome.error)
        && ids == [] && count == 0 && items == old(items)
        && option == old(option) && wheres == old(wheres)
    {
      match outcome {
        case Queried(newItems, total) =>
          items := newItems;
          count := total;
          if PersistsOption(call) {
            option := call.option;
          }
          if PersistsWheres(call) {
            wheres := call.wheres;
          }
          r := Ok(QueryPage(newItems, total));
        case QueryFailed(error) =>
          ids := [];
          count := 0;
          r := Err(error);
      }
      loading := loading["items" := false];
    }

    /** The whole `getItems(query)`: one request, built by `PlanQuery` from the stored option. */
    method GetItems(query: map<string, Value>, rest: QueryAdapter) returns (r: Result<QueryPage, Value>)
      modifies this`items, this`ids, this`count, this`option, this`wheres, this`loading, this`queries
      ensures queries == old(queries) + 1
      ensures loading == old(loading)["items" := false]
      ensures !Loading("items")
      ensures var call := PlanQuery(old(option), query);
        var outcome := rest(call.option, call.wheres);
        && (outcome.Queried? ==>
            && r == Ok(QueryPage(outcome.items, outcome.total))
            && items == outcome.items && count == outcome.total && ids == old(ids)
            && option == (if PersistsOption(call) then call.option else old(option))
            && wheres == (if PersistsWheres(call) then call.wheres else old(wheres)))
        && (outcome.QueryFailed? ==>
            && r == Err(outcome.error)
            && ids == [] && count == 0 && items == old(items)
            && option == old(option) && wheres == old(wheres))
    {
      var call := BeginGetItems(query);
      r := SettleGetItems(call, rest(call.option, call.wheres));
    }

    /** `saveItem(item, partial)` up to `await rest.save(...)`: raises `loading('save')` and fixes `partial`. */
    method BeginSave(item: map<string, Value>, partial: Value) returns (call: SaveCall)
      modifies this`loading
      ensures call == SaveCall(item, PartialFlag(model, item, partial))
      ensures loading == old(loading)["save" := true]
    {
      var p := partial;
      if Truthy(Field(model, "partialSave")) || Truthy(Field(item, "__partial__")) {
        p := Bool(true);
      }
      call := SaveCall(item, p);
      loading := loading["save" := true];
    }

    /**
     * The continuation of `saveItem`: a saved record is cached under its id
     * (or the item's) and returned; a failure is rethrown as
     * `ThrownSaveError` and writes no cache entry. `loading('save')` drops
     * in both outcomes.
     */
    method SettleSave(call: SaveCall, outcome: SaveOutcome) returns (r: Result<Value, Value>)
      modifies this`cache, this`loading
      ensures loading == old(loading)["save" := false]
      ensures !Loading("save")
      ensures outcome.Saved? && CacheEntry(call.item, outcome.data).Some? ==>
        var e := CacheEntry(call.item, outcome.data).value;
        r == Ok(outcome.data) && cache == old(cache)[e.0 := e.1]
      ensures outcome.Saved? && CacheEntry(call.item, outcome.data).None? ==>
        r == Err(TypeError) && cache == old(cache)
      ensures outcome.SaveFailed? ==> r == Err(ThrownSaveError(outcome.error)) && cache == old(cache)
    {
      match outcome {
        case Saved(data) =>
          var e := CacheEntry(call.item, data);
          if e.Some? {
            cache := cache[e.value.0 := e.value.1];
            r := Ok(data);
          } else {
            PlainErrorRethrown(TypeError);
            r := Err(ThrownSaveError(TypeError));
          }
        case SaveFailed(err) =>
          r := Err(ThrownSaveError(err));
      }
      loading := loading["save" := false];
    }

    /** The whole `saveItem(item, partial)`. */
    method SaveItem(item: map<string, Value>, partial: Value, rest: SaveAdapter) returns (r: Result<Value, Value>)
      modifies this`cache, this`loading
      ensures loading == old(loading)["save" := false]
      ensures !Loading("save")
      ensures var outcome := rest(item, PartialFlag(model, item, partial));
        && (outcome.Saved? && CacheEntry(item, outcome.data).Some? ==>
            var e := CacheEntry(item, outcome.data).value;
            r == Ok(outcome.data) && cache == old(cache)[e.0 := e.1])
        && (outcome.Saved? && CacheEntry(item, outcome.data).None? ==>
            r == Err(TypeError) && cache == old(cache))
        && (outcome.SaveFailed? ==> r == Err(ThrownSaveError(outcome.error)) && cache == old(cache))
    {
      var call := BeginSave(item, partial);
      r := SettleSave(call, rest(call.item, call.partial));
    }

    /**
     * `deleteItem(id)`: deletes `id || itemId`; once the adapter has deleted
     * it, the records with that id leave the selection and `getItems()` runs
     * once, and its failure is this call's failure. A failed delete changes
     * nothing and calls nothing.
     */
    method DeleteItem(id: Value, itemId: Value, del: DeleteAdapter, rest: QueryAdapter) returns (r: Result<(), Value>)
      modifies this`selected, this`items, this`ids, this`count, this`option, this`wheres, this`loading, this`queries
      ensures var target := Or(id, itemId);
        && (del(target).DeleteFailed? ==>
            && r == Err(del(target).error)
            && selected == old(selected) && queries == old(queries)
            && items == old(items) && ids == old(ids) && count == old(count)
            && option == old(option) && wheres == old(wheres) && loading == old(loading))
        && (del(target).Deleted? ==>
            var outcome := rest(old(option), Undefined);
            && selected == Unselect(old(selected), target)
            && queries == old(queries) + 1
            && loading == old(loading)["items" := false]
            && !Loading("items")
            && option == old(option) && wheres == old(wheres)
            && (outcome.Queried? ==>
                  r == Ok(()) && items == outcome.items && count == outcome.total && ids == old(ids))
            && (outcome.QueryFailed? ==>
                  r == Err(outcome.error) && ids == [] && count == 0 && items == old(items)))
    {
      var target := Or(id, itemId);
      match del(target)
      case DeleteFailed(error) =>
        r := Err(error);
      case Deleted =>
        selected := Unselect(selected, target);
        assert PlanQuery(option, map[]).option == option;
        var page := GetItems(map[], rest);
        match page
        case Ok(_) =>
          r := Ok(());
        case Err(e) =>
          r := Err(e);
    }
  }
}
