/**
 * The `model.searchbar` hook (packages/xadmin-model/src/search.js): one
 * free-text search turned into a `like` predicate per searchable field,
 * stored under the reserved `searchbar` key of the wheres, and a list
 * request from offset 0.
 */
module Search {
  import opened Wrappers
  import opened JsValue

  /** The filter key the search owns. */
  const SearchKey: string := "searchbar"

  /** `{ [field]: { like: search } }` */
  function LikePredicate(field: string, search: Value): Value {
    Obj(map[field := Obj(map["like" := search])])
  }

  /** `searchFields.map(field => ({ [field]: { like: search } }))` */
  function SearchPredicates(fields: seq<string>, search: Value): (preds: seq<Value>)
    ensures |preds| == |fields|
    ensures forall i :: 0 <= i < |fields| ==> preds[i] == LikePredicate(fields[i], search)
  {
    seq(|fields|, i requires 0 <= i < |fields| => LikePredicate(fields[i], search))
  }

  /**
   * The wheres `onSearch(search)` dispatches, from the stored wheres
   * (`{}` when there is none): a truthy search sets `searchbar` to an `or`
   * of the field predicates, or to the single predicate when there is one
   * field, and leaves the wheres as it is when there is none; a falsy
   * search drops `searchbar`.
   */
  function SearchWheres(wheres: map<string, Value>, search: Value, fields: seq<string>): (r: map<string, Value>)
    ensures Truthy(search) && |fields| > 1 ==>
      r == wheres[SearchKey := Obj(map["or" := Arr(SearchPredicates(fields, search))])]
    ensures Truthy(search) && |fields| == 1 ==> r == wheres[SearchKey := LikePredicate(fields[0], search)]
    ensures Truthy(search) && |fields| == 0 ==> r == wheres
    ensures !Truthy(search) ==> SearchKey !in r && r.Keys == wheres.Keys - {SearchKey}
    ensures forall k :: k in wheres && k != SearchKey ==> k in r && r[k] == wheres[k]
    ensures forall k :: k in r && k != SearchKey ==> k in wheres
  {
    if Truthy(search) then
      var preds := SearchPredicates(fields, search);
      if |preds| > 1 then wheres[SearchKey := Obj(map["or" := Arr(preds)])]
      else if |preds| > 0 then wheres[SearchKey := preds[0]]
      else wheres
    else wheres - {SearchKey}
  }

  /** Clearing the search after a search restores the wheres that had no `searchbar`. */
  lemma {:induction false} ClearUndoesSearch(wheres: map<string, Value>, search: Value, cleared: Value, fields: seq<string>)
    requires SearchKey !in wheres
    requires Truthy(search) && !Truthy(cleared)
    ensures SearchWheres(SearchWheres(wheres, search, fields), cleared, fields) == wheres
  {
    var r := SearchWheres(SearchWheres(wheres, search, fields), cleared, fields);
    assert r.Keys == wheres.Keys;
  }

  /** A second search replaces the first: only the last search string is kept. */
  lemma {:induction false} SearchReplacesSearch(wheres: map<string, Value>, s1: Value, s2: Value, fields: seq<string>)
    requires Truthy(s1) && Truthy(s2)
    ensures SearchWheres(SearchWheres(wheres, s1, fields), s2, fields) == SearchWheres(wheres, s2, fields)
  {
  }

  /** The `User` schema searches `name` and `email`: a search for "bob" is an `or` of two `like`s. */
  lemma {:induction false} UserSearchExample()
    ensures SearchWheres(map[], Str("bob"), ["name", "email"])
         == map[SearchKey := Obj(map["or" := Arr([
              Obj(map["name" := Obj(map["like" := Str("bob")])]),
              Obj(map["email" := Obj(map["like" := Str("bob")])])])])]
  {
    var preds := SearchPredicates(["name", "email"], Str("bob"));
    assert preds == [LikePredicate("name", Str("bob")), LikePredicate("email", Str("bob"))];
  }

  /** The `Post` schema searches `title` only: no `or` wrapper. */
  lemma {:induction false} PostSearchExample()
    ensures SearchWheres(map[], Str("x"), ["title"])
         == map[SearchKey := Obj(map["title" := Obj(map["like" := Str("x")])])]
  {
  }

  /**
   * `searchTitles`: for each search field its property's `title`, else the
   * field name; `None` when the schema has no `searchFields`. Every field
   * must name a property (reading `title` of a missing one throws).
   */
  function SearchTitles(searchFields: Option<seq<string>>, properties: map<string, Value>): (titles: Option<seq<Value>>)
    requires searchFields.Some? ==> forall f :: f in searchFields.value ==> f in properties && !Nullish(properties[f])
    ensures titles.Some? <==> searchFields.Some?
    ensures titles.Some? ==> |titles.value| == |searchFields.value|
    ensures titles.Some? ==> forall i :: 0 <= i < |titles.value| ==>
      var f := searchFields.value[i];
      titles.value[i] == (if Truthy(Prop(properties[f], "title")) then Prop(properties[f], "title") else Str(f))
  {
    match searchFields
    case None => None
    case Some(fs) =>
      Some(seq(|fs|, i requires 0 <= i < |fs| => assert fs[i] in fs; Or(Prop(properties[fs[i]], "title"), Str(fs[i]))))
  }

  /** The `GET_ITEMS` action `onSearch` dispatches. */
  datatype GetItemsAction = GetItemsAction(filter: map<string, Value>, wheres: map<string, Value>)

  /** `{ ...filter, skip: 0, search }` */
  function SearchFilter(filter: Value, search: Value): (f: map<string, Value>)
    ensures f.Keys == Spread(filter).Keys + {"skip", "search"}
    ensures f["skip"] == Num(0) && f["search"] == search
    ensures forall k :: k in Spread(filter) && k != "skip" && k != "search" ==> f[k] == Spread(filter)[k]
  {
    Spread(filter)["skip" := Num(0)]["search" := search]
  }

  /** The part of the model state the search bar reads and writes. */
  class SearchBar {
    /** `modelState.wheres`; `None` when absent. */
    var wheres: Option<map<string, Value>>
    /** `modelState.filter` */
    var filter: Value

    constructor (wheres: Option<map<string, Value>>, filter: Value)
      ensures this.wheres == wheres && this.filter == filter
    {
      this.wheres := wheres;
      this.filter := filter;
    }

    /**
     * `onSearch(search)`. A truthy search assigns `searchbar` on the stored
     * wheres object itself, so the stored state changes before the action is
     * dispatched; clearing goes through the copying `_.omit` and leaves the
     * stored wheres alone. `searchFields` are the schema's.
     */
    method OnSearch(search: Value, searchFields: seq<string>) returns (action: GetItemsAction)
      modifies this`wheres
      ensures action.wheres == SearchWheres(old(wheres).GetOr(map[]), search, searchFields)
      ensures action.filter == SearchFilter(filter, search)
      ensures wheres == (if Truthy(search) && old(wheres).Some? then Some(action.wheres) else old(wheres))
    {
      var w := wheres.GetOr(map[]);
      var stored := wheres.Some?;
      if Truthy(search) {
        var searchs := SearchPredicates(searchFields, search);
        if |searchs| > 1 {
          w := w[SearchKey := Obj(map["or" := Arr(searchs)])];
        } else if |searchs| > 0 {
          w := w[SearchKey := searchs[0]];
        }
        if stored {
          wheres := Some(w);
        }
      } else {
        w := w - {SearchKey};
      }
      action := GetItemsAction(SearchFilter(filter, search), w);
    }
  }
}
