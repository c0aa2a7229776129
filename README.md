# xadmin model runtime in Dafny

This project models the state-and-behaviour layer of the xadmin admin-panel
framework, in which a declarative JSON schema (a "model") drives the list, form,
search and relation screens. It covers three parts:

- **The model hooks** (`packages/xadmin-model/src/hooks.js`):
  - the list/query/item store: query planning and persistence, loading flags, save with its cache write and error mapping, delete with unselect and refresh;
  - the pagination and page-size arithmetic;
  - column toggling;
  - the default item and title of `model.get`, and its fetch state;
  - permissions, row actions, header titles, orderability, the `editable` rule, and the field-renderer resolver chain memoised on the schema.
- **The search bar** (`packages/xadmin-model/src/search.js`): the `searchbar` predicate it writes into the wheres, the filter it dispatches, and the search titles.
- **The relation panel** (`packages/xadmin-antd/src/model/components/ChildrenModel.js`):
  - the child schema derived for a parent record, by shallow merges;
  - the parent filter and the per-parent store key;
  - the reference values merged into the child form;
  - button visibility and when the list refreshes after a save.

JavaScript values are modelled by `JsValue.Value`. This covers truthiness, `||`
and `&&` on values, property reads, object spread, loose equality and
template-literal conversion. Objects are maps with no key order. Where the
source depends on key order (`Object.keys(model.properties)`), the order is a
parameter.

The REST adapter (`rest.query`, `rest.save`, `rest.delete`, `rest.get`) is a
parameter, and the request's outcome is the model's input. Each `async` hook is
split at its `await`. `Begin…` runs up to the request and returns it. `Settle…`
runs the continuation on the adapter's outcome. A third method composes the two.
This is how a loading flag can be stated as raised while the request is pending
and cleared once it settles.

Files:

- `wrappers.dfy`: Option and Result.
- `js_value.dfy`: JavaScript values.
- `pagination.dfy`: page arithmetic.
- `list_fields.dfy`: column selection.
- `store.dfy`: the store class and its query, save and delete rules.
- `item.dfy`: `model.get`.
- `view_rules.dfy`: permission, header, order, editable and renderer rules.
- `search.dfy`: the search bar.
- `children_model.dfy`: the relation panel.

Where the code behaves other than its names suggest, the model follows the
code:

- **Wheres passed to the adapter.** `getItems` reads `.content` of the stored
  wheres' loadable, which has no such property (hooks.js:110). So without a
  truthy `query.wheres`, the adapter receives `undefined` rather than the stored
  filters (`ModelStore.PlanQuery`).
- **Which atom a failed query resets.** The failure path resets `atoms.ids` and
  `atoms.count`, while success writes `atoms.items` (hooks.js:117, 127). The
  atoms module is not part of this model, and the model takes `items` and `ids`
  to be independent atoms (see "## Left out"). Under that reading, a failed
  query leaves the items as they were.
- **Loading after a failed fetch.** The item fetch of `model.get` has no
  rejection handler (hooks.js:42-44). After a failed fetch, `loading` stays true
  (`ModelItem.ItemLoader.SettleFetch`).
- **What the selection holds.** The selection holds records and is filtered by
  their `.id` (hooks.js:96), not a set of ids.
- **The `refFilter` prop.** It replaces the `{ [refField]: parent.id }` filter
  and is not merged with it (ChildrenModel.js:35).
- **The search writes in place.** A truthy search assigns `searchbar` on the
  stored wheres object itself (search.js:20-28). Clearing the search copies
  through `_.omit` (search.js:31).
- **The `editable` rule.** A field listed in `editableFields` is NOT editable
  outside a nested context (hooks.js:319).

## Model

| member | source | states |
|---|---|---|
| `Pagination.PageCount` | packages/xadmin-model/src/hooks.js:198 | the page count is the least number of `limit`-sized pages holding `count` items: `(pages-1)*limit < count <= pages*limit` |
| `Pagination.ActivePage` | packages/xadmin-model/src/hooks.js:199 | the active page is the one whose window `[(page-1)*limit, page*limit)` contains `skip` |
| `Pagination.PageSkip` | packages/xadmin-model/src/hooks.js:202 | the offset a page change writes lies in the window of that page |
| `Pagination.PageOfWindow` | packages/xadmin-model/src/hooks.js:199 | the page is determined by the offset: any page whose window holds `skip` is the active page |
| `Pagination.ChangePageShowsPage` | packages/xadmin-model/src/hooks.js:201-204 | after `changePage(p)` writes `limit*(p-1)`, the active page is `p`, for every `p` |
| `Pagination.PageSizeResetShowsFirstPage` | packages/xadmin-model/src/hooks.js:215-218 | the offset 0 that `setPageSize` writes is page 1 of every positive size |
| `Pagination.ActivePageInRange` | packages/xadmin-model/src/hooks.js:198-199 | an offset inside the list gives `1 <= activePage <= page count` |
| `Pagination.PageSkipInRange` | packages/xadmin-model/src/hooks.js:201-204 | changing to a page between 1 and the page count writes an offset inside the list |
| `ListFields.Dedupe` | packages/xadmin-model/src/hooks.js:235 | `Array.from(new Set(s))` is duplicate-free, has exactly the elements of `s`, and returns a list without repeats unchanged |
| `ListFields.DedupePrefix` | packages/xadmin-model/src/hooks.js:235 | deduplicating `a + b` starts with the deduplicated `a`; with the clauses above, this fixes the order of first occurrences |
| `ListFields.RemoveAll` | packages/xadmin-model/src/hooks.js:233 | `_.remove` drops every occurrence of the field, keeps every other element with its multiplicity, and keeps their order |
| `ListFields.KeepMembers` | packages/xadmin-model/src/hooks.js:236 | the filter keeps exactly the listed elements that are selected, in list order, without introducing repeats |
| `ListFields.Toggle` | packages/xadmin-model/src/hooks.js:227-234 | the working copy holds the toggled field iff it was switched on, and every other field iff it was selected |
| `ListFields.Columns` | packages/xadmin-model/src/hooks.js:235 | the candidate columns are the list fields and property names, each once: the deduplicated list fields first, then the rest; without repeats, exactly `listFields + propertyKeys` |
| `ListFields.Displayed` | packages/xadmin-model/src/hooks.js:227-236 | a toggle stores a duplicate-free subsequence of the columns that holds the field iff switched on; every other column keeps its membership |
| `ListFields.SelectOnAllColumns` | packages/xadmin-model/src/hooks.js:226-237 | with every column selected, switching one on leaves all columns displayed in schema order |
| `ModelStore.PlanQuery` | packages/xadmin-model/src/hooks.js:109-111 | the effective option is the stored option overridden key by key by the non-`wheres` query keys; the wheres sent is `query.wheres` when truthy, else `undefined` |
| `ModelStore.PartialFlag` | packages/xadmin-model/src/hooks.js:62-64 | `partial` is `true` whenever the schema's `partialSave` or the item's `__partial__` is truthy, and the caller's value otherwise |
| `ModelStore.CacheEntry` | packages/xadmin-model/src/hooks.js:66 | a saved record is cached under `data.id`, else `item.id`, with the value `data`, else the item; no entry when `data` is `undefined` or `null` |
| `ModelStore.ThrownSaveError` | packages/xadmin-model/src/hooks.js:77 | the error thrown is `err.formError`, else `err.json`, else `err` (a TypeError for a nullish `err`) |
| `ModelStore.PlainErrorRethrown` | packages/xadmin-model/src/hooks.js:77 | an error object without `formError` or `json` is rethrown unchanged |
| `ModelStore.Unselect` | packages/xadmin-model/src/hooks.js:96 | after a delete the selection holds exactly the records whose id is not the deleted one |
| `ModelStore.UnselectConcat` | packages/xadmin-model/src/hooks.js:96 | unselecting distributes over concatenation, so kept records stay in order |
| `ModelStore.UnselectAbsent` | packages/xadmin-model/src/hooks.js:96 | deleting an id nobody selected leaves the selection unchanged |
| `ModelStore.UnselectIdempotent` | packages/xadmin-model/src/hooks.js:96 | unselecting an id twice is unselecting it once |
| `ModelStore.Store.ChangePage` | packages/xadmin-model/src/hooks.js:201-204 | sets `skip = limit*(page-1)` and nothing else; with a positive limit the active page becomes `page` |
| `ModelStore.Store.PageCount` | packages/xadmin-model/src/hooks.js:198 | the store's page count is the least number of `limit`-sized pages holding its `count` |
| `ModelStore.Store.ActivePage` | packages/xadmin-model/src/hooks.js:199 | the store's active page is the one whose window contains its `skip` |
| `ModelStore.Store.ActivePageWithinPages` | packages/xadmin-model/src/hooks.js:198-199 | while the stored offset is inside the list, the active page lies between 1 and the page count |
| `ModelStore.Store.SetPageSize` | packages/xadmin-model/src/hooks.js:215-218 | sets `limit = size` and `skip = 0`; with a positive size the active page is 1 |
| `ModelStore.Store.ChangeFieldDisplay` | packages/xadmin-model/src/hooks.js:226-237 | with the columns read off the store's schema (`listFields`, then the property names), the stored columns are the toggle's result: a duplicate-free subsequence of the columns with the toggled field iff on and the others unchanged |
| `ModelStore.Store.BeginGetItems` | packages/xadmin-model/src/hooks.js:108-113 | the request is planned from the stored option and `loading('items')` is raised while it is pending |
| `ModelStore.Store.SettleGetItems` | packages/xadmin-model/src/hooks.js:115-133 | success stores items and count and persists option/wheres only when overridden; failure resets ids and count, persists nothing and rethrows the same error; `loading('items')` ends false |
| `ModelStore.Store.GetItems` | packages/xadmin-model/src/hooks.js:108-134 | one query, sent with the planned option and wheres, with the success and failure states above; `loading('items')` ends false and every other loading flag is unchanged |
| `ModelStore.Store.BeginSave` | packages/xadmin-model/src/hooks.js:59-65 | `loading('save')` is raised and the request carries the forced partial flag |
| `ModelStore.Store.SettleSave` | packages/xadmin-model/src/hooks.js:65-80 | a saved record is cached and returned; a failure writes no cache entry and throws the mapped error; `loading('save')` ends false |
| `ModelStore.Store.SaveItem` | packages/xadmin-model/src/hooks.js:59-81 | the whole save: adapter called with the forced partial flag, then the cache and error rules above; `loading('save')` ends false and every other loading flag is unchanged |
| `ModelStore.Store.DeleteItem` | packages/xadmin-model/src/hooks.js:91-100 | deletes `id` or else `itemId`; on success unselects it and runs `getItems()` exactly once, with that query's state and loading rules; a failed delete changes nothing and queries nothing |
| `ModelItem.DefaultData` | packages/xadmin-model/src/hooks.js:23-34 | a truthy item is kept; without an item and without a schema default, the result is the query as an object when it is non-empty and the item otherwise |
| `ModelItem.QueryOverridesDefault` | packages/xadmin-model/src/hooks.js:29-31 | the merged object has exactly the default's keys and the query's; preset query values win, and the other default fields are kept |
| `ModelItem.DefaultWithoutQuery` | packages/xadmin-model/src/hooks.js:25-28 | without an item or a query the form starts from the schema default as it is |
| `ModelItem.ItemTitle` | packages/xadmin-model/src/hooks.js:50 | the title is the edit title iff an id is given, and names the schema title |
| `ModelItem.NeedsFetch` | packages/xadmin-model/src/hooks.js:40 | a fetch needs an id; with an id, the data is fetched iff the shown data's `id` differs from it, so missing data, data without an `id` and stale data are fetched |
| `ModelItem.FetchedIsCurrent` | packages/xadmin-model/src/hooks.js:40 | a fetched record carrying the requested id is not fetched again |
| `ModelItem.NoIdNoFetch` | packages/xadmin-model/src/hooks.js:40 | without an id nothing is fetched |
| `ModelItem.ItemLoader.constructor` | packages/xadmin-model/src/hooks.js:36 | starts from the default data, loading iff it is missing and an id is given |
| `ModelItem.ItemLoader.OnId` | packages/xadmin-model/src/hooks.js:38-47 | fetches iff an id is given that the shown data does not carry; while fetching, the old data stays and `loading` is raised |
| `ModelItem.ItemLoader.SettleFetch` | packages/xadmin-model/src/hooks.js:42-44 | a fetched payload is shown and `loading` cleared; a failed fetch changes nothing, so `loading` stays raised |
| `ViewRules.ModelPermissions` | packages/xadmin-model/src/hooks.js:164-168 | each right holds iff the permission object and its flag are truthy; no permission object grants nothing |
| `ViewRules.RowActions` | packages/xadmin-model/src/hooks.js:283 | a row's actions are the schema's `itemActions`, else `['edit', 'delete']` |
| `ViewRules.RowActionsPresent` | packages/xadmin-model/src/hooks.js:283 | a row always has actions to render |
| `ViewRules.HeaderTitle` | packages/xadmin-model/src/hooks.js:287-288 | the header is the property's `header`, else its `title`, else the start-cased field name |
| `ViewRules.HeaderNeverBlank` | packages/xadmin-model/src/hooks.js:288 | the header is never blank while the start-cased name is not |
| `ViewRules.CanOrder` | packages/xadmin-model/src/hooks.js:294-296 | an explicit `canOrder` is returned as it is; otherwise the column orders iff it names an `orderField` or its type is neither object nor array; a missing property orders |
| `ViewRules.CanOrderByType` | packages/xadmin-model/src/hooks.js:295-296 | without `canOrder` or `orderField`, a column orders iff its type is neither object nor array |
| `ViewRules.Editable` | packages/xadmin-model/src/hooks.js:319 | with no `editableFields` every field is editable, and so is an unlisted field; a listed field is editable exactly in a nested cell (`nest == true`) |
| `ViewRules.FoldFrom` | packages/xadmin-model/src/hooks.js:311-313 | the reduce: no resolvers leave the initial value, one resolver is applied once to it, and resolvers that all pass through leave it unchanged |
| `ViewRules.ResolveRender` | packages/xadmin-model/src/hooks.js:310-313 | the reduce starts from `null`: no resolvers, or only resolvers that pass through, find no renderer |
| `ViewRules.FoldConcat` | packages/xadmin-model/src/hooks.js:311-313 | folding the resolvers over two lists is folding the second from where the first ended |
| `ViewRules.FirstResolverDecides` | packages/xadmin-model/src/hooks.js:311-313 | after resolvers that pass through, the next resolver decides from the initial value |
| `ViewRules.MemoKey` | packages/xadmin-model/src/hooks.js:305 | the memo key is `${schema.name}.${field}` for a nested schema, else the field name |
| `ViewRules.FieldRenderMemo.ListItem` | packages/xadmin-model/src/hooks.js:301-321 | a non-nullish memo entry is reused untouched, a nullish one is resolved by the fold; other keys are kept; the cell carries the renderer, the value at the field path and the `editable` rule |
| `Search.SearchPredicates` | packages/xadmin-model/src/search.js:22-24 | one `{ field: { like: search } }` predicate per search field, in order |
| `Search.SearchWheres` | packages/xadmin-model/src/search.js:20-32 | a truthy search sets `searchbar` to an `or` of the predicates (two or more fields), the single predicate (one field), or leaves the wheres (no fields); a falsy one removes `searchbar`; every other key is kept |
| `Search.ClearUndoesSearch` | packages/xadmin-model/src/search.js:20-31 | clearing after a search restores the wheres as they were without `searchbar` |
| `Search.SearchReplacesSearch` | packages/xadmin-model/src/search.js:21-28 | a second search replaces the first |
| `Search.UserSearchExample` | packages/xadmin-model/src/search.js:21-26 | fields `name`, `email` and search `bob` give `{ searchbar: { or: [ {name: {like: 'bob'}}, {email: {like: 'bob'}} ] } }` |
| `Search.PostSearchExample` | packages/xadmin-model/src/search.js:27-28 | the one field `title` and search `x` give `{ searchbar: { title: { like: 'x' } } }` |
| `Search.SearchTitles` | packages/xadmin-model/src/search.js:17 | one title per search field: the property's `title`, else the field name |
| `Search.SearchFilter` | packages/xadmin-model/src/search.js:33 | the dispatched filter is the previous one with `skip = 0` and `search` set, and no other key changed |
| `Search.SearchBar.OnSearch` | packages/xadmin-model/src/search.js:19-34 | dispatches `SearchWheres` and `SearchFilter`; a truthy search also changes the stored wheres in place, and clearing does not |
| `ChildrenModel.ResolveModel` | packages/xadmin-antd/src/model/components/ChildrenModel.js:19 | a model name resolves through the registry; a schema is used as given |
| `ChildrenModel.DerivedPermission` | packages/xadmin-antd/src/model/components/ChildrenModel.js:27-31 | every original flag is copied, then `edit = false` and `childEdit = permission && permission.edit` |
| `ChildrenModel.DerivedSchema` | packages/xadmin-antd/src/model/components/ChildrenModel.js:20-33 | the schema keys, then `parent`, the actions and the permission, then every `modelProps` key overriding all of them |
| `ChildrenModel.DerivedActionsShape` | packages/xadmin-antd/src/model/components/ChildrenModel.js:22-26 | the derived actions are the original ones followed by exactly one edit action |
| `ChildrenModel.ChildPermissionsNarrowed` | packages/xadmin-antd/src/model/components/ChildrenModel.js:27-31 | unless `modelProps` replaces it, the child cannot edit in place, shows the child edit button iff the original could edit, and keeps add and delete |
| `ChildrenModel.EditVisible` | packages/xadmin-antd/src/model/components/ChildrenModel.js:98 | the child edit button shows iff the permission is truthy and its `childEdit` is truthy |
| `ChildrenModel.AddVisible` | packages/xadmin-antd/src/model/components/ChildrenModel.js:87 | the add button shows iff the schema's permission grants `add`, the `canAdd` rule of `model.permission` |
| `ChildrenModel.ParentFilter` | packages/xadmin-antd/src/model/components/ChildrenModel.js:35 | the filters are `refFilter` when given (replacing), else `{ [refField]: parent.id }` |
| `ChildrenModel.InitialValues` | packages/xadmin-antd/src/model/components/ChildrenModel.js:34-36 | the panel store starts from `{ wheres: { filters } }` and nothing else |
| `ChildrenModel.ModelKey` | packages/xadmin-antd/src/model/components/ChildrenModel.js:48 | the key is the model name (or the string given), `_`, and the parent id |
| `ChildrenModel.ModelKeysApart` | packages/xadmin-antd/src/model/components/ChildrenModel.js:48 | panels of one model for parents whose ids print differently never share a store key |
| `ChildrenModel.RefOverlay` | packages/xadmin-antd/src/model/components/ChildrenModel.js:127 | the saved item `{ ...values, ...refData }` (and the form's initial values at line 153, the same merge) has every `refData` key overriding |
| `ChildrenModel.UnchangedFormSavesInitial` | packages/xadmin-antd/src/model/components/ChildrenModel.js:127 | submitting the form unchanged saves exactly what it showed |
| `ChildrenModel.RefreshAfterSave` | packages/xadmin-antd/src/model/components/ChildrenModel.js:79-85 | the refresh is immediate iff `refreshTimeout` is falsy, and otherwise deferred by it |

## Left out

- Rendering is not modelled. This covers JSX, `renderActions`, the Modal, Button and SchemaForm layout, `packages/xadmin-antd/src/form/components/Select.js`, and the panels' `show` flags.
- Recoil subscriptions, effect triggering (`model.effect`) and memo dependencies are not modelled. `ItemLoader.OnId` is the body of the `model.get` effect. When it runs is not modelled.
- `model.select`, `allSelected` and `itemSelected` are left out. They live in the atoms module, which is not part of this model.
- `model.list` and `model.count` are left out, because they only read atoms. `model.item` is left out, because it only combines the get, save and delete hooks.
- `model.event` is left out, because it is browser navigation and history.
- `model.query` is left out: it is a one-off fetch on mount with no error handling.
- Notifications (`message.success`), the `app.error` sink and translation (`_t`) are left out. A title is modelled as the untranslated `EditTitle` or `CreateTitle`.
- `setTimeout` timing is not modelled. Only the choice between an immediate and a deferred refresh is.
- Overlapping asynchronous calls (last write wins) are not modelled. Each `Begin…` is settled before the next call.
- `getFieldProp` (the `utils` module) and lodash `startCase` are not part of this model. Their results are parameters.
- The atoms module is not part of this model. `atoms.skip` and `atoms.limit` are taken to be the `skip` and `limit` entries of the stored option. The reset defaults are taken to be `[]` and `0`.
- `ModelStore.Store.SettleGetItems`, `ModelStore.Store.GetItems` and `ModelStore.Store.DeleteItem` take `items` and `ids` to be independent atoms. Their clauses that keep `ids` on success and `items` on failure rest on that reading. If `items` is derived from `ids` and the item cache, those clauses do not describe the source.
- JavaScript numbers are integers here. Fractions, `NaN` and `Infinity` are not modelled.
- `ModelStore.Store.PageCount` and `ModelStore.Store.ActivePage` require a positive numeric limit. With a limit of 0, JavaScript yields `Infinity` or `NaN`.
- `ModelStore.Store.ChangePage` requires a numeric limit. JavaScript coerces any other limit: `null` writes 0, a numeric string writes its number, and most other values write `NaN`.
- `JsValue.Spread` copies the keys of objects only. Spreading a string or an array, which copies index keys, is not modelled.
- `JsValue.LooseEq` omits the number-to-string coercion of `==`. Ids are compared without converting `"5"` to `5`.
- `JsValue.LooseEqTrue`, used by `ViewRules.Editable`, accepts only `true`, `1` and `"1"`. JavaScript's `nest == true` also holds for other values that coerce to 1, such as `"01"`, `" 1"`, `"1.0"` and `[1]`.
- `JsValue.PathGet` follows dotted paths only. Bracket paths and array index steps are not modelled.
- `JsValue.ToDisplayString` writes a function as its tag, not its source text.
- `ModelStore.Unselect` compares ids by value. JavaScript's `!==` compares object ids by reference.
- `ViewRules.Editable` requires `editableFields` to be absent or an array. A string or any other value is not modelled.
- `ChildrenModel.DerivedSchema` requires `itemActions` to be absent or an array. Spreading other iterables is not modelled.
- `ChildrenModel.ResolveModel` returns no schema for a name that is not registered as an object. For an unregistered name, `cmodel` is `undefined` and the source throws when it reads `cmodel.itemActions`. A name registered as a non-nullish primitive does not throw in the source; the model gives no schema for it either.
- `Search.SearchBar.OnSearch` takes the schema's `searchFields` as a list. A truthy search with no `searchFields` throws in the source and is not modelled.
- `Search.SearchTitles` requires every search field to name a property. The source throws on a missing one.
- `ModelStore.Store.ChangeFieldDisplay` takes `listFields` and the order of the property names as lists. An absent `listFields`, which throws in the source, is not modelled.
- `ModelStore.Store.SaveItem` takes the item as an object. A notification that throws after a successful save is not modelled.
- `ChildrenModel.ParentFilter` requires a truthy `refFilter` or a non-nullish `parent`. With neither, the source throws a TypeError reading `parent.id`, and the model does not capture that throw.
- `ChildrenModel.InitialValues` has the same requires as `ParentFilter`, for the same reason.
- `ChildrenModel.ModelKey` requires a non-nullish `parent`. With a nullish one, the source throws a TypeError reading `parent.id`, and the model does not capture that throw.
- The `sizes` that `model.pagesize` offers come from the application's configuration (default `[15, 30, 50, 100]`). That lookup is not modelled.
