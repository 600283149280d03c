# Order views and relation dialogs of the 8base CRM front end

This project models the logic of the CRM admin front end. The logic is small and all of it is pure. It covers three pieces:

- **The orders table on a client's page.** Each cell is rendered from a column descriptor and a row record. The descriptor gives the field type, whether the column is a list, the name as a dotted path, and the format. Special cases:
  - The `totalPrice` column shows the rounded sum of price times quantity.
  - The `orderItems` relation shows one `name - $price x quantity pcs` tag per line item.
- **The order page.** It shows a single order as one row: client name, address, email, product tags, `"$"` plus the rounded total, delivery date and status.
- **The create and edit dialogs.**
  - `getRelationOptions` turns a fetched list of records into select options `{value: id, label: _description || 'Untitled Record'}`.
  - Options are empty while the list query loads.
  - The edit dialogs submit `{...data, id}`.

The model follows the JavaScript behaviour closely:

- JavaScript values are a JSON-like `Value`, and `undefined` is `None`.
- Evaluation has two outcomes. It either yields a value or throws a TypeError (`Thrown`). A TypeError comes from:
  - reading a property of `null` or `undefined`;
  - calling `map` on something that is not an array;
  - calling `reduce` on something that is not an array;
  - indexing `SWITCH_VALUES` with an unknown format.
- Truthiness, `||`, `split('.')`, `objectPath.get` and `String(v)` are written out in module `Js`.
- The price arithmetic has a `NaN` case.
- `Math.round(x * 100) / 100` is `(x * 100 + 0.5).Floor / 100`.

Two things the model cannot compute are passed in as a `Host` value:

- luxon's `DateTime.fromISO(v).toLocaleString(style)`;
- JavaScript's number-to-string conversion.

`ClientOrdersTable` also takes three constants from `@8base/utils` in a `Config`: `DATE_FORMATS.DATE`, `SWITCH_FORMATS.CUSTOM` and `SWITCH_VALUES`.

The partners the properties are proved against:

- `Subtotal`, a plain recursive sum over `LineItem`s (name, price, quantity). The left fold `reduce` is proved to agree with it.
- `IsLineRecord` and `AreLineRecords`, which relate a fetched order item to a `LineItem`. They constrain only `product.name`, `product.price` and `quantity`, so a record may carry any other keys, such as the `id` and `_description` the queries also ask for (`QueriedItem` builds exactly the queried shape).
- `Describes`, which states what an option must show for a record.
- `Join` and `Nest`, which invert `split` and `objectPath.get`.

Two behaviours of the code are worth stating:

- **Rounding.** `Math.round` rounds halves toward +infinity, so a total of -0.005 becomes -0 and not -0.01 (`LineItems.RoundCentsHalfUp`).
- **Missing data.** These paths throw rather than render something empty:
  - a missing `orderItems`, in both order views;
  - a falsy line item on the order page;
  - a `null` record in `getRelationOptions`;
  - a `SWITCH_VALUES` format that has no table;
  - an `orderItems.items` that is not an array, when the total is summed with `reduce`.

  The model keeps these throws as `Thrown`.

## Model

| member | source | states |
|---|---|---|
| Js.Prop | client/src/routes/orders/OrderPage.js:86 | `o.key` throws exactly when `o` is `null` or `undefined`; otherwise it is the own property or `undefined` |
| Js.TruthyOnly | client/src/routes/clients/ClientOrdersTable.js:147 | the `!!item` guard keeps exactly the truthy elements and never adds any |
| Js.TruthyOnlyAppend | client/src/routes/clients/ClientOrdersTable.js:147 | the guard keeps the input order (distributes over concatenation) |
| Js.TruthyOnlyAllTruthy | client/src/routes/clients/ClientOrdersTable.js:147 | with no falsy element nothing is dropped |
| Js.Split | client/src/routes/clients/ClientOrdersTable.js:139 | `split('.')` always yields at least one part |
| Js.SplitPartsLackSeparator | client/src/routes/clients/ClientOrdersTable.js:139 | no part of a dotted name contains a dot |
| Js.JoinSplit | client/src/routes/clients/ClientOrdersTable.js:139 | joining the parts with `.` gives back the column name |
| Js.SplitJoin | client/src/routes/clients/ClientOrdersTable.js:203 | splitting a join of dot-free keys gives back the keys |
| Js.SplitNoSeparator | client/src/routes/clients/ClientOrdersTable.js:139 | a name without a dot is a one-key path |
| Js.Lookup | client/src/routes/clients/ClientOrdersTable.js:140 | `objectPath.get` with an empty path is the value itself; a step succeeds only on an object that has the key |
| Js.LookupAppend | client/src/routes/clients/ClientOrdersTable.js:207 | `objectPath.get(v, [...path, key])` is looking up `path` and then `key` from there |
| Js.LookupNest | client/src/routes/clients/ClientOrdersTable.js:140 | `objectPath.get` finds a value placed at any depth of its path |
| Js.LookupPastLeaf | client/src/routes/clients/ClientOrdersTable.js:140 | a path that goes past a non-object value yields `undefined`, never an error |
| LineItems.MathRound | client/src/routes/clients/ClientOrdersTable.js:155 | `Math.round` is within half of its argument, halves going up |
| LineItems.RoundCents | client/src/routes/clients/ClientOrdersTable.js:155 | the rounded amount is a whole number of cents, at most half a cent from the input, halves going up |
| LineItems.RenderNumber | client/src/routes/clients/ClientOrdersTable.js:155 | `renderNumber` is NaN exactly for NaN, otherwise a whole number of cents within half a cent |
| LineItems.LineAmount | client/src/routes/clients/ClientOrdersTable.js:159 | an item's amount throws exactly when the item is `null` or its `product` is missing or `null` |
| LineItems.Accumulate | client/src/routes/clients/ClientOrdersTable.js:159 | once the running sum is NaN a finished fold is NaN |
| LineItems.OrderTotal | client/src/routes/clients/ClientOrdersTable.js:157-162 | a total exists only when `orderItems.items` is an array, and a numeric total is a whole number of cents |
| LineItems.Label | client/src/routes/clients/ClientOrdersTable.js:194 | a label throws exactly when the item's amount does, and carries the item's `quantity` |
| LineItems.Labels | client/src/routes/orders/OrderPage.js:91-95 | the unguarded map succeeds exactly when every item can be labelled, and then label `i` is the label of item `i`, one per item |
| LineItems.RoundCentsWholeCents | client/src/routes/clients/ClientOrdersTable.js:155 | a whole number of cents is left unchanged |
| LineItems.RoundCentsIdempotent | client/src/routes/clients/ClientOrdersTable.js:155 | rounding twice is rounding once |
| LineItems.RoundCentsHalfUp | client/src/routes/clients/ClientOrdersTable.js:155 | an exact half cent goes to the upper cent, below zero too |
| LineItems.RoundCentsMonotone | client/src/routes/orders/OrderPage.js:46 | rounding keeps the order of amounts |
| LineItems.QueriedItemIsLineRecord | client/src/routes/clients/ClientOrdersTable.js:46-53 | an item of the shape the orders query returns, with its `id` and `_description`, is a line record |
| LineItems.LineAmountOfRecord | client/src/routes/clients/ClientOrdersTable.js:159 | an item whose product name, price and quantity are a line's contributes price times quantity, whatever other keys it has |
| LineItems.AccumulateLineItems | client/src/routes/clients/ClientOrdersTable.js:159 | the left fold from `acc` over fetched line records, extra keys allowed, is `acc` plus the independent `Subtotal` |
| LineItems.OrderTotalOfLineItems | client/src/routes/clients/ClientOrdersTable.js:157-162 | the order total of fetched line records is their subtotal rounded to cents |
| LineItems.EmptyOrderTotal | client/src/routes/orders/OrderPage.js:48-53 | an order without items totals 0 |
| LineItems.AccumulateThrows | client/src/routes/clients/ClientOrdersTable.js:159 | the fold throws exactly when some item's amount throws |
| LineItems.WorkedExamples | client/src/routes/clients/ClientOrdersTable.js:155-160 | 9.999 rounds to 10; 2 x 10 totals 20; pens and cups total 6.5 |
| ClientOrdersTable.Apply | client/src/routes/clients/ClientOrdersTable.js:177-183 | a handler throws exactly when it translates a switch format with no entry in `SWITCH_VALUES` |
| ClientOrdersTable.MapTags | client/src/routes/clients/ClientOrdersTable.js:147 | when it succeeds there is one tag per truthy element |
| ClientOrdersTable.RenderItems | client/src/routes/clients/ClientOrdersTable.js:138-153 | a list column gives tags; a single column throws exactly when the handler throws on a truthy value, and shows nothing exactly for a falsy one |
| ClientOrdersTable.RenderTotalPrice | client/src/routes/clients/ClientOrdersTable.js:157-162 | throws exactly when the order total does; otherwise NaN or a whole number of cents |
| ClientOrdersTable.RenderScalar | client/src/routes/clients/ClientOrdersTable.js:164-168 | only the `totalPrice` column or a list column can throw; `totalPrice` throws exactly when the total does |
| ClientOrdersTable.RenderDate | client/src/routes/clients/ClientOrdersTable.js:170-175 | only a list column can throw; a single date cell holds a string |
| ClientOrdersTable.RenderSwitch | client/src/routes/clients/ClientOrdersTable.js:177-183 | throws only for a list column or a format that is neither custom nor in `SWITCH_VALUES` |
| ClientOrdersTable.TableLabels | client/src/routes/clients/ClientOrdersTable.js:189-197 | when it succeeds there is one label per truthy item |
| ClientOrdersTable.RenderOrderItems | client/src/routes/clients/ClientOrdersTable.js:185-200 | the cell is a row of line tags; a missing or `null` `orderItems` throws |
| ClientOrdersTable.RenderRelation | client/src/routes/clients/ClientOrdersTable.js:202-211 | a relation other than `orderItems` never throws and shows nothing or a truthy value |
| ClientOrdersTable.RenderCell | client/src/routes/clients/ClientOrdersTable.js:213-231 | the cell is `null` exactly for an unknown field type |
| ClientOrdersTable.Render | client/src/routes/clients/ClientOrdersTable.js:239-261 | a loading notice exactly while loading; otherwise the fixed columns and rows that are `[]` or truthy |
| ClientOrdersTable.MapTagsOk | client/src/routes/clients/ClientOrdersTable.js:147 | a non-throwing handler gives one tag per truthy element, in order |
| ClientOrdersTable.MapTagsThrows | client/src/routes/clients/ClientOrdersTable.js:147 | the tag map throws exactly when the handler throws and some element is truthy |
| ClientOrdersTable.ScalarCell | client/src/routes/clients/ClientOrdersTable.js:138-153 | a text or number column shows the value at its dotted path when truthy, nothing otherwise |
| ClientOrdersTable.ListCellOfArray | client/src/routes/clients/ClientOrdersTable.js:142-149 | a list column holding an array shows a tag per truthy element, in order |
| ClientOrdersTable.ListCellOfConnection | client/src/routes/clients/ClientOrdersTable.js:143 | a list column holding `{items}` shows a tag per truthy entry of `items` |
| ClientOrdersTable.ListCellMissing | client/src/routes/clients/ClientOrdersTable.js:140-147 | a list column with nothing at its path shows an empty row |
| ClientOrdersTable.DateCell | client/src/routes/clients/ClientOrdersTable.js:170-175 | the short date format exactly for `DATE_FORMATS.DATE`, short date-time otherwise |
| ClientOrdersTable.SwitchCustomEchoes | client/src/routes/clients/ClientOrdersTable.js:178-179 | a custom-format switch column renders exactly as a text column |
| ClientOrdersTable.SwitchTranslated | client/src/routes/clients/ClientOrdersTable.js:180-182 | other switch formats show the value's entry in `SWITCH_VALUES[format]`, `undefined` when absent |
| ClientOrdersTable.SwitchUnknownFormat | client/src/routes/clients/ClientOrdersTable.js:181 | a format without a table throws exactly when there is a truthy value |
| ClientOrdersTable.RelationCell | client/src/routes/clients/ClientOrdersTable.js:202-211 | other relations show `count` (list) or `_description` (single), or nothing when falsy |
| ClientOrdersTable.TableLabelsSkipFalsy | client/src/routes/clients/ClientOrdersTable.js:189-197 | the guarded order-item map labels exactly the truthy items, as the unguarded map labels them |
| ClientOrdersTable.LabelOfRecord | client/src/routes/clients/ClientOrdersTable.js:194 | a line record, extra keys allowed, is labelled with its name, price and quantity |
| ClientOrdersTable.LabelsOfRecords | client/src/routes/clients/ClientOrdersTable.js:194 | fetched line records, extra keys allowed, get their name, price and quantity, one label each, in order |
| ClientOrdersTable.TableLabelsOfRecords | client/src/routes/clients/ClientOrdersTable.js:189-197 | fetched line records are all truthy, so the guarded map labels every one, in order |
| ClientOrdersTable.RenderOrderItemsOfList | client/src/routes/clients/ClientOrdersTable.js:185-200 | with `orderItems.items` an array, the cell is the guarded map's labels as line tags, or throws when it does |
| ClientOrdersTable.RenderOrderItemsOfRecords | client/src/routes/clients/ClientOrdersTable.js:185-200 | with fetched line records the cell is one line tag per record, in order |
| ClientOrdersTable.OrderItemsCell | client/src/routes/clients/ClientOrdersTable.js:185-200 | the `orderItems` column shows one line tag per fetched line record, in order |
| ClientOrdersTable.TotalPriceCell | client/src/routes/clients/ClientOrdersTable.js:164-166 | the `totalPrice` column ignores its path and shows the rounded subtotal of the fetched line records; 0 without items |
| ClientOrdersTable.UnknownFieldType | client/src/routes/clients/ClientOrdersTable.js:228-229 | an unknown field type renders `null` |
| ClientOrdersTable.RenderRows | client/src/routes/clients/ClientOrdersTable.js:243-246 | the table gets `ordersList.items` when truthy and `[]` otherwise; a notice while loading |
| OrderPage.RenderTotalPrice | client/src/routes/orders/OrderPage.js:48-53 | the text starts with `"$"` and throws exactly when the order total does |
| OrderPage.Products | client/src/routes/orders/OrderPage.js:91-95 | products exist only when `orderItems.items` is an array, one per item, each the label of its item |
| OrderPage.RenderPage | client/src/routes/orders/OrderPage.js:61-108 | `null` while loading; a nullish `data` throws; otherwise the row, with a `"$"` total and the short date-time of `order.deliveryDt` |
| OrderPage.TotalMatchesTable | client/src/routes/orders/OrderPage.js:48-53 | the page's total is `"$"` and the number the client table shows, and both fail together |
| OrderPage.TotalOfLineItems | client/src/routes/orders/OrderPage.js:48-53 | the total of fetched line records is `"$"` and their rounded subtotal; `"$0"` without items |
| OrderPage.DateMatchesTable | client/src/routes/orders/OrderPage.js:39-44 | the page's date is what the client table shows for a date column not in `DATE_FORMATS.DATE` format |
| OrderPage.LabelOfFalsy | client/src/routes/orders/OrderPage.js:91-95 | a falsy item cannot be labelled |
| OrderPage.ProductsMatchTable | client/src/routes/orders/OrderPage.js:91-95 | with only truthy items the products equal the table's tags; a falsy item makes the page throw |
| OrderPage.ClientNameOfStrings | client/src/routes/orders/OrderPage.js:86 | the client cell is first name, one space, last name |
| OrderPage.ShownOrder | client/src/routes/orders/OrderPage.js:61-101 | an order with fetched line records shows every cell: name, address, email, labelled items in order, rounded total, short date-time |
| Dialogs.OptionOf | client/src/routes/orderItems/OrderItemEditDialog.js:71 | an option throws exactly for a `null` record, and otherwise carries its `id` and its label |
| Dialogs.MapOptions | client/src/routes/orderItems/OrderItemEditDialog.js:70-71 | same length, option `i` describes record `i`, defined exactly when no record is `null` |
| Dialogs.RelationOptions | client/src/routes/clients/ClientEditDialog.js:55-56 | `undefined` takes the default `[]`; a non-array throws |
| Dialogs.FieldOptions | client/src/routes/orderItems/OrderItemEditDialog.js:124 | options are `[]` while loading; a missing `data` throws |
| Dialogs.FetchedOptions | client/src/routes/orderItems/OrderItemCreateDialog.js:94 | the options of a fetched list are the mapped records: one per record, carrying its `id` and label, exactly when no record is `null` |
| Dialogs.MissingItemsDefault | client/src/routes/orderItems/OrderItemCreateDialog.js:52-53 | a list whose `items` is missing gives `[]` |
| Dialogs.OptionLabel | client/src/routes/clients/ClientEditDialog.js:56 | the label is `_description` when truthy, and `'Untitled Record'` exactly when it is falsy or is that text |
| Dialogs.UntitledOption | client/src/routes/orderItems/OrderItemCreateDialog.js:53 | a record with no or an empty `_description` is untitled |
| Dialogs.OptionsExample | client/src/routes/orderItems/OrderItemCreateDialog.js:52-53 | records 1 (no description) and 2 ("Widget") give an untitled option and a "Widget" option, in that order |
| Dialogs.UpdatePayload | client/src/routes/orderItems/OrderItemEditDialog.js:87-88 | the payload has the form's keys plus `id`, the given id, and every other field unchanged |
| Dialogs.PayloadIgnoresDataId | client/src/routes/clients/ClientEditDialog.js:72-73 | an `id` in the form values never reaches the payload |
| Dialogs.PayloadLastIdWins | client/src/routes/orderItems/OrderItemEditDialog.js:88 | rebuilding the payload is idempotent and only the last id counts |
| Dialogs.PayloadRoundTrip | client/src/routes/clients/ClientEditDialog.js:73 | dropping `id` from the payload gives back the form values without theirs |
| Dialogs.OrderItemUpdate | client/src/routes/orderItems/OrderItemEditDialog.js:104 | the order-item payload carries `args.id` and every other field unchanged; throws exactly when `args` is nullish |
| Dialogs.ClientUpdate | client/src/routes/clients/ClientEditDialog.js:89 | the client payload carries `args.initialValues.id` and the other fields unchanged |
| Dialogs.ClientUpdateThrows | client/src/routes/clients/ClientEditDialog.js:84-89 | the client dialog throws exactly when `args` or `args.initialValues` is nullish |
| Dialogs.InitialValuesAsWritten | client/src/routes/orderItems/OrderItemEditDialog.js:105 | reading `data.orderitem` throws exactly when `data` is nullish |
| Dialogs.InitialValuesAsWrittenEmpty | client/src/routes/orderItems/OrderItemEditDialog.js:105 | as written, the edit form starts empty whatever record the query returns |
| Dialogs.InitialValues | client/src/routes/orderItems/OrderItemEditDialog.js:26 | reading `data.orderItem` throws exactly when `data` is nullish |
| Dialogs.InitialValuesOfResponse | client/src/routes/orderItems/OrderItemEditDialog.js:24-38 | corrected, the edit form starts from the record the query returns |

## Left out

- Not modelled:
  - GraphQL transport and Apollo's `Query` and `graphql` wrappers;
  - the form library (`FormLogic`, `formatRelationToIds`, validation);
  - modal opening and closing;
  - the `async`/`await` submit flow;
  - routing.

  Each of these is an external collaborator. The model starts where their data arrives and ends at the value they are given.
- JSX layout and styling are not modelled: `Row`, `Tag` colours, `Card`, `Table`, `Dialog` and `TableBuilder`'s grid. Rendered cells are the abstract `Cell` and `Page` values.
- luxon date formatting and JavaScript's number-to-string conversion are not computed. They are parameters, the two fields of `Host`.
- Floating point is not modelled: amounts are exact reals, so the IEEE-754 drift of `price * quantity` sums is not captured. `NaN` is captured.
- LineItems.ToNumber: an operand that is a string, array or object is taken as NaN. JavaScript's numeric-string coercion (`"3" * 2 === 6`) is not modelled.
- Js.Member: only objects carry named properties. The `length` and index properties of strings and arrays are not modelled. No key the code reads (`items`, `id`, `_description`, `product`, …) is one of them.
- The `FIELD_TYPE` constants are taken to be distinct, as five constructors plus `OtherField`.
- `console.log` in the order page is not modelled.
- The query variables are not modelled: `args.id`, `args.initialValues.id` and `match.params.clientId` as sent to the server.
- Mutation options are not modelled: `refetchQueries` and the toast messages.
- The delete dialog, the routes' index files and the client page are not part of this model.

## Findings

| source | as written | input that shows it | evidently intended | confidence | as-written member | corrected member |
|---|---|---|---|---|---|---|
| client/src/routes/orderItems/OrderItemEditDialog.js:105 | the form's initial values are read from `data.orderitem`, but the query (line 26) returns its record under `orderItem` | any response `{orderItem: {id: "1", quantity: 2}}` gives `undefined` initial values, so the edit form starts empty | initial values read from `data.orderItem`, so the form starts from the fetched record | high, not executed | Dialogs.InitialValuesAsWrittenEmpty | Dialogs.InitialValuesOfResponse |
