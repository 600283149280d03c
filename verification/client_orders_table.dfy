/** The orders table on a client's page: which content each cell of the
    table shows, by the column's field type, list-ness and name. */
module ClientOrdersTable {
  import opened Js
  import opened LineItems

  /** `column.meta.fieldType`: the five kinds `FIELD_TYPE` names, or anything else. */
  datatype FieldType = TextField | NumberField | DateField | SwitchField | RelationField | OtherField(tag: string)

  /** A column descriptor: `name`, `title`, `meta.isList`, `meta.fieldType`
      and `meta.fieldTypeAttributes.format`. */
  datatype Column = Column(name: string, title: string, isList: bool, fieldType: FieldType, format: string)

  /** The constants of `@8base/utils` this table reads, and the foreign formatters. */
  datatype Config = Config(
    host: Host,
    dateFormatDate: string,                          // DATE_FORMATS.DATE
    switchCustom: string,                            // SWITCH_FORMATS.CUSTOM
    switchValues: map<string, map<string, Value>>)   // SWITCH_VALUES

  /** What one tag shows: a rendered item, or an order line's fixed label. */
  datatype Content = Val(v: Option<Value>) | Line(line: OrderLine)

  /** What `renderCell` returns. */
  datatype Cell =
    | Nothing                         // the empty string: draws nothing
    | Bare(v: Value)                  // a value returned as it is
    | NotANumber                      // the total came out NaN
    | Single(content: Option<Value>)  // <div>{content}</div>
    | Tags(tags: seq<Content>)        // <Row> holding one <Tag> per entry
    | NullCell                        // null

  /** The `handler` that `renderItems` applies to each value. */
  datatype Handler = Identity | FormatDate(style: DateStyle) | TranslateSwitch(format: string)

  /** The columns of the table, in display order. */
  const TableColumns: seq<Column> := [
    Column("createdAt", "CreatedAt", false, DateField, "DATETIME"),
    Column("address", "Address", false, TextField, "UNFORMATTED"),
    Column("deliveryDt", "DeliveryDt", false, DateField, "DATETIME"),
    Column("orderItems", "OrderItems", true, RelationField, ""),
    Column("status", "Status", false, SwitchField, "CUSTOM"),
    Column("totalPrice", "Total price", false, NumberField, "NUMBER")
  ]

  /** Only a switch handler whose format has no table in `SWITCH_VALUES` throws
      (`SWITCH_VALUES[format]` is undefined, so `[item]` of it is a TypeError). */
  predicate HandlerThrows(cfg: Config, h: Handler) {
    h.TranslateSwitch? && h.format !in cfg.switchValues
  }

  function Apply(cfg: Config, h: Handler, item: Value): (r: Outcome<Option<Value>>)
    ensures r.Thrown? <==> HandlerThrows(cfg, h)
  {
    match h
    case Identity => Ok(Some(item))
    case FormatDate(style) => Ok(Some(Str(cfg.host.localeString(Some(item), style))))
    case TranslateSwitch(format) =>
      if format in cfg.switchValues then
        var table := cfg.switchValues[format];
        var key := Text(cfg.host.numberText, item);   // a property key is String(item)
        Ok(if key in table then Some(table[key]) else None)
      else
        Thrown
  }

  /** `items.map(item => !!item && <Tag>{handler(item)}</Tag>)` */
  function MapTags(cfg: Config, h: Handler, items: seq<Value>): (r: Outcome<seq<Content>>)
    ensures r.Ok? ==> |r.value| == |TruthyOnly(items)|
    decreases |items|
  {
    if items == [] then Ok([])
    else if !Truthy(items[0]) then MapTags(cfg, h, items[1..])
    else
      var first :- Apply(cfg, h, items[0]);
      var rest :- MapTags(cfg, h, items[1..]);
      Ok([Val(first)] + rest)
  }

  /** `objectPath.get(rowData, column.name.split('.')) || ''` */
  function ColumnData(column: Column, row: Value): Value {
    Or(Lookup(row, Split(column.name, '.')), Str(""))
  }

  /** `renderItems(column, rowData, handler)` */
  function RenderItems(cfg: Config, column: Column, row: Value, h: Handler): (r: Outcome<Cell>)
    ensures column.isList && r.Ok? ==> r.value.Tags?
    ensures !column.isList ==> (r.Thrown? <==> HandlerThrows(cfg, h) && Truthy(ColumnData(column, row)))
    ensures !column.isList && r.Ok? ==> (r.value == Nothing <==> !Truthy(ColumnData(column, row)))
    ensures !column.isList && r.Ok? ==> r.value.Nothing? || r.value.Single?
  {
    var cellData := ColumnData(column, row);
    if column.isList then
      // `cellData` is never nullish, so `cellData.items` does not throw
      var items := Member(cellData, "items");
      var itemsArray := if Present(items) then items.value else cellData;
      if !Truthy(itemsArray) then Ok(Tags([]))
      else if itemsArray.List? then
        var tags :- MapTags(cfg, h, itemsArray.elems);
        Ok(Tags(tags))
      else
        Thrown   // `.map` is not a function of a non-array
    else if Truthy(cellData) then
      var content :- Apply(cfg, h, cellData);
      Ok(Single(content))
    else
      Ok(Nothing)
  }

  /** `renderTotalPrice(rowData)`: the rounded total, as a number. */
  function RenderTotalPrice(row: Value): (r: Outcome<Cell>)
    ensures r.Thrown? <==> OrderTotal(row).Thrown?
    ensures r.Ok? ==> r.value.NotANumber? || (r.value.Bare? && r.value.v.Num? && WholeCents(r.value.v.n))
  {
    var total :- OrderTotal(row);
    Ok(if total.NaN? then NotANumber else Bare(Num(total.r)))
  }

  /** Only the total and a list that is not an array can throw. */
  function RenderScalar(cfg: Config, column: Column, row: Value): (r: Outcome<Cell>)
    ensures r.Thrown? ==> column.name == "totalPrice" || column.isList
    ensures column.name == "totalPrice" ==> (r.Thrown? <==> OrderTotal(row).Thrown?)
  {
    if column.name == "totalPrice" then RenderTotalPrice(row)
    else RenderItems(cfg, column, row, Identity)
  }

  /** The luxon format a date column uses. */
  function DateStyleFor(cfg: Config, column: Column): DateStyle {
    if column.format == cfg.dateFormatDate then DateShort else DatetimeShort
  }

  /** Formatting never throws; a single date always renders as a string. */
  function RenderDate(cfg: Config, column: Column, row: Value): (r: Outcome<Cell>)
    ensures r.Thrown? ==> column.isList
    ensures !column.isList && r.Ok? && r.value.Single? ==> r.value.content.Some? && r.value.content.value.Str?
  {
    RenderItems(cfg, column, row, FormatDate(DateStyleFor(cfg, column)))
  }

  /** Only a format with no table in `SWITCH_VALUES`, or a list that is not an array, throws. */
  function RenderSwitch(cfg: Config, column: Column, row: Value): (r: Outcome<Cell>)
    ensures r.Thrown? ==> column.isList || (column.format != cfg.switchCustom && column.format !in cfg.switchValues)
  {
    if column.format == cfg.switchCustom then RenderItems(cfg, column, row, Identity)
    else RenderItems(cfg, column, row, TranslateSwitch(column.format))
  }

  /** `itemsArray.map(item => !!item && <Tag>{label}</Tag>)` */
  function TableLabels(items: seq<Value>): (r: Outcome<seq<OrderLine>>)
    ensures r.Ok? ==> |r.value| == |TruthyOnly(items)|
    decreases |items|
  {
    if items == [] then Ok([])
    else if !Truthy(items[0]) then TableLabels(items[1..])
    else
      var first :- Label(items[0]);
      var rest :- TableLabels(items[1..]);
      Ok([first] + rest)
  }

  function AsLines(ls: seq<OrderLine>): seq<Content> {
    seq(|ls|, i requires 0 <= i < |ls| => Line(ls[i]))
  }

  /** `renderOrderItems(rowData)` */
  function RenderOrderItems(row: Value): (r: Outcome<Cell>)
    ensures r.Ok? ==> r.value.Tags? && forall i :: 0 <= i < |r.value.tags| ==> r.value.tags[i].Line?
    ensures r.Thrown? <== Member(row, "orderItems") == None || Member(row, "orderItems") == Some(Null)
  {
    var orderItems :- Prop(Some(row), "orderItems");
    var items :- Prop(orderItems, "items");
    if !Present(items) then Ok(Tags([]))
    else if items.value.List? then
      var lines :- TableLabels(items.value.elems);
      Ok(Tags(AsLines(lines)))
    else
      Thrown
  }

  /** `renderRelation(column, rowData)` */
  /** Relations other than `orderItems` never throw and show a truthy value or nothing. */
  function RenderRelation(column: Column, row: Value): (r: Outcome<Cell>)
    ensures column.name != "orderItems" ==> r.Ok? && (r.value.Nothing? || (r.value.Bare? && Truthy(r.value.v)))
  {
    if column.name == "orderItems" then RenderOrderItems(row)
    else
      var key := if column.isList then "count" else "_description";
      var v := Lookup(row, Split(column.name, '.') + [key]);
      Ok(if Present(v) then Bare(v.value) else Nothing)
  }

  /** `renderCell(column, rowData)` */
  function RenderCell(cfg: Config, column: Column, row: Value): (r: Outcome<Cell>)
    ensures r == Ok(NullCell) <==> column.fieldType.OtherField?
  {
    match column.fieldType
    case TextField => RenderScalar(cfg, column, row)
    case NumberField => RenderScalar(cfg, column, row)
    case DateField => RenderDate(cfg, column, row)
    case SwitchField => RenderSwitch(cfg, column, row)
    case RelationField => RenderRelation(column, row)
    case OtherField(_) => Ok(NullCell)
  }

  /** What `render` hands over: a loading notice, or the rows and columns for the table. */
  datatype View = LoadingNotice | Table(rows: Value, columns: seq<Column>)

  /** `render()`: `objectPath.get(data, ['ordersList', 'items']) || []`. */
  function Render(loading: bool, data: Option<Value>): (r: View)
    ensures r.LoadingNotice? <==> loading
    ensures r.Table? ==> r.columns == TableColumns && (r.rows == List([]) || Truthy(r.rows))
  {
    if loading then LoadingNotice
    else Table(Or(LookupIn(data, ["ordersList", "items"]), List([])), TableColumns)
  }

  // ---------------------------------------------------------------------------
  // Properties

  /** The tag a handler that does not throw makes of an item. */
  function Tag(cfg: Config, h: Handler, item: Value): Content
    requires !HandlerThrows(cfg, h)
  {
    Val(Apply(cfg, h, item).value)
  }

  function AsTags(cfg: Config, h: Handler, items: seq<Value>): seq<Content>
    requires !HandlerThrows(cfg, h)
  {
    seq(|items|, i requires 0 <= i < |items| => Tag(cfg, h, items[i]))
  }

  /** One tag per truthy element, in order, each the handler's result. */
  lemma {:induction false} MapTagsOk(cfg: Config, h: Handler, items: seq<Value>)
    requires !HandlerThrows(cfg, h)
    ensures MapTags(cfg, h, items) == Ok(AsTags(cfg, h, TruthyOnly(items)))
  {
    if items == [] {
      assert AsTags(cfg, h, []) == [];
    } else {
      MapTagsOk(cfg, h, items[1..]);
      if Truthy(items[0]) {
        MapTagsCons(cfg, h, items);
      } else {
        assert TruthyOnly(items) == TruthyOnly(items[1..]);
      }
    }
  }

  lemma MapTagsCons(cfg: Config, h: Handler, items: seq<Value>)
    requires !HandlerThrows(cfg, h) && items != [] && Truthy(items[0])
    requires MapTags(cfg, h, items[1..]) == Ok(AsTags(cfg, h, TruthyOnly(items[1..])))
    ensures MapTags(cfg, h, items) == Ok(AsTags(cfg, h, TruthyOnly(items)))
  {
    var rest := TruthyOnly(items[1..]);
    assert TruthyOnly(items) == [items[0]] + rest;
    AsTagsCons(cfg, h, items[0], rest);
  }

  lemma AsTagsCons(cfg: Config, h: Handler, x: Value, xs: seq<Value>)
    requires !HandlerThrows(cfg, h)
    ensures AsTags(cfg, h, [x] + xs) == [Tag(cfg, h, x)] + AsTags(cfg, h, xs)
  {
  }

  /** The map throws exactly when the handler does and some element is truthy. */
  lemma {:induction false} MapTagsThrows(cfg: Config, h: Handler, items: seq<Value>)
    ensures MapTags(cfg, h, items).Thrown? <==> HandlerThrows(cfg, h) && TruthyOnly(items) != []
  {
    if items != [] {
      MapTagsThrows(cfg, h, items[1..]);
      if Truthy(items[0]) {
        assert TruthyOnly(items) == [items[0]] + TruthyOnly(items[1..]);
      } else {
        assert TruthyOnly(items) == TruthyOnly(items[1..]);
      }
    }
  }

  /** A plain column shows the value at its dotted path unchanged when it is
      truthy, and nothing when it is missing or falsy (`0`, `''`, `null`, `false`). */
  lemma ScalarCell(cfg: Config, column: Column, row: Value)
    requires column.fieldType == TextField || column.fieldType == NumberField
    requires column.name != "totalPrice" && !column.isList
    ensures var v := Lookup(row, Split(column.name, '.'));
            RenderCell(cfg, column, row) == if Present(v) then Ok(Single(v)) else Ok(Nothing)
  {
  }

  /** A list column holding an array shows one tag per truthy element, in order. */
  lemma ListCellOfArray(cfg: Config, column: Column, row: Value, items: seq<Value>)
    requires column.fieldType == TextField || column.fieldType == NumberField
    requires column.name != "totalPrice" && column.isList
    requires Lookup(row, Split(column.name, '.')) == Some(List(items))
    ensures RenderCell(cfg, column, row) == Ok(Tags(AsTags(cfg, Identity, TruthyOnly(items))))
  {
    MapTagsOk(cfg, Identity, items);
  }

  /** A list column holding a connection `{items, count}` shows a tag per truthy entry of `items`. */
  lemma ListCellOfConnection(cfg: Config, column: Column, row: Value, items: seq<Value>)
    requires column.fieldType == TextField || column.fieldType == NumberField
    requires column.name != "totalPrice" && column.isList
    requires Lookup(row, Split(column.name, '.') + ["items"]) == Some(List(items))
    ensures RenderCell(cfg, column, row) == Ok(Tags(AsTags(cfg, Identity, TruthyOnly(items))))
  {
    LookupAppend(row, Split(column.name, '.'), ["items"]);
    MapTagsOk(cfg, Identity, items);
  }

  /** A list column with nothing at its path shows an empty row of tags. */
  lemma ListCellMissing(cfg: Config, column: Column, row: Value, h: Handler)
    requires column.isList
    requires !Present(Lookup(row, Split(column.name, '.')))
    ensures RenderItems(cfg, column, row, h) == Ok(Tags([]))
  {
  }

  /** A date column uses the short date format exactly when its format is
      `DATE_FORMATS.DATE`, and the short date-time format otherwise. */
  lemma DateCell(cfg: Config, column: Column, row: Value)
    requires column.fieldType == DateField && !column.isList
    requires Present(Lookup(row, Split(column.name, '.')))
    ensures var style := if column.format == cfg.dateFormatDate then DateShort else DatetimeShort;
            RenderCell(cfg, column, row)
              == Ok(Single(Some(Str(cfg.host.localeString(Lookup(row, Split(column.name, '.')), style)))))
  {
  }

  /** A switch column in the custom format shows exactly what a text column would. */
  lemma SwitchCustomEchoes(cfg: Config, column: Column, row: Value)
    requires column.fieldType == SwitchField && column.format == cfg.switchCustom
    requires column.name != "totalPrice"
    ensures RenderCell(cfg, column, row) == RenderCell(cfg, column.(fieldType := TextField), row)
  {
  }

  /** In any other format each value is replaced by its entry in
      `SWITCH_VALUES[format]`; a value with no entry gives undefined, an empty box. */
  lemma SwitchTranslated(cfg: Config, column: Column, row: Value)
    requires column.fieldType == SwitchField && column.format != cfg.switchCustom && !column.isList
    requires column.format in cfg.switchValues
    requires Present(Lookup(row, Split(column.name, '.')))
    ensures var table := cfg.switchValues[column.format];
            var key := Text(cfg.host.numberText, Lookup(row, Split(column.name, '.')).value);
            RenderCell(cfg, column, row) == Ok(Single(if key in table then Some(table[key]) else None))
  {
  }

  /** A switch format with no table throws as soon as there is a truthy value to translate. */
  lemma SwitchUnknownFormat(cfg: Config, column: Column, row: Value)
    requires column.fieldType == SwitchField && column.format != cfg.switchCustom && !column.isList
    requires column.format !in cfg.switchValues
    ensures RenderCell(cfg, column, row).Thrown? <==> Present(Lookup(row, Split(column.name, '.')))
  {
  }

  /** Relation columns other than `orderItems` show the relation's `count`
      (list) or `_description` (single), or nothing when that is missing or falsy. */
  lemma RelationCell(cfg: Config, column: Column, row: Value)
    requires column.fieldType == RelationField && column.name != "orderItems"
    ensures var target := Lookup(row, Split(column.name, '.'));
            var v := LookupIn(target, [if column.isList then "count" else "_description"]);
            RenderCell(cfg, column, row) == if Present(v) then Ok(Bare(v.value)) else Ok(Nothing)
  {
    LookupAppend(row, Split(column.name, '.'), [if column.isList then "count" else "_description"]);
  }

  /** The order-items tags skip falsy items and label the others as the order page does. */
  lemma {:induction false} TableLabelsSkipFalsy(items: seq<Value>)
    ensures TableLabels(items) == Labels(TruthyOnly(items))
  {
    if items != [] {
      TableLabelsSkipFalsy(items[1..]);
      if Truthy(items[0]) {
        var t := TruthyOnly(items);
        assert t == [items[0]] + TruthyOnly(items[1..]);
        assert t[0] == items[0] && t[1..] == TruthyOnly(items[1..]);
      } else {
        assert TruthyOnly(items) == TruthyOnly(items[1..]);
      }
    }
  }

  /** The tag of a well-formed line item names its product, price and quantity. */
  function LineOf(line: LineItem): OrderLine {
    OrderLine(Some(Str(line.name)), Some(Num(line.price)), Some(Num(line.quantity)))
  }

  /** A line record is labelled with its product's name and price and its quantity. */
  lemma LabelOfRecord(item: Value, line: LineItem)
    requires IsLineRecord(item, line)
    ensures Label(item) == Ok(LineOf(line))
  {
    var product := Member(item, "product");
    assert Prop(product, "name") == Ok(Some(Str(line.name)));
  }

  /** Line records get one label each, in order. */
  lemma LabelsOfRecords(items: seq<Value>, lines: seq<LineItem>)
    requires AreLineRecords(items, lines)
    ensures Labels(items) == Ok(seq(|lines|, i requires 0 <= i < |lines| => LineOf(lines[i])))
  {
    forall i | 0 <= i < |items| ensures Label(items[i]) == Ok(LineOf(lines[i])) {
      LabelOfRecord(items[i], lines[i]);
    }
    var labels := Labels(items).value;
    assert forall i :: 0 <= i < |lines| ==> labels[i] == LineOf(lines[i]);
    assert labels == seq(|lines|, i requires 0 <= i < |lines| => LineOf(lines[i]));
  }

  /** Line records are all truthy, so the guarded map labels each of them. */
  lemma TableLabelsOfRecords(items: seq<Value>, lines: seq<LineItem>)
    requires AreLineRecords(items, lines)
    ensures TableLabels(items) == Ok(seq(|lines|, i requires 0 <= i < |lines| => LineOf(lines[i])))
  {
    forall i | 0 <= i < |items| ensures Truthy(items[i]) {
    }
    TruthyOnlyAllTruthy(items);
    TableLabelsSkipFalsy(items);
    LabelsOfRecords(items, lines);
  }

  /** With `orderItems.items` an array, the cell is the guarded labels as tags. */
  lemma RenderOrderItemsOfList(row: Value, items: seq<Value>)
    requires Lookup(row, ["orderItems", "items"]) == Some(List(items))
    ensures RenderOrderItems(row) ==
              match TableLabels(items)
              case Thrown => Thrown
              case Ok(ls) => Ok(Tags(AsLines(ls)))
  {
    assert ["orderItems", "items"][1..] == ["items"];
    var orderItems := Member(row, "orderItems");
    assert Lookup(row, ["orderItems", "items"]) == LookupIn(orderItems, ["items"]);
    assert orderItems.Some? && Member(orderItems.value, "items") == Some(List(items));
  }

  lemma RenderOrderItemsOfRecords(row: Value, items: seq<Value>, lines: seq<LineItem>)
    requires Lookup(row, ["orderItems", "items"]) == Some(List(items))
    requires AreLineRecords(items, lines)
    ensures RenderOrderItems(row) == Ok(Tags(AsLines(seq(|lines|, i requires 0 <= i < |lines| => LineOf(lines[i])))))
  {
    var ls := seq(|lines|, i requires 0 <= i < |lines| => LineOf(lines[i]));
    TableLabelsOfRecords(items, lines);
    RenderOrderItemsOfList(row, items);
  }

  /** The `orderItems` column shows one label per line record, in order,
      whatever its field type attributes say. */
  lemma OrderItemsCell(cfg: Config, column: Column, row: Value, items: seq<Value>, lines: seq<LineItem>)
    requires column.fieldType == RelationField && column.name == "orderItems"
    requires Lookup(row, ["orderItems", "items"]) == Some(List(items))
    requires AreLineRecords(items, lines)
    ensures RenderCell(cfg, column, row) == Ok(Tags(seq(|lines|, i requires 0 <= i < |lines| => Line(LineOf(lines[i])))))
  {
    RenderOrderItemsOfRecords(row, items, lines);
    var ls := seq(|lines|, i requires 0 <= i < |lines| => LineOf(lines[i]));
    assert RenderCell(cfg, column, row) == RenderOrderItems(row);
    assert AsLines(ls) == seq(|lines|, i requires 0 <= i < |lines| => Line(LineOf(lines[i])));
  }

  /** The `totalPrice` column ignores its path and shows the rounded sum of
      price times quantity; an order without items shows 0. */
  lemma TotalPriceCell(cfg: Config, column: Column, row: Value, items: seq<Value>, lines: seq<LineItem>)
    requires column.fieldType == TextField || column.fieldType == NumberField
    requires column.name == "totalPrice"
    requires Lookup(row, ["orderItems", "items"]) == Some(List(items))
    requires AreLineRecords(items, lines)
    ensures RenderCell(cfg, column, row) == Ok(Bare(Num(RoundCents(Subtotal(lines)))))
    ensures lines == [] ==> RenderCell(cfg, column, row) == Ok(Bare(Num(0.0)))
  {
    OrderTotalOfLineItems(row, items, lines);
    if lines == [] {
      EmptyOrderTotal(row);
    }
  }

  /** A field type outside the five renders `null`. */
  lemma UnknownFieldType(cfg: Config, column: Column, row: Value)
    requires column.fieldType.OtherField?
    ensures RenderCell(cfg, column, row) == Ok(NullCell)
  {
  }

  /** The table gets `ordersList.items` when it is there and an empty array otherwise. */
  lemma RenderRows(data: Option<Value>)
    ensures var found := LookupIn(data, ["ordersList", "items"]);
            Render(false, data).rows == if Present(found) then found.value else List([])
    ensures Render(true, data) == LoadingNotice
  {
  }
}
