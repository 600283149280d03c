/** The page of one order: a single table row with the client's name, the
    address and email, one tag per ordered product, the total price, the
    delivery date and the status. */
module OrderPage {
  import opened Js
  import opened LineItems
  import ClientOrdersTable

  /** The cells of the row the page shows. */
  datatype OrderRow = OrderRow(
    client: string,               // `${firstName} ${lastName}`
    address: Option<Value>,
    email: Option<Value>,
    products: seq<OrderLine>,
    totalPrice: string,
    deliveryDt: string,
    status: Option<Value>)

  /** What the query's render function returns: `null` while loading, or the card. */
  datatype Page = Blank | Shown(row: OrderRow)

  /** `renderDate(date)`: always the short date-time format. */
  function RenderDate(host: Host, date: Option<Value>): string {
    host.localeString(date, DatetimeShort)
  }

  /** `String(n)` for the total. */
  function NumberText(host: Host, n: Number): string {
    match n
    case NaN => "NaN"
    case Real(x) => host.numberText(x)
  }

  /** `renderTotalPrice(order)`: `"$"` followed by the rounded total. */
  function RenderTotalPrice(host: Host, order: Value): (r: Outcome<string>)
    ensures r.Thrown? <==> OrderTotal(order).Thrown?
    ensures r.Ok? ==> |r.value| >= 1 && r.value[0] == '$'
  {
    var total :- OrderTotal(order);
    Ok("$" + NumberText(host, total))
  }

  /** `order.client`, which every later `order.client.x` reads through. */
  function ClientOf(order: Value): Outcome<Value> {
    var client :- Prop(Some(order), "client");
    if client.None? || client.value.Null? then Thrown else Ok(client.value)
  }

  /** `${order.client.firstName} ${order.client.lastName}` */
  function ClientName(host: Host, client: Value): string {
    OptText(host.numberText, Member(client, "firstName")) + " " + OptText(host.numberText, Member(client, "lastName"))
  }

  /** `order.orderItems.items.map(...)`: one label per item, no guard. */
  function Products(order: Value): (r: Outcome<seq<OrderLine>>)
    ensures r.Ok? ==>
              var items := Lookup(order, ["orderItems", "items"]);
              items.Some? && items.value.List? && |r.value| == |items.value.elems| &&
              forall i :: 0 <= i < |r.value| ==> Label(items.value.elems[i]) == Ok(r.value[i])
  {
    var orderItems :- Prop(Some(order), "orderItems");
    var items :- Prop(orderItems, "items");
    assert ["orderItems", "items"][1..] == ["items"];
    if items.Some? && items.value.List? then Labels(items.value.elems) else Thrown
  }

  /** The render function of the order query. */
  function RenderPage(host: Host, loading: bool, data: Option<Value>): (r: Outcome<Page>)
    ensures loading ==> r == Ok(Blank)
    ensures !loading && (data == None || data == Some(Null)) ==> r.Thrown?
    ensures !loading && r.Ok? ==> r.value.Shown?
    ensures r.Ok? && r.value.Shown? ==>
              |r.value.row.totalPrice| >= 1 && r.value.row.totalPrice[0] == '$' &&
              r.value.row.deliveryDt == host.localeString(LookupIn(data, ["order", "deliveryDt"]), DatetimeShort)
  {
    if loading then Ok(Blank)
    else
      var order :- Prop(data, "order");   // `const { order } = data`
      if order.None? || order.value.Null? then Thrown
      else
        var o := order.value;
        var client := ClientOf(o);
        var products := Products(o);
        var total := RenderTotalPrice(host, o);
        if client.Thrown? || products.Thrown? || total.Thrown? then Thrown
        else
          assert ["order", "deliveryDt"][1..] == ["deliveryDt"];
          Ok(Shown(OrderRow(
            ClientName(host, client.value),
            Member(o, "address"),
            Member(client.value, "email"),
            products.value,
            total.value,
            RenderDate(host, Member(o, "deliveryDt")),
            Member(o, "status"))))
  }

  // ---------------------------------------------------------------------------
  // Properties

  /** The page's total is `"$"` and the number the client-orders table shows
      for the same order, and the two fail together. */
  lemma TotalMatchesTable(host: Host, order: Value)
    ensures RenderTotalPrice(host, order).Thrown? <==> ClientOrdersTable.RenderTotalPrice(order).Thrown?
    ensures forall x :: ClientOrdersTable.RenderTotalPrice(order) == Ok(ClientOrdersTable.Bare(Num(x))) ==>
              RenderTotalPrice(host, order) == Ok("$" + host.numberText(x))
    ensures ClientOrdersTable.RenderTotalPrice(order) == Ok(ClientOrdersTable.NotANumber) ==>
              RenderTotalPrice(host, order) == Ok("$NaN")
  {
    assert "$" + "NaN" == "$NaN";
  }

  /** The total of well-formed line items is `"$"` and their rounded subtotal;
      no items give `"$"` and the text of 0. */
  lemma TotalOfLineItems(host: Host, order: Value, items: seq<Value>, lines: seq<LineItem>)
    requires Lookup(order, ["orderItems", "items"]) == Some(List(items))
    requires AreLineRecords(items, lines)
    ensures RenderTotalPrice(host, order) == Ok("$" + host.numberText(RoundCents(Subtotal(lines))))
    ensures lines == [] ==> RenderTotalPrice(host, order) == Ok("$" + host.numberText(0.0))
  {
    OrderTotalOfLineItems(order, items, lines);
    if lines == [] {
      EmptyOrderTotal(order);
    }
  }

  /** The page's delivery date is what the client table shows for a date column
      whose format is not `DATE_FORMATS.DATE`. */
  lemma DateMatchesTable(host: Host, cfg: ClientOrdersTable.Config, column: ClientOrdersTable.Column, row: Value)
    requires cfg.host == host
    requires column.fieldType == ClientOrdersTable.DateField && !column.isList
    requires column.format != cfg.dateFormatDate
    requires Present(Lookup(row, Split(column.name, '.')))
    ensures ClientOrdersTable.RenderCell(cfg, column, row) ==
              Ok(ClientOrdersTable.Single(Some(Str(RenderDate(host, Lookup(row, Split(column.name, '.')))))))
  {
    ClientOrdersTable.DateCell(cfg, column, row);
  }

  /** A falsy item cannot be labelled: it has no `product`. */
  lemma LabelOfFalsy(item: Value)
    requires !Truthy(item)
    ensures Label(item).Thrown?
  {
  }

  /** The products cell labels every item in order as the table does; where the
      table skips a falsy item, the page throws instead. */
  lemma ProductsMatchTable(order: Value, items: seq<Value>)
    requires Lookup(order, ["orderItems", "items"]) == Some(List(items))
    ensures (forall i :: 0 <= i < |items| ==> Truthy(items[i])) ==>
              Products(order) == ClientOrdersTable.TableLabels(items)
    ensures (exists i :: 0 <= i < |items| && !Truthy(items[i])) ==> Products(order).Thrown?
  {
    assert ["orderItems", "items"][1..] == ["items"];
    var orderItems := Member(order, "orderItems");
    assert orderItems.Some? && Member(orderItems.value, "items") == Some(List(items));
    assert Products(order) == Labels(items);
    ClientOrdersTable.TableLabelsSkipFalsy(items);
    if forall i :: 0 <= i < |items| ==> Truthy(items[i]) {
      TruthyOnlyAllTruthy(items);
    }
    if exists i :: 0 <= i < |items| && !Truthy(items[i]) {
      var i :| 0 <= i < |items| && !Truthy(items[i]);
      LabelOfFalsy(items[i]);
    }
  }

  /** The client cell joins first and last name with one space. */
  lemma ClientNameOfStrings(host: Host, client: Value, first: string, last: string)
    requires Member(client, "firstName") == Some(Str(first))
    requires Member(client, "lastName") == Some(Str(last))
    ensures ClientName(host, client) == first + " " + last
  {
  }

  /** A well-formed order is shown with its line items labelled in order, its
      total rounded to cents after `"$"`, and its delivery date in the short
      date-time format whatever the data. */
  lemma ShownOrder(host: Host, data: Option<Value>, order: Value, client: Value,
                   first: string, last: string, items: seq<Value>, lines: seq<LineItem>)
    requires LookupIn(data, ["order"]) == Some(order) && order.Obj?
    requires Member(order, "client") == Some(client) && client.Obj?
    requires Member(client, "firstName") == Some(Str(first))
    requires Member(client, "lastName") == Some(Str(last))
    requires Lookup(order, ["orderItems", "items"]) == Some(List(items))
    requires AreLineRecords(items, lines)
    ensures RenderPage(host, false, data) == Ok(Shown(OrderRow(
              first + " " + last,
              Member(order, "address"),
              Member(client, "email"),
              seq(|lines|, i requires 0 <= i < |lines| => ClientOrdersTable.LineOf(lines[i])),
              "$" + host.numberText(RoundCents(Subtotal(lines))),
              host.localeString(Member(order, "deliveryDt"), DatetimeShort),
              Member(order, "status"))))
  {
    assert data.Some? && Member(data.value, "order") == Some(order);
    TotalOfLineItems(host, order, items, lines);
    assert ["orderItems", "items"][1..] == ["items"];
    var orderItems := Member(order, "orderItems");
    assert orderItems.Some? && Member(orderItems.value, "items") == Some(List(items));
    assert Products(order) == Labels(items);
    ClientOrdersTable.LabelsOfRecords(items, lines);
  }
}
