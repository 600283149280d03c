/** Order line items as both order views use them: the total price
    `renderNumber(items.reduce((acc, item) => item.product.price * item.quantity + acc, 0))`
    and the per-item tag `{name} - ${price} x {quantity}pcs`. */
module LineItems {
  import opened Js

  /** A JavaScript number in the price arithmetic: NaN, or an exact real
      (IEEE-754 rounding drift is not modelled). */
  datatype Number = NaN | Real(r: real)

  /** The number an operand of `*` becomes. Numeric strings, arrays and
      objects are taken as NaN (see README). */
  function ToNumber(o: Option<Value>): Number {
    match o
    case None => NaN
    case Some(Null) => Real(0.0)
    case Some(Bool(b)) => Real(if b then 1.0 else 0.0)
    case Some(Num(n)) => Real(n)
    case Some(_) => NaN
  }

  function Times(a: Number, b: Number): Number {
    if a.Real? && b.Real? then Real(a.r * b.r) else NaN
  }

  function Plus(a: Number, b: Number): Number {
    if a.Real? && b.Real? then Real(a.r + b.r) else NaN
  }

  /** `Math.round(x)`: the nearest integer, halves toward +infinity. */
  function MathRound(x: real): (r: int)
    ensures x - 0.5 < r as real <= x + 0.5
  {
    (x + 0.5).Floor
  }

  /** An amount that is a whole number of cents. */
  predicate WholeCents(x: real) {
    (x * 100.0).Floor as real == x * 100.0
  }

  /** `renderNumber`: `Math.round(x * 100) / 100`, a whole number of cents
      within half a cent of `x`, halves going up. */
  function RoundCents(x: real): (r: real)
    ensures WholeCents(r)
    ensures x - 0.005 < r <= x + 0.005
  {
    var cents := MathRound(x * 100.0);
    assert cents as real / 100.0 * 100.0 == cents as real;
    cents as real / 100.0
  }

  /** `renderNumber` on a JavaScript number: NaN stays NaN. */
  function RenderNumber(n: Number): (r: Number)
    ensures r.NaN? <==> n.NaN?
    ensures r.Real? ==> WholeCents(r.r) && n.r - 0.005 < r.r <= n.r + 0.005
  {
    match n
    case NaN => NaN
    case Real(x) => Real(RoundCents(x))
  }

  /** `item.product.price * item.quantity` */
  function LineAmount(item: Value): (r: Outcome<Number>)
    ensures r.Thrown? <==>
              item.Null? || Member(item, "product") == None || Member(item, "product") == Some(Null)
  {
    if item.Null? then Thrown
    else
      // `item` is not nullish here, so `item.product` and `item.quantity` cannot throw
      var price :- Prop(Member(item, "product"), "price");
      Ok(Times(ToNumber(price), ToNumber(Member(item, "quantity"))))
  }

  /** The `reduce` callback applied left to right: `acc = amount(item) + acc`. */
  function Accumulate(items: seq<Value>, acc: Number): (r: Outcome<Number>)
    ensures acc.NaN? && r.Ok? ==> r.value.NaN?   // once NaN, always NaN
    decreases |items|
  {
    if items == [] then Ok(acc)
    else
      var amount :- LineAmount(items[0]);
      Accumulate(items[1..], Plus(amount, acc))
  }

  /** `renderNumber(order.orderItems.items.reduce(..., 0))`: a TypeError when
      `orderItems` is missing or `items` is not an array. */
  function OrderTotal(order: Value): (r: Outcome<Number>)
    ensures r.Ok? ==> var items := Lookup(order, ["orderItems", "items"]); items.Some? && items.value.List?
    ensures r.Ok? && r.value.Real? ==> WholeCents(r.value.r)
  {
    var orderItems :- Prop(Some(order), "orderItems");
    var items :- Prop(orderItems, "items");
    assert ["orderItems", "items"][1..] == ["items"];
    if items.Some? && items.value.List? then
      var sum :- Accumulate(items.value.elems, Real(0.0));
      Ok(RenderNumber(sum))
    else
      Thrown
  }

  /** The three holes of the tag `{item.product.name} - ${item.product.price} x {item.quantity}pcs`. */
  datatype OrderLine = OrderLine(name: Option<Value>, price: Option<Value>, quantity: Option<Value>)

  /** The tag fails on exactly the items whose amount fails. */
  function Label(item: Value): (r: Outcome<OrderLine>)
    ensures r.Thrown? <==> LineAmount(item).Thrown?
    ensures r.Ok? ==> r.value.quantity == Member(item, "quantity")
  {
    if item.Null? then Thrown
    else
      var product := Member(item, "product");
      // once `product.name` has been read, `product.price` cannot throw
      var name :- Prop(product, "name");
      Ok(OrderLine(name, Member(product.value, "price"), Member(item, "quantity")))
  }

  /** `items.map(item => <Tag>{label}</Tag>)` with no guard: every element must
      carry a `product`. */
  function Labels(items: seq<Value>): (r: Outcome<seq<OrderLine>>)
    ensures r.Ok? <==> forall i :: 0 <= i < |items| ==> Label(items[i]).Ok?
    ensures r.Ok? ==> |r.value| == |items| && forall i :: 0 <= i < |items| ==> Label(items[i]) == Ok(r.value[i])
    decreases |items|
  {
    if items == [] then Ok([])
    else
      var first :- Label(items[0]);
      var rest :- Labels(items[1..]);
      assert forall i :: 1 <= i < |items| ==> items[1..][i - 1] == items[i];
      Ok([first] + rest)
  }

  // ---------------------------------------------------------------------------
  // Rounding to cents

  /** An amount that is already a whole number of cents is left unchanged. */
  lemma RoundCentsWholeCents(c: int)
    ensures RoundCents(c as real / 100.0) == c as real / 100.0
  {
    assert (c as real / 100.0) * 100.0 == c as real;
    assert (c as real + 0.5).Floor == c;
  }

  /** Rounding twice is rounding once. */
  lemma RoundCentsIdempotent(x: real)
    ensures RoundCents(RoundCents(x)) == RoundCents(x)
  {
    RoundCentsWholeCents(MathRound(x * 100.0));
  }

  /** A value exactly half-way between two cents goes to the upper one, also below zero. */
  lemma RoundCentsHalfUp(c: int)
    ensures RoundCents((c as real + 0.5) / 100.0) == (c + 1) as real / 100.0
  {
    assert ((c as real + 0.5) / 100.0) * 100.0 + 0.5 == (c + 1) as real;
  }

  /** Rounding keeps the order of amounts. */
  lemma RoundCentsMonotone(x: real, y: real)
    requires x <= y
    ensures RoundCents(x) <= RoundCents(y)
  {
    var a, b := x * 100.0 + 0.5, y * 100.0 + 0.5;
    assert a <= b;
    var fa, fb := a.Floor, b.Floor;
    assert fa as real <= a && b < fb as real + 1.0;
    assert fa <= fb;
  }

  // ---------------------------------------------------------------------------
  // The total against an independent definition

  /** A well-formed line item: a product with a name and a price, and a quantity. */
  datatype LineItem = LineItem(name: string, price: real, quantity: real)

  /** `item` is the record the order queries return for `line`: a `product`
      whose `name` and `price` are the line's, and the line's `quantity`. Any
      other key (`id`, `_description`, ...) may be present too. */
  predicate IsLineRecord(item: Value, line: LineItem) {
    var product := Member(item, "product");
    product.Some? &&
    Member(product.value, "name") == Some(Str(line.name)) &&
    Member(product.value, "price") == Some(Num(line.price)) &&
    Member(item, "quantity") == Some(Num(line.quantity))
  }

  predicate AreLineRecords(items: seq<Value>, lines: seq<LineItem>) {
    |items| == |lines| && forall i :: 0 <= i < |items| ==> IsLineRecord(items[i], lines[i])
  }

  /** A line item exactly as the order queries select it. */
  function QueriedItem(id: Value, description: Value, line: LineItem): Value {
    Obj(map[
      "id" := id,
      "_description" := description,
      "product" := Obj(map["name" := Str(line.name), "price" := Num(line.price)]),
      "quantity" := Num(line.quantity)])
  }

  /** The records the queries return are line records, whatever their `id` and `_description`. */
  lemma QueriedItemIsLineRecord(id: Value, description: Value, line: LineItem)
    ensures IsLineRecord(QueriedItem(id, description, line), line)
  {
    var product := Obj(map["name" := Str(line.name), "price" := Num(line.price)]);
    assert Member(QueriedItem(id, description, line), "product") == Some(product);
  }

  /** The sum of price times quantity, as mathematics states it. */
  function Subtotal(lines: seq<LineItem>): real {
    if lines == [] then 0.0 else lines[0].price * lines[0].quantity + Subtotal(lines[1..])
  }

  /** Each well-formed item contributes its price times its quantity. */
  lemma LineAmountOfRecord(item: Value, line: LineItem)
    requires IsLineRecord(item, line)
    ensures LineAmount(item) == Ok(Real(line.price * line.quantity))
  {
    var product := Member(item, "product").value;
    assert Prop(Some(product), "price") == Ok(Some(Num(line.price)));
    assert LineAmount(item) == Ok(Times(Real(line.price), Real(line.quantity)));
    assert Times(Real(line.price), Real(line.quantity)) == Real(line.price * line.quantity);
  }

  /** The left fold from `acc` adds the subtotal to `acc`. */
  lemma {:induction false} AccumulateLineItems(items: seq<Value>, lines: seq<LineItem>, acc: real)
    requires AreLineRecords(items, lines)
    ensures Accumulate(items, Real(acc)) == Ok(Real(acc + Subtotal(lines)))
  {
    if lines != [] {
      assert AreLineRecords(items[1..], lines[1..]) by {
        forall i | 0 <= i < |items| - 1 ensures IsLineRecord(items[1..][i], lines[1..][i]) {
          assert items[1..][i] == items[i + 1] && lines[1..][i] == lines[i + 1];
        }
      }
      var m := lines[0].price * lines[0].quantity;
      LineAmountOfRecord(items[0], lines[0]);
      assert LineAmount(items[0]).Ok? && LineAmount(items[0]).value == Real(m);
      assert Plus(Real(m), Real(acc)) == Real(m + acc);
      assert Accumulate(items, Real(acc)) == Accumulate(items[1..], Real(m + acc));
      AccumulateLineItems(items[1..], lines[1..], m + acc);
      assert m + acc + Subtotal(lines[1..]) == acc + Subtotal(lines);
    }
  }

  /** The total of an order whose items are well formed is the rounded subtotal. */
  lemma OrderTotalOfLineItems(order: Value, items: seq<Value>, lines: seq<LineItem>)
    requires Lookup(order, ["orderItems", "items"]) == Some(List(items))
    requires AreLineRecords(items, lines)
    ensures OrderTotal(order) == Ok(Real(RoundCents(Subtotal(lines))))
  {
    assert ["orderItems", "items"][1..] == ["items"];
    AccumulateLineItems(items, lines, 0.0);
  }

  /** An order without items totals 0. */
  lemma EmptyOrderTotal(order: Value)
    requires Lookup(order, ["orderItems", "items"]) == Some(List([]))
    ensures OrderTotal(order) == Ok(Real(0.0))
  {
    assert ["orderItems", "items"][1..] == ["items"];
    assert (0.5).Floor == 0;
  }

  /** Nothing guards the items: the fold throws exactly when some item has no
      `product` (or is itself `null`). */
  lemma {:induction false} AccumulateThrows(items: seq<Value>, acc: Number)
    ensures Accumulate(items, acc).Thrown? <==>
              exists i :: 0 <= i < |items| && LineAmount(items[i]).Thrown?
  {
    if items != [] {
      match LineAmount(items[0])
      case Thrown =>
      case Ok(amount) =>
        AccumulateThrows(items[1..], Plus(amount, acc));
        if exists i :: 0 <= i < |items| && LineAmount(items[i]).Thrown? {
          var i :| 0 <= i < |items| && LineAmount(items[i]).Thrown?;
          assert items[1..][i - 1] == items[i];
        }
        forall i | 0 <= i < |items| - 1 && LineAmount(items[1..][i]).Thrown?
          ensures LineAmount(items[i + 1]).Thrown?
        {
          assert items[1..][i] == items[i + 1];
        }
    }
  }

  /** The worked examples: 9.999 rounds to 10, two items at 10 total 20, and
      pens and cups total 6.5. */
  lemma WorkedExamples()
    ensures RoundCents(9.999) == 10.0
    ensures RoundCents(Subtotal([LineItem("Box", 10.0, 2.0)])) == 20.0
    ensures Subtotal([LineItem("Pen", 1.5, 3.0), LineItem("Cup", 2.0, 1.0)]) == 6.5
    ensures RoundCents(6.5) == 6.5
  {
    assert (999.9 + 0.5).Floor == 1000;
    assert [LineItem("Box", 10.0, 2.0)][1..] == [];
    RoundCentsWholeCents(2000);
    var lines := [LineItem("Pen", 1.5, 3.0), LineItem("Cup", 2.0, 1.0)];
    assert lines[1..][1..] == [];
    RoundCentsWholeCents(650);
  }
}
