/** The logic of the create and edit dialogs: the options of a relation select
    field, built from a list query, and the payload an edit dialog submits. */
module Dialogs {
  import opened Js

  /** `{ value, label }`, one entry of a select field. */
  datatype SelectOption = SelectOption(value: Option<Value>, caption: Value)   // `label`

  const UntitledRecord := "Untitled Record"

  /** What an option must show for a fetched record: its `id` as the value, and
      its `_description` as the label unless that is falsy. */
  predicate Describes(item: Value, opt: SelectOption) {
    var description := Member(item, "_description");
    opt.value == Member(item, "id") &&
    if description.Some? && Truthy(description.value) then opt.caption == description.value
    else opt.caption == Str(UntitledRecord)
  }

  /** `item => ({ value: item.id, label: item._description || 'Untitled Record' })` */
  function OptionOf(item: Value): (r: Outcome<SelectOption>)
    ensures r.Thrown? <==> item.Null?
    ensures r.Ok? ==> Describes(item, r.value)
  {
    if item.Null? then Thrown
    else Ok(SelectOption(Member(item, "id"), Or(Member(item, "_description"), Str(UntitledRecord))))
  }

  /** `items.map(...)` over an array: one option per record, in order; a `null`
      record throws when its `id` is read. */
  function MapOptions(items: seq<Value>): (r: Outcome<seq<SelectOption>>)
    ensures r.Ok? <==> forall i :: 0 <= i < |items| ==> !items[i].Null?
    ensures r.Ok? ==> |r.value| == |items|
    ensures r.Ok? ==> forall i :: 0 <= i < |items| ==> Describes(items[i], r.value[i])
    decreases |items|
  {
    if items == [] then Ok([])
    else
      var first :- OptionOf(items[0]);
      var rest :- MapOptions(items[1..]);
      assert forall i :: 1 <= i < |items| ==> items[1..][i - 1] == items[i];
      Ok([first] + rest)
  }

  /** `getRelationOptions(items = [])`: `undefined` takes the default `[]`;
      `null` and anything that is not an array have no `map` and throw. */
  function RelationOptions(items: Option<Value>): (r: Outcome<seq<SelectOption>>)
    ensures items == None ==> r == Ok([])
    ensures items.Some? && !items.value.List? ==> r.Thrown?
  {
    match items
    case None => Ok([])
    case Some(List(es)) => MapOptions(es)
    case Some(_) => Thrown
  }

  /** `options={loading ? [] : getRelationOptions(data.<listName>.items)}` */
  function FieldOptions(loading: bool, data: Option<Value>, listName: string): (r: Outcome<seq<SelectOption>>)
    ensures loading ==> r == Ok([])
    ensures !loading && (data == None || data == Some(Null)) ==> r.Thrown?
  {
    if loading then Ok([])
    else
      var list :- Prop(data, listName);
      var items :- Prop(list, "items");
      RelationOptions(items)
  }

  /** The list queries the select fields read. */
  const ProductsList := "productsList"
  const OrdersList := "ordersList"

  // ---------------------------------------------------------------------------
  // Properties of the options

  /** A fetched list of records gives one option per record, in order, each
      carrying the record's `id` and label, exactly when no record is `null`. */
  lemma FetchedOptions(data: Option<Value>, listName: string, items: seq<Value>)
    requires LookupIn(data, [listName, "items"]) == Some(List(items))
    ensures FieldOptions(false, data, listName) == MapOptions(items)
    ensures FieldOptions(false, data, listName).Ok? <==> forall i :: 0 <= i < |items| ==> !items[i].Null?
    ensures FieldOptions(false, data, listName).Ok? ==>
              var opts := FieldOptions(false, data, listName).value;
              |opts| == |items| &&
              forall i :: 0 <= i < |items| ==> Describes(items[i], opts[i])
  {
    var list := Member(data.value, listName);
    assert [listName, "items"][1..] == ["items"];
    assert Lookup(data.value, [listName, "items"]) == LookupIn(list, ["items"]);
    assert list.Some? && Lookup(list.value, ["items"]) == Some(List(items));
    assert Member(list.value, "items") == Some(List(items));
    assert FieldOptions(false, data, listName) == MapOptions(items);
  }

  /** A list whose `items` came back missing falls back to the default `[]`. */
  lemma MissingItemsDefault(data: Option<Value>, listName: string, list: Value)
    requires LookupIn(data, [listName]) == Some(list)
    requires list.Obj? && "items" !in list.fields
    ensures FieldOptions(false, data, listName) == Ok([])
  {
    assert [listName][1..] == [];
    assert Lookup(data.value, [listName]) == LookupIn(Member(data.value, listName), []);
  }

  /** The label is `_description` when that is truthy, and the fallback exactly
      when it is missing or falsy. */
  lemma OptionLabel(item: Value)
    requires !item.Null?
    ensures Present(Member(item, "_description")) ==>
              OptionOf(item).value.caption == Member(item, "_description").value
    ensures OptionOf(item).value.caption == Str(UntitledRecord) <==>
              !Present(Member(item, "_description")) || Member(item, "_description") == Some(Str(UntitledRecord))
  {
  }

  /** A record without a `_description` (or with an empty one) is listed as untitled. */
  lemma UntitledOption(id: Value, rest: map<string, Value>)
    requires "_description" !in rest
    ensures OptionOf(Obj(rest["id" := id])) == Ok(SelectOption(Some(id), Str(UntitledRecord)))
    ensures OptionOf(Obj(rest["id" := id]["_description" := Str("")])) ==
              Ok(SelectOption(Some(id), Str(UntitledRecord)))
  {
    var emptied := rest["id" := id]["_description" := Str("")];
    assert Member(Obj(emptied), "id") == Some(id);
  }

  /** Two records, the first without a description: the first is untitled and
      the order is kept. */
  lemma OptionsExample()
    ensures MapOptions([Obj(map["id" := Str("1")]), Obj(map["id" := Str("2"), "_description" := Str("Widget")])])
            == Ok([SelectOption(Some(Str("1")), Str(UntitledRecord)), SelectOption(Some(Str("2")), Str("Widget"))])
  {
    var a, b := Obj(map["id" := Str("1")]), Obj(map["id" := Str("2"), "_description" := Str("Widget")]);
    var oa, ob := SelectOption(Some(Str("1")), Str(UntitledRecord)), SelectOption(Some(Str("2")), Str("Widget"));
    assert Member(a, "id") == Some(Str("1")) && Member(a, "_description") == None;
    assert Member(b, "id") == Some(Str("2")) && Member(b, "_description") == Some(Str("Widget"));
    assert OptionOf(a) == Ok(oa) && OptionOf(b) == Ok(ob);
    assert [b][0] == b && [b][1..] == [];
    assert MapOptions([]) == Ok([]);
    assert [ob] + [] == [ob];
    assert MapOptions([b]) == Ok([ob]);
    assert [a, b][1..] == [b];
    assert MapOptions([a, b]) == Ok([oa] + [ob]);
    assert [oa] + [ob] == [oa, ob];
  }

  // ---------------------------------------------------------------------------
  // The payload of an edit dialog

  /** The form values; a field may hold `undefined`. */
  type FormData = map<string, Option<Value>>

  /** `{ ...data, id }` */
  function UpdatePayload(data: FormData, id: Option<Value>): (r: FormData)
    ensures r.Keys == data.Keys + {"id"}
    ensures r["id"] == id
    ensures forall k :: k in data && k != "id" ==> r[k] == data[k]
  {
    data["id" := id]
  }

  /** The dialog's `id` wins over any `id` in the form values. */
  lemma PayloadIgnoresDataId(data: FormData, id: Option<Value>)
    ensures UpdatePayload(data, id) == UpdatePayload(data - {"id"}, id)
  {
  }

  /** Building the payload again changes nothing, and only the last id counts. */
  lemma PayloadLastIdWins(data: FormData, a: Option<Value>, b: Option<Value>)
    ensures UpdatePayload(UpdatePayload(data, a), b) == UpdatePayload(data, b)
    ensures UpdatePayload(UpdatePayload(data, a), a) == UpdatePayload(data, a)
  {
  }

  /** Removing `id` from the payload gives back the form values without theirs. */
  lemma PayloadRoundTrip(data: FormData, id: Option<Value>)
    ensures UpdatePayload(data, id) - {"id"} == data - {"id"}
    ensures "id" !in data ==> UpdatePayload(data, id) - {"id"} == data
  {
  }

  /** The order-item dialog submits under `args.id`. */
  function OrderItemUpdate(args: Option<Value>, data: FormData): (r: Outcome<FormData>)
    ensures r.Thrown? <==> args == None || args == Some(Null)
    ensures r.Ok? ==> r.value.Keys == data.Keys + {"id"}
    ensures r.Ok? ==> r.value["id"] == LookupIn(args, ["id"])
    ensures r.Ok? ==> forall k :: k in data && k != "id" ==> r.value[k] == data[k]
  {
    var id :- Prop(args, "id");
    Ok(UpdatePayload(data, id))
  }

  /** The client dialog submits under `args.initialValues.id`, the id it also
      queries the client with and whose record fills the form. */
  function ClientUpdate(args: Option<Value>, data: FormData): (r: Outcome<FormData>)
    ensures r.Ok? ==> r.value.Keys == data.Keys + {"id"}
    ensures r.Ok? ==> r.value["id"] == LookupIn(args, ["initialValues", "id"])
    ensures r.Ok? ==> forall k :: k in data && k != "id" ==> r.value[k] == data[k]
  {
    var initialValues :- Prop(args, "initialValues");
    var id :- Prop(initialValues, "id");
    Ok(UpdatePayload(data, id))
  }

  /** The client dialog throws exactly when `args` or `args.initialValues` is
      `null` or `undefined`. */
  lemma ClientUpdateThrows(args: Option<Value>, data: FormData)
    ensures ClientUpdate(args, data).Thrown? <==>
              args == None || args == Some(Null) ||
              Member(args.value, "initialValues") == None || Member(args.value, "initialValues") == Some(Null)
  {
  }

  // ---------------------------------------------------------------------------
  // The initial values of the order-item edit form

  /** What the order-item query returns for a record. */
  function OrderItemResponse(record: Value): Value {
    Obj(map["orderItem" := record])
  }

  /** `initialValues={data.orderitem}`, as the dialog reads it. */
  function InitialValuesAsWritten(data: Option<Value>): (r: Outcome<Option<Value>>)
    ensures r.Thrown? <==> data == None || data == Some(Null)
  {
    Prop(data, "orderitem")
  }

  /** The key the query's result is stored under is `orderItem`, so the form
      as written starts empty whatever record the query returns. */
  lemma InitialValuesAsWrittenEmpty(record: Value)
    ensures InitialValuesAsWritten(Some(OrderItemResponse(record))) == Ok(None)
  {
    assert "orderitem" != "orderItem";
  }

  /** `initialValues={data.orderItem}`: the form starts from the fetched record. */
  function InitialValues(data: Option<Value>): (r: Outcome<Option<Value>>)
    ensures r.Thrown? <==> data == None || data == Some(Null)
  {
    Prop(data, "orderItem")
  }

  lemma InitialValuesOfResponse(record: Value)
    ensures InitialValues(Some(OrderItemResponse(record))) == Ok(Some(record))
  {
  }
}
