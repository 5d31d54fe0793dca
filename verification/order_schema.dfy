/**
  The shape an order payload must have: a non-strict object with a string
  `user_id`, a record `products` from product id to a strictly positive
  quantity, and a string `payment_info`.

  `ValidOrder` states the shape declaratively. `Issues` models what the schema
  library's `parse` reports (it throws exactly when that set is non-empty), and
  `ValidateOrderData` is the service's wrapper that turns the throw into
  `false`.
 */
module OrderSchema {
  import opened Json

  /** The fields the schema requires. */
  const UserId: string := "user_id"
  const Products: string := "products"
  const PaymentInfo: string := "payment_info"

  /** A quantity the schema accepts: a number strictly greater than zero. */
  predicate PositiveNumber(v: Value)
  {
    v.Num? && v.n > 0.0
  }

  /** A products record: an object whose every value is a positive number.
      Only the values present are constrained, so `{}` qualifies. */
  predicate ValidProducts(v: Value)
  {
    v.Obj? && forall product :: product in v.fields ==> PositiveNumber(v.fields[product])
  }

  /** True when `key` is present in `m` and holds a string. */
  predicate HasString(m: Fields, key: string)
  {
    key in m && m[key].Str?
  }

  /** The order shape. Keys other than the three named ones are ignored. */
  predicate ValidOrder(v: Value)
  {
    && v.Obj?
    && HasString(v.fields, UserId)
    && Products in v.fields && ValidProducts(v.fields[Products])
    && HasString(v.fields, PaymentInfo)
  }

  // ---------------------------------------------------------------------------
  // What the schema library reports
  // ---------------------------------------------------------------------------

  /** `InvalidType`: absent, or of the wrong kind. `TooSmall`: a number that is
      not strictly positive. */
  datatype IssueCode = InvalidType | TooSmall

  /** One complaint of the parser, located by the path of keys leading to the
      offending value (`[]` is the payload itself). */
  datatype Issue = Issue(path: seq<string>, code: IssueCode)

  function StringFieldIssues(m: Fields, key: string): set<Issue>
  {
    if HasString(m, key) then {} else {Issue([key], InvalidType)}
  }

  function ProductsIssues(m: Fields): set<Issue>
  {
    if Products !in m || !m[Products].Obj? then {Issue([Products], InvalidType)}
    else
      var q := m[Products].fields;
      (set product | product in q && !q[product].Num? :: Issue([Products, product], InvalidType))
      + (set product | product in q && q[product].Num? && q[product].n <= 0.0
           :: Issue([Products, product], TooSmall))
  }

  /** Every issue the parser collects for `v`. A payload that is not an object
      yields one issue at the root and nothing else; an object is checked field
      by field and, inside `products`, quantity by quantity. */
  function Issues(v: Value): (issues: set<Issue>)
    ensures issues == {} <==> ValidOrder(v)
    ensures !v.Obj? ==> issues == {Issue([], InvalidType)}
    ensures v.Obj? ==>
      (Issue([UserId], InvalidType) in issues <==> !HasString(v.fields, UserId))
    ensures v.Obj? ==>
      (Issue([PaymentInfo], InvalidType) in issues <==> !HasString(v.fields, PaymentInfo))
    ensures v.Obj? ==>
      (Issue([Products], InvalidType) in issues <==>
         Products !in v.fields || !v.fields[Products].Obj?)
    ensures v.Obj? && Products in v.fields && v.fields[Products].Obj? ==>
      forall product :: product in v.fields[Products].fields ==>
        (Issue([Products, product], InvalidType) in issues <==>
           !v.fields[Products].fields[product].Num?)
    ensures v.Obj? && Products in v.fields && v.fields[Products].Obj? ==>
      forall product :: product in v.fields[Products].fields ==>
        (Issue([Products, product], TooSmall) in issues <==>
           v.fields[Products].fields[product].Num? && v.fields[Products].fields[product].n <= 0.0)
  {
    match v
    case Obj(m) =>
      ProductsIssuesExact(m);
      StringFieldIssues(m, UserId) + ProductsIssues(m) + StringFieldIssues(m, PaymentInfo)
    case _ => {Issue([], InvalidType)}
  }

  /** The products check reports nothing exactly when the record is valid. */
  lemma ProductsIssuesExact(m: Fields)
    ensures ProductsIssues(m) == {} <==> Products in m && ValidProducts(m[Products])
  {
    if Products in m && m[Products].Obj? && !ValidProducts(m[Products]) {
      var q := m[Products].fields;
      var product :| product in q && !PositiveNumber(q[product]);
      if q[product].Num? {
        assert Issue([Products, product], TooSmall) in ProductsIssues(m);
      } else {
        assert Issue([Products, product], InvalidType) in ProductsIssues(m);
      }
    }
  }

  /** The service's validator: parse, and report whether parsing succeeded.
      It never fails and never changes the payload. */
  function ValidateOrderData(data: Value): (ok: bool)
    ensures ok <==> ValidOrder(data)
    ensures ok ==> data.Obj?
  {
    Issues(data) == {}
  }

  // ---------------------------------------------------------------------------
  // Consequences of the shape
  // ---------------------------------------------------------------------------

  /** A payload lacking any of the three required fields is refused. */
  lemma MissingFieldInvalid(m: Fields)
    requires UserId !in m || Products !in m || PaymentInfo !in m
    ensures !ValidateOrderData(Obj(m))
  {
  }

  /** The payload must be an object: arrays, strings, numbers, booleans and
      `null` are refused. */
  lemma NonObjectInvalid(v: Value)
    requires !v.Obj?
    ensures Issues(v) == {Issue([], InvalidType)}
    ensures !ValidateOrderData(v)
  {
  }

  /** An empty products record is accepted. */
  lemma EmptyProductsValid(user: string, payment: string)
    ensures ValidateOrderData(Obj(map[UserId := Str(user), Products := Obj(map[]),
                                     PaymentInfo := Str(payment)]))
  {
  }

  /** A single quantity that is zero, negative or not a number makes the whole
      payload invalid, and is reported under its product id. */
  lemma BadQuantityInvalid(m: Fields, product: string)
    requires Products in m && m[Products].Obj?
    requires product in m[Products].fields
    requires !PositiveNumber(m[Products].fields[product])
    ensures !ValidateOrderData(Obj(m))
    ensures Issue([Products, product], InvalidType) in Issues(Obj(m))
         || Issue([Products, product], TooSmall) in Issues(Obj(m))
  {
  }

  /** The object is not strict: adding or changing a key other than the three
      required ones never changes the verdict. */
  lemma {:induction false} ExtraKeysIgnored(m: Fields, key: string, value: Value)
    requires key != UserId && key != Products && key != PaymentInfo
    ensures ValidateOrderData(Obj(m[key := value])) == ValidateOrderData(Obj(m))
  {
    var m' := m[key := value];
    assert UserId in m' <==> UserId in m;
    assert Products in m' <==> Products in m;
    assert PaymentInfo in m' <==> PaymentInfo in m;
  }
}
