/** The attribute values the handlers read from request bodies and table
    records (a JSON value without fractions), a record as a map from attribute
    name to value, and the JavaScript coercions the handlers apply to them:
    rendering into a template literal and conversion to a number for `>=`. */
module Items {
  import opened Wrappers
  import opened Text

  datatype Value =
    | Str(s: string)
    | Num(n: int)
    | Bool(b: bool)
    | Null
    | Arr(elems: seq<Value>)
    | Obj(fields: map<string, Value>)

  /** A table record, a parsed request body or an order: attribute name to value.
      An attribute that is `undefined` is simply absent. */
  type Item = map<string, Value>

  /** `item.name`: the value, or None for `undefined`. */
  function Attr(item: Item, name: string): (r: Option<Value>)
    ensures r.Some? <==> name in item
    ensures r.Some? ==> r.value == item[name]
  {
    if name in item then Some(item[name]) else None
  }

  /** `${v}` in a template literal, `undefined` for an absent value. */
  function Render(v: Option<Value>): string {
    match v
    case None => "undefined"
    case Some(x) => RenderValue(x)
  }

  function RenderValue(v: Value): (r: string)
    // a number's text converts back to the same number
    ensures v.Num? ==> StrToNumber(r) == Some(v.n)
    ensures v.Str? ==> r == v.s
    decreases v, 1
  {
    match v
    case Str(s) => s
    case Num(n) => IntToStringReadsBack(n); IntToString(n)
    case Bool(b) => if b then "true" else "false"
    case Null => "null"
    case Arr(elems) => Join(v, elems)
    case Obj(_) => "[object Object]"
  }

  /** `Array.prototype.join(",")`: null elements are written as empty strings. */
  function Join(ghost whole: Value, elems: seq<Value>): string
    requires forall e :: e in elems ==> e < whole
    decreases whole, 0, |elems|
  {
    if elems == [] then ""
    else
      assert elems[0] in elems;
      var head := if elems[0].Null? then "" else RenderValue(elems[0]);
      if |elems| == 1 then head
      else
        assert forall e :: e in elems[1..] ==> e in elems;
        head + "," + Join(whole, elems[1..])
  }

  /** JavaScript's string-to-number conversion for the forms this model reads:
      the empty string is 0, an optional '-' before decimal digits is that
      integer, every other string is NaN (None). */
  function StrToNumber(s: string): (r: Option<int>)
    ensures s == "" ==> r == Some(0)
    ensures (forall i :: 0 <= i < |s| ==> '0' <= s[i] <= '9') ==> r == Some(DigitsValue(s))
  {
    if s == "" then Some(0)
    else if AllDigits(s) then Some(DigitsValue(s))
    else if s[0] == '-' && |s| > 1 && AllDigits(s[1..]) then Some(0 - DigitsValue(s[1..]))
    else None
  }

  predicate AllDigits(s: string) {
    forall i :: 0 <= i < |s| ==> '0' <= s[i] <= '9'
  }

  /** A minus sign before the digits of m reads as -m. */
  lemma NegatedDigits(m: nat)
    ensures StrToNumber("-" + NatToString(m)) == Some(-(m as int))
  {
    var digits := NatToString(m);
    var s := "-" + digits;
    assert s[1..] == digits;
    assert s[0] == '-';
    NatToStringValue(m);
  }

  /** `Number(String(n)) === n` for an integer n. */
  lemma IntToStringReadsBack(n: int)
    ensures StrToNumber(IntToString(n)) == Some(n)
  {
    if n < 0 {
      NegatedDigits(-n);
    } else {
      NatToStringValue(n);
    }
  }

  /** `Number(v)` as `>=` applies it: None stands for NaN. */
  function ToNumber(v: Option<Value>): Option<int> {
    match v
    case None => None
    case Some(Num(n)) => Some(n)
    case Some(Bool(b)) => Some(if b then 1 else 0)
    case Some(Null) => Some(0)
    case Some(Str(s)) => StrToNumber(s)
    case Some(x) => StrToNumber(RenderValue(x))
  }

  /** `quantity >= limit`: false whenever either side is NaN or undefined. */
  predicate AtLeast(quantity: Option<Value>, limit: Option<int>)
    // a NaN or undefined side never compares true
    ensures AtLeast(quantity, limit) ==> quantity.Some? && ToNumber(quantity).Some? && limit.Some?
  {
    var q := ToNumber(quantity);
    q.Some? && limit.Some? && q.value >= limit.value
  }

  /** A missing quantity never reaches a limit, and a numeric one is compared as a number. */
  lemma AtLeastCases(quantity: Option<Value>, limit: Option<int>)
    ensures quantity.None? ==> !AtLeast(quantity, limit)
    ensures limit.None? ==> !AtLeast(quantity, limit)
    ensures quantity.Some? && quantity.value.Num? && limit.Some? ==>
              (AtLeast(quantity, limit) <==> quantity.value.n >= limit.value)
    ensures quantity.Some? && quantity.value.Obj? ==> !AtLeast(quantity, limit)
  {
    if quantity.Some? && quantity.value.Obj? {
      assert RenderValue(quantity.value) == "[object Object]";
      assert !AllDigits("[object Object]") by { assert !('0' <= "[object Object]"[0] <= '9'); }
    }
  }

  /** The attributes the order handlers copy into a response. */
  const OrderFields: set<string> := {"id", "productId", "quantity", "storeId", "created", "type"}

  /** `{ id: item.id, productId: item.productId, ... type: item.type }` after
      `JSON.stringify`, which drops the attributes that are `undefined`. */
  function Project(item: Item): (r: Item)
    ensures r.Keys == item.Keys * OrderFields
    ensures forall k :: k in r ==> r[k] == item[k]
  {
    map k | k in item && k in OrderFields :: item[k]
  }
}
