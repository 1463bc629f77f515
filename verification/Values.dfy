/** BSON values, the requests built from them, and the library conversions that stay opaque. */
module Values {
  import opened Outcomes

  const I32_MIN := -0x8000_0000
  const I32_MAX := 0x7FFF_FFFF
  const I64_MIN := -0x8000_0000_0000_0000
  const I64_MAX := 0x7FFF_FFFF_FFFF_FFFF
  const U32_MAX := 0xFFFF_FFFF

  predicate FitsI32(n: int) {
    I32_MIN <= n <= I32_MAX
  }

  predicate FitsI64(n: int) {
    I64_MIN <= n <= I64_MAX
  }

  /** A double is a number, or one of the values that are not (infinities, NaN). */
  datatype Float = Finite(number: real) | NonFinite(tag: nat)

  datatype Field = Field(key: string, value: Bson)

  datatype Bson =
    | Null
    | Boolean(truth: bool)
    | Int32(n: int)
    | Int64(n: int)
    | Double(d: Float)
    | Decimal(digits: string)
    | String(text: string)
    | ObjectId(hex: string)
    | DateTime(millis: int)
    | Timestamp(time: int, increment: int)
    | Regex(pattern: string, options: string)
    | Binary(payload: string)
    | MinKey
    | MaxKey
    | JavaScriptCode(code: string)
    | CodeWithScope(code: string, scope: seq<Field>)
    | Symbol(name: string)
    | Undefined
    | DbPointer(namespace: string, id: string)
    | Array(items: seq<Bson>)
    | Document(fields: seq<Field>)

  datatype Op =
    | Find(filter: seq<Field>, projection: Option<seq<Field>>, sort: Option<seq<Field>>,
           skip: Option<int>, limit: Option<int>)
    | Aggregate(pipeline: seq<Bson>)
    | Count(filter: seq<Field>)
    | Distinct(key: string, filter: seq<Field>)

  datatype Request = Request(collection: string, op: Op)

  predicate HasKey(fields: seq<Field>, key: string) {
    exists i :: 0 <= i < |fields| && fields[i].key == key
  }

  predicate UniqueKeys(fields: seq<Field>) {
    forall i, j :: 0 <= i < j < |fields| ==> fields[i].key != fields[j].key
  }

  function Get(fields: seq<Field>, key: string): Option<Bson> {
    if fields == [] then None
    else if fields[0].key == key then Some(fields[0].value)
    else Get(fields[1..], key)
  }

  /** Conversions whose meaning belongs to the standard library and the bson crate. */
  datatype Lib = Lib(
    alphanumeric: char -> bool,           // char::is_alphanumeric
    lower: string -> string,              // str::to_lowercase
    double: string -> Option<Float>,      // f64::from_str
    showDouble: Float -> string,          // f64::to_string
    jsonDouble: Float -> string,          // the text of a double in Extended JSON
    decimal: string -> Option<string>,    // Decimal128::from_str
    date: string -> Option<int>,          // DateTime::parse_rfc3339_str
    showDate: int -> string,              // DateTime::try_to_rfc3339_string
    uuid: string -> Option<string>)       // Uuid::parse_str

  /** A whole number in the smallest type that holds it. */
  function Whole(n: int): Bson {
    if FitsI32(n) then Int32(n) else Int64(n)
  }
}
