/** JavaScript values as the reconciler sees them: the documents read from the
    store and the JSON bodies of the upstream API, with JavaScript's truthiness,
    `||` defaulting, optional property access and `String.prototype.split`. */
module JsValues {

  /** An IEEE double as far as the reconciler inspects one: only whether it is
      NaN, infinite, or which real it denotes. Signed zero is not distinguished
      (`-0 === 0` holds in JavaScript). */
  datatype Float = NaN | Infinite(positive: bool) | Finite(x: real)
  {
    predicate IsZero() { Finite? && x == 0.0 }
  }

  /** A JavaScript value stored in a document field. Objects and arrays are
      references, compared by identity, and always truthy. */
  datatype Json =
    | Undefined
    | Null
    | Bool(b: bool)
    | Num(n: Float)
    | Str(s: string)
    | Ref(id: nat)

  /** A property name. The names the controller reads or writes are listed
      one by one; `Other` stands for every other name a document may carry.
      A listed name is always its own constructor, never `Other` of its
      spelling, so two distinct keys are two distinct names. */
  datatype Key =
    | Name | TokenId | Index | TokenIndex
    | StartPx | MarkPx | LaunchDate | AuctionPrice | LaunchCircSupply | LaunchMarketCap
    | TeamAllocation | Airdrop1 | Airdrop2
    | DevReputation | SpreadLessThanThree | ThickObLiquidity | NoSellPressure
    | Twitter | Telegram | Discord | Website | Comment | LastUpdated
    | DeployTime | SeededUsdc | CirculatingSupply
    | Other(name: string)

  /** A document: its own enumerable properties. A missing key reads as
      `undefined`. */
  type Document = map<Key, Json>

  datatype Option<T> = None | Some(value: T)

  /** JavaScript truthiness: `undefined`, `null`, `false`, `0`, `NaN` and `""`
      are falsy, everything else is truthy. */
  predicate Truthy(v: Json) {
    match v
    case Undefined => false
    case Null => false
    case Bool(b) => b
    case Num(n) => !n.NaN? && !n.IsZero()
    case Str(s) => s != ""
    case Ref(_) => true
  }

  /** `a || b`: the left operand when it is truthy, else the right one. */
  function Or(a: Json, b: Json): (r: Json)
    ensures Truthy(a) ==> r == a
    ensures !Truthy(a) ==> r == b
    ensures Truthy(r) <==> Truthy(a) || Truthy(b)
  {
    if Truthy(a) then a else b
  }

  /** `d.key`: the property's value, `undefined` when it is absent. */
  function Get(d: Document, key: Key): (r: Json)
    ensures key !in d ==> r == Undefined
    ensures key in d ==> r == d[key]
  {
    if key in d then d[key] else Undefined
  }

  /** `d?.key` on a possibly missing document. */
  function Prior(d: Option<Document>, key: Key): (r: Json)
    ensures d.None? ==> r == Undefined
    ensures d.Some? ==> r == Get(d.value, key)
  {
    match d
    case None => Undefined
    case Some(doc) => Get(doc, key)
  }

  /** The number value `n`, as an integer index is stored. */
  function IntNum(n: int): Json {
    Num(Finite(n as real))
  }

  /** `s.split(c)[0]`: the part of `s` before the first `c`, all of `s` when
      `c` does not occur in it. */
  function BeforeFirst(s: string, c: char): (r: string)
    ensures |r| <= |s| && r == s[..|r|]
    ensures c !in r
    ensures |r| < |s| ==> s[|r|] == c
  {
    if s == [] then []
    else if s[0] == c then []
    else [s[0]] + BeforeFirst(s[1..], c)
  }
}
