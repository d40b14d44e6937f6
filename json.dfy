/** JSON values, as `JSON.parse` returns them, and what an object spread
    `{...v}` copies out of one. */
module Json {
  import opened JsValues

  /** A parsed JSON document. A number is kept by its literal text; the model
      does not re-render it as `JSON.stringify` would. Objects are maps, so a key appears at
      most once (`JSON.parse` keeps the last of duplicate keys). */
  datatype Json =
    | Null
    | Bool(b: bool)
    | Number(literal: string)
    | String(s: string)
    | Array(items: seq<Json>)
    | Object(members: map<string, Json>)

  /** Distinct array or string indices become distinct property keys: the
      quantified form of `DecimalInjective` that a map built over indices
      needs. */
  lemma IndexKeysDistinct()
    ensures forall a: nat, b: nat :: Decimal(a) == Decimal(b) ==> a == b
  {
    forall a: nat, b: nat | Decimal(a) == Decimal(b) ensures a == b {
      DecimalInjective(a, b);
    }
  }

  /** An object whose keys are the decimal indices of `values`. */
  function Indexed(values: seq<Json>): (props: map<string, Json>)
    ensures forall i :: 0 <= i < |values| ==> Decimal(i) in props && props[Decimal(i)] == values[i]
    ensures forall k :: k in props ==> exists i :: 0 <= i < |values| && k == Decimal(i)
  {
    IndexKeysDistinct();
    map i | 0 <= i < |values| :: Decimal(i) := values[i]
  }

  /** The own enumerable properties of a parsed value, which is what `{...v}`
      copies: an object's members; an array's elements and a string's
      characters under their decimal indices; nothing for `null`, booleans
      and numbers. */
  function OwnProperties(v: Json): (props: map<string, Json>)
    ensures v.Object? ==> props == v.members
    ensures v.Array? ==> forall i :: 0 <= i < |v.items| ==> Decimal(i) in props && props[Decimal(i)] == v.items[i]
    ensures v.Array? ==> forall k :: k in props ==> exists i :: 0 <= i < |v.items| && k == Decimal(i)
    ensures v.String? ==> forall i :: 0 <= i < |v.s| ==> Decimal(i) in props && props[Decimal(i)] == String([v.s[i]])
    ensures v.String? ==> forall k :: k in props ==> exists i :: 0 <= i < |v.s| && k == Decimal(i)
    ensures v.Null? || v.Bool? || v.Number? ==> props == map[]
  {
    match v
    case Object(members) => members
    case Array(items) => Indexed(items)
    case String(s) => Indexed(seq(|s|, i requires 0 <= i < |s| => String([s[i]])))
    case _ => map[]
  }
}
