/**
  JSON values as the compiler handles them: QJsonValue, QJsonArray and QJsonObject.
  An object maps each key to one value, as a QJsonObject does; the order in which
  keys were inserted is not observable in a QJsonObject, so it is not modelled.
  */
module JsonDoc {

  datatype Option<+T> = None | Some(value: T)

  /** A JSON value. Numbers are integers: every number the compiler writes is a
      32-bit integer, and a number it reads is only echoed, or read through
      toString() or toBool(), which give "" and false for any number. */
  datatype Json =
    | JNull
    | JBool(b: bool)
    | JNum(n: int)
    | JStr(str: string)
    | JArr(items: seq<Json>)
    | JObj(fields: map<string, Json>)

  /** The object holding `key: v`, or the empty object when `v` is undefined:
      inserting an undefined QJsonValue into a QJsonObject removes the key
      instead of storing it. */
  function Entry(key: string, v: Option<Json>): (m: map<string, Json>)
    ensures key in m <==> v.Some?
    ensures v.Some? ==> m[key] == v.value
    ensures m.Keys <= {key}
  {
    if v.Some? then map[key := v.value] else map[]
  }

  /** An array of strings, element by element. */
  function Strings(ss: seq<string>): (j: Json)
    ensures j.JArr? && |j.items| == |ss|
    ensures forall i :: 0 <= i < |ss| ==> j.items[i] == JStr(ss[i])
  {
    JArr(seq(|ss|, i requires 0 <= i < |ss| => JStr(ss[i])))
  }

  // Total accessors used to read a document back; a missing member reads as null.

  function Member(j: Json, key: string): Option<Json>
  {
    if j.JObj? && key in j.fields then Some(j.fields[key]) else None
  }

  function Field(j: Json, key: string): Json
  {
    if j.JObj? && key in j.fields then j.fields[key] else JNull
  }

  function Item(j: Json, i: nat): Json
  {
    if j.JArr? && i < |j.items| then j.items[i] else JNull
  }

  function StrOf(j: Json): string
  {
    if j.JStr? then j.str else ""
  }

  function NumOf(j: Json): int
  {
    if j.JNum? then j.n else 0
  }

  function BoolOf(j: Json): bool
  {
    j.JBool? && j.b
  }
}
