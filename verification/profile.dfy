/**
  The server profile the compiler reads: a parsed JSON object, looked up by key
  through a const QJsonObject, so a missing key reads as an undefined value.
  */
module Profiles {
  import opened JsonDoc
  import opened QtString

  type Profile = map<string, Json>

  /** `serverConfig[key]`: None stands for QJsonValue::Undefined. */
  function Raw(p: Profile, key: string): Option<Json>
  {
    if key in p then Some(p[key]) else None
  }

  /** QJsonValue::toString(): the string itself, or "" for any other kind of
      value (numbers are not converted) and for an undefined one. */
  function ToStr(v: Option<Json>): (s: string)
    ensures (v.Some? && v.value.JStr?) ==> s == v.value.str
    ensures s != "" ==> v == Some(JStr(s))
  {
    match v
    case Some(JStr(s)) => s
    case _ => ""
  }

  /** QJsonValue::toBool(): the boolean itself, or false for anything else. */
  function ToBool(v: Option<Json>): (b: bool)
    ensures b <==> v == Some(JBool(true))
  {
    match v
    case Some(JBool(b)) => b
    case _ => false
  }

  function Str(p: Profile, key: string): string
  {
    ToStr(Raw(p, key))
  }

  function Flag(p: Profile, key: string): bool
  {
    ToBool(Raw(p, key))
  }

  /** `serverConfig[key].toString().toInt()` */
  function Int(p: Profile, key: string): int
  {
    ToInt(Str(p, key))
  }

  /** `serverConfig[key].toString().toLower()` */
  function LowerStr(p: Profile, key: string): string
  {
    Lower(Str(p, key))
  }

  /** A field that is missing or is not a JSON string reads as "", so its integer
      coercion is 0: a port given as the JSON number 443 compiles to port 0. */
  lemma NonStringReadsEmpty(p: Profile, key: string)
    requires !(key in p && p[key].JStr?)
    ensures Str(p, key) == "" && Int(p, key) == 0
  {
    assert !IsNumeral("");
  }
}
