/** Options, and decoded JSON documents as trees. */
module Basics {

  datatype Option<+T> = None | Some(value: T) {
    function GetOr(default: T): T {
      match this
      case Some(v) => v
      case None => default
    }
  }

  datatype Result<+T, +E> = Success(value: T) | Failure(error: E)
}

/**
 A decoded JSON value. Objects are maps, so a key occurs once and the order of the members is not
 part of the value; numbers are exact.
 */
module Json {
  import opened Basics

  datatype Value =
    | Null
    | Bool(b: bool)
    | Num(n: real)
    | Str(s: string)
    | Arr(items: seq<Value>)
    | Obj(fields: map<string, Value>)

  const EmptyObject := Obj(map[])

  predicate Has(j: Value, key: string) {
    j.Obj? && key in j.fields
  }

  /** The member `key`, or Null when there is none. */
  function Member(j: Value, key: string): Value {
    if Has(j, key) then j.fields[key] else Null
  }

  /** The string member `key`, when there is one. */
  function TextMember(j: Value, key: string): Option<string> {
    if Member(j, key).Str? then Some(Member(j, key).s) else None
  }

  function NumberMember(j: Value, key: string): Option<real> {
    if Member(j, key).Num? then Some(Member(j, key).n) else None
  }

  /** The elements of the array member `key`; no elements when there is no such array. */
  function ItemsMember(j: Value, key: string): seq<Value> {
    if Member(j, key).Arr? then Member(j, key).items else []
  }

  function TextOf(j: Value, key: string): string {
    TextMember(j, key).GetOr("")
  }

  /** `j` with the member `key` set to `v`. */
  function With(j: Value, key: string, v: Value): Value
    requires j.Obj?
  {
    Obj(j.fields[key := v])
  }
}
