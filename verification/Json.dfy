/** Parsed structured events: what Python holds after json.loads. */
module Json {

  datatype Value =
    | Null
    | Flag(flag: bool)
    | Number(number: int)
    | Text(text: string)
    | Items(items: seq<Value>)
    | Object(fields: map<string, Value>)

  type Event = map<string, Value>

  /** event.get(key): an absent key reads as null. */
  function Get(e: Event, key: string): Value {
    if key in e then e[key] else Null
  }

  predicate Is(e: Event, kind: string) {
    Get(e, "type") == Text(kind)
  }
}
