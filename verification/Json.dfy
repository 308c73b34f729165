/** JSON values. Their text form stays abstract: a theorem assumes of it only that the values it prints parse back. */
module JsonValues {
  import opened Common

  datatype Json =
    | Null
    | Bool(b: bool)
    | Num(n: real)
    | Str(s: string)
    | Arr(items: seq<Json>)
    | Obj(fields: map<string, Json>)

  /** Assigning a string under this name gives a JavaScript object no property: copying entry by entry loses it. */
  const PROTO: string := "__proto__"

  datatype JsonText = JsonText(print_: Json -> string, parse: string -> Option<Json>)

  /** The text of this value parses back. No printer has that of every value: there are more numbers than texts. */
  predicate ReadsBack(t: JsonText, j: Json) {
    t.parse(t.print_(j)) == Some(j)
  }

  // For any finite number of values there is such a printer: it prints a value's place in the list.

  function Place(values: seq<Json>, j: Json): (n: nat)
    ensures j in values ==> n < |values| && values[n] == j
  {
    if values == [] || values[0] == j then 0 else 1 + Place(values[1..], j)
  }

  function Places(values: seq<Json>): JsonText {
    JsonText((j: Json) => seq(Place(values, j), _ => '1'),
             (s: string) => if |s| < |values| then Some(values[|s|]) else None)
  }

  lemma TextsExist(values: seq<Json>, j: Json)
    requires j in values
    ensures ReadsBack(Places(values), j)
  {
    assert |Places(values).print_(j)| == Place(values, j);
  }
}
