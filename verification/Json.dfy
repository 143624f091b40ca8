/** JSON values as the sanitizers see them, and the checks that all of them share. */
module Json {

  import opened Prelude
  import opened Whitespace

  datatype Json =
    | Undefined
    | Null
    | Bool(b: bool)
    | Number(n: real)
    | NotFinite
    | Str(text: string)
    | Arr(items: seq<Json>)
    | Obj(fields: seq<Field>)

  datatype Field = Field(name: string, value: Json)

  function FieldOf(fields: seq<Field>, name: string): Json
  {
    if fields == [] then Undefined
    else if fields[0].name == name then fields[0].value
    else FieldOf(fields[1..], name)
  }

  /** Enough of a name to tell the names of one record apart. */
  predicate Differ(a: string, b: string)
  {
    |a| != |b| || (a != "" && (a[0] != b[0] || a[|a| - 1] != b[|b| - 1]))
  }

  lemma {:induction false} FieldAt(fields: seq<Field>, k: nat)
    requires k < |fields| && forall j :: 0 <= j < k ==> Differ(fields[j].name, fields[k].name)
    ensures FieldOf(fields, fields[k].name) == fields[k].value
  {
    if k > 0 { FieldAt(fields[1..], k - 1); }
  }

  lemma FieldAtFront(front: seq<Field>, more: seq<Field>, k: nat)
    requires k < |front| && forall j :: 0 <= j < k ==> Differ(front[j].name, front[k].name)
    ensures FieldOf(front + more, front[k].name) == front[k].value
  {
    var all := front + more;
    assert forall j :: 0 <= j <= k ==> all[j] == front[j];
    FieldAt(all, k);
  }

  /** A property of a record; of anything else there is none. */
  function Get(v: Json, name: string): Json
  {
    if v.Obj? then FieldOf(v.fields, name) else Undefined
  }

  function ItemsOf(v: Json): seq<Json>
  {
    if v.Arr? then v.items else []
  }

  // ---------------------------------------------------------------- text

  predicate Falsy(v: Json)
  {
    v.Undefined? || v.Null? || v == Bool(false) || v == Number(0.0) || v == Str("")
  }

  /** `String(value)`; all numbers read the same here, as numerals. */
  function StringOf(v: Json): string
    decreases v
  {
    match v
    case Undefined => "undefined"
    case Null => "null"
    case Bool(b) => if b then "true" else "false"
    case Number(_) => "0"
    case NotFinite => "NaN"
    case Str(text) => text
    case Arr(items) => Joined(items)
    case Obj(_) => "[object Object]"
  }

  /** The items of an array with commas between them; absent ones are empty. */
  function Joined(items: seq<Json>): string
    decreases items
  {
    if items == [] then ""
    else
      var first := if items[0].Undefined? || items[0].Null? then "" else StringOf(items[0]);
      if |items| == 1 then first else first + "," + Joined(items[1..])
  }

  /** A string with something in it, trimmed. */
  function Trimmed(v: Json): Option<string>
  {
    if v.Str? && Trim(v.text) != "" then Some(Trim(v.text)) else None
  }

  /** A string with something in it, as it is. */
  function Text(v: Json): Option<string>
  {
    if v.Str? && Trim(v.text) != "" then Some(v.text) else None
  }

  function Or(s: Option<string>, otherwise: string): string
  {
    if s.None? then otherwise else s.value
  }

  predicate Neat(s: string)
  {
    s != "" && Trim(s) == s
  }

  lemma TrimmedIsNeat(v: Json)
    ensures Trimmed(v).Some? ==> Neat(Trimmed(v).value)
  {
    if v.Str? { TrimIsTight(v.text); }
  }

  function OrNull(s: Option<string>): Json
  {
    if s.None? then Null else Str(s.value)
  }

  function OrUndefined(s: Option<string>): Json
  {
    if s.None? then Undefined else Str(s.value)
  }
}
