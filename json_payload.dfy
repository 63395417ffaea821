/**
 * The event payload a hook reads from standard input, as `json.loads`
 * returns it, and the Python operations the hooks apply to it.
 */
module JsonPayload {

  datatype Json =
    | JNull
    | JBool(b: bool)
    | JNumber(n: int)
    | JString(s: string)
    | JArray(items: seq<Json>)
    | JObject(members: seq<(string, Json)>)

  /** What the hook finds on standard input. */
  datatype Stdin =
      /** an interactive terminal: the hook uses `{}` without reading */
    | Terminal
      /** text that `json.loads` rejects, with the exception's message */
    | Malformed(reason: string)
      /** a JSON document of any shape */
    | Document(value: Json)

  /** Python truthiness of a parsed value (`if not message`). */
  function Truthy(v: Json): (r: bool)
    ensures !r <==> v in {JNull, JBool(false), JNumber(0), JString(""), JArray([]), JObject([])}
  {
    match v
    case JNull => false
    case JBool(b) => b
    case JNumber(n) => n != 0
    case JString(s) => s != ""
    case JArray(items) => items != []
    case JObject(members) => members != []
  }

  /** `type(v).__name__`, as Python's error messages print it. */
  function TypeName(v: Json): string
  {
    match v
    case JNull => "NoneType"
    case JBool(_) => "bool"
    case JNumber(_) => "int"
    case JString(_) => "str"
    case JArray(_) => "list"
    case JObject(_) => "dict"
  }

  /** The message of the AttributeError raised by `v.<attribute>` on a value without it. */
  function NoAttribute(v: Json, attribute: string): string
  {
    "'" + TypeName(v) + "' object has no attribute '" + attribute + "'"
  }

  /**
   * `d.get(key, default)` on the dict `json.loads` builds from `members`:
   * when a key is repeated, the last occurrence wins.
   */
  function Get(members: seq<(string, Json)>, key: string, default: Json): (r: Json)
    ensures (forall i :: 0 <= i < |members| ==> members[i].0 != key) ==> r == default
    ensures (exists i :: 0 <= i < |members| && members[i].0 == key) ==>
              exists i :: 0 <= i < |members| && members[i] == (key, r)
                          && forall j :: i < j < |members| ==> members[j].0 != key
  {
    if members == [] then default
    else
      var last := members[|members| - 1];
      var init := members[..|members| - 1];
      if last.0 == key then last.1
      else
        assert forall i :: 0 <= i < |init| ==> init[i] == members[i];
        Get(init, key, default)
  }

  /**
   * `(json.loads(sys.stdin.read()) if not sys.stdin.isatty() else {}).get(key, '')`:
   * the field's value, or the message of the exception that step raises.
   */
  datatype Field = Found(value: Json) | Failed(error: string)

  function ReadField(stdin: Stdin, key: string): (r: Field)
    ensures r.Failed? <==> stdin.Malformed? || (stdin.Document? && !stdin.value.JObject?)
    ensures stdin.Malformed? ==> r.error == stdin.reason
    ensures stdin.Document? && !stdin.value.JObject? ==> r.error == NoAttribute(stdin.value, "get")
    ensures stdin.Terminal? ==> r == Found(JString(""))
    ensures stdin.Document? && stdin.value.JObject?
              && (forall i :: 0 <= i < |stdin.value.members| ==> stdin.value.members[i].0 != key) ==>
              r == Found(JString(""))
    ensures stdin.Document? && stdin.value.JObject? ==> r == Found(Get(stdin.value.members, key, JString("")))
    ensures r.Found? && r.value != JString("") ==>
              stdin.Document? && exists i :: 0 <= i < |stdin.value.members| && stdin.value.members[i] == (key, r.value)
  {
    match stdin
    case Terminal => Found(JString(""))
    case Malformed(reason) => Failed(reason)
    case Document(v) =>
      if v.JObject? then Found(Get(v.members, key, JString("")))
      else Failed(NoAttribute(v, "get"))
  }
}
