// What the request and the stream of lg_cli/anthropic_bridge.py share.
module Wire {
  import opened Prelude

  datatype Json =
    | Null
    | Bool(b: bool)
    | Int(i: int)
    | Float(r: real)
    | NonFinite
    | Str(s: string)
    | Array(items: seq<Json>)
    | Object(fields: map<string, Json>)

  // What a wire name stands for in one request.
  datatype Spec = Tool(name: string, namespace: Option<string>, custom: bool) | Structured

  type Mapping = map<string, Spec>
}
