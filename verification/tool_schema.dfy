/** The tool-schema adapter of the agent loop: the MCP tool catalog becomes the list of function tools
    offered to the completion API, with the two parameters the orchestrator injects itself
    (`topology_id` and `model_name`) taken out of every parameter schema. */
module ToolSchema {
  import opened Wrappers
  import opened JsonValues
  import Text

  const TopologyKey := "topology_id"
  const ModelKey := "model_name"

  /** A tool as the MCP server lists it. An absent schema and an empty one behave alike (both are falsy),
      so both are the empty map here. */
  datatype McpTool = McpTool(name: string, description: string, inputSchema: map<string, Json>)

  /** A tool as the completion API receives it: `{"type": "function", "function": {...}}`. */
  datatype FunctionTool = FunctionTool(name: string, description: string, parameters: map<string, Json>)

  /** The schema substituted for a missing one. */
  const DefaultSchema: map<string, Json> := map["type" := JStr("object"), "properties" := JObj(map[])]

  /** The position of the first occurrence of `x`. */
  function FirstIndex(xs: seq<Json>, x: Json): (i: nat)
    requires x in xs
    ensures i < |xs| && xs[i] == x && x !in xs[..i]
  {
    if xs[0] == x then 0
    else
      var j := FirstIndex(xs[1..], x);
      assert xs[..j + 1] == [xs[0]] + xs[1..][..j];
      j + 1
  }

  /** Python's `list.remove(x)` guarded by `x in list`: the first occurrence goes and the rest keep their order. */
  function RemoveFirst(xs: seq<Json>, x: Json): (r: seq<Json>)
    ensures x !in xs ==> r == xs
    ensures x in xs ==> r == xs[..FirstIndex(xs, x)] + xs[FirstIndex(xs, x) + 1..]
    ensures multiset(r) == multiset(xs) - multiset{x}
  {
    if x !in xs then xs
    else
      var i := FirstIndex(xs, x);
      assert xs == xs[..i] + [x] + xs[i + 1..];
      xs[..i] + xs[i + 1..]
  }

  /** `if key in props: del props[key]` on the value found under "properties". `None` means the statement raises:
      `in` is undefined on a number, a boolean or null, and `del` needs a dictionary. */
  function DropProperty(v: Json, key: string): Option<Json> {
    match v
    case JObj(m) => Some(JObj(m - {key}))
    case JArr(items) => if JStr(key) in items then None else Some(v)
    case JStr(s) => if Text.Contains(s, key) then None else Some(v)
    case _ => None
  }

  /** `if key in required: required.remove(key)` on the value found under "required". `None` means it raises:
      only a list has `remove`. */
  function DropRequired(v: Json, key: string): Option<Json> {
    match v
    case JArr(items) => Some(JArr(RemoveFirst(items, JStr(key))))
    case JObj(m) => if key in m then None else Some(v)
    case JStr(s) => if Text.Contains(s, key) then None else Some(v)
    case _ => None
  }

  /** Both injected keys dropped from a "properties" value, topology first. */
  function StripProperties(v: Json): Option<Json> {
    match DropProperty(v, TopologyKey)
    case None => None
    case Some(v') => DropProperty(v', ModelKey)
  }

  /** Both injected keys dropped from a "required" value, topology first. */
  function StripRequired(v: Json): Option<Json> {
    match DropRequired(v, TopologyKey)
    case None => None
    case Some(v') => DropRequired(v', ModelKey)
  }

  /** The schema the adapter starts from: a deep copy of the tool's own, or the default when it has none. */
  function BaseSchema(input: map<string, Json>): map<string, Json> {
    if input == map[] then DefaultSchema else input
  }

  /** The shape every schema the MCP server generates has: "properties" is an object and "required" a list,
      when present. */
  predicate WellShaped(input: map<string, Json>) {
    && ("properties" in input ==> input["properties"].JObj?)
    && ("required" in input ==> input["required"].JArr?)
  }

  /** The parameter schema offered to the model for one tool; `None` when the source raises on it.
      An absent "properties" or "required" entry is read as a fresh empty value and nothing is written back. */
  function AdaptSchema(input: map<string, Json>): (r: Option<map<string, Json>>)
    ensures input == map[] ==> r == Some(DefaultSchema)
    ensures r.Some? ==> r.value.Keys == BaseSchema(input).Keys
    ensures r.Some? ==> forall k | k in r.value && k != "properties" && k != "required" :: r.value[k] == BaseSchema(input)[k]
  {
    var s := BaseSchema(input);
    var props := if "properties" in s then StripProperties(s["properties"]) else Some(JObj(map[]));
    var req := if "required" in s then StripRequired(s["required"]) else Some(JArr([]));
    if props.None? || req.None? then None
    else
      var s1 := if "properties" in s then s["properties" := props.value] else s;
      var s2 := if "required" in s then s1["required" := req.value] else s1;
      assert input == map[] ==> s2 == DefaultSchema by {
        if input == map[] {
          var empty: map<string, Json> := map[];
          assert empty - {TopologyKey} == empty && empty - {ModelKey} == empty;
          assert props.value == JObj(empty);
        }
      }
      Some(s2)
  }

  /** The object of properties of a well-shaped schema loses exactly the two injected keys. */
  lemma AdaptedProperties(input: map<string, Json>)
    requires WellShaped(input)
    requires "properties" in input
    ensures StripProperties(input["properties"]) == Some(JObj(input["properties"].fields - {TopologyKey, ModelKey}))
  {
    var m := input["properties"].fields;
    assert m - {TopologyKey} - {ModelKey} == m - {TopologyKey, ModelKey};
  }

  /** The required list of a well-shaped schema loses one occurrence of each injected key and nothing else. */
  lemma AdaptedRequired(input: map<string, Json>)
    requires WellShaped(input)
    requires "required" in input
    ensures StripRequired(input["required"]).Some?
    ensures StripRequired(input["required"]).value.JArr?
    ensures multiset(StripRequired(input["required"]).value.items)
            == multiset(input["required"].items) - multiset{JStr(TopologyKey), JStr(ModelKey)}
  {
    var items := input["required"].items;
    var t, m := JStr(TopologyKey), JStr(ModelKey);
    var once := RemoveFirst(items, t);
    var twice := RemoveFirst(once, m);
    assert DropRequired(input["required"], TopologyKey) == Some(JArr(once));
    assert StripRequired(input["required"]) == Some(JArr(twice));
    MultisetRemoveTwo(multiset(items), t, m);
  }

  lemma MultisetRemoveTwo(a: multiset<Json>, t: Json, m: Json)
    ensures a - multiset{t} - multiset{m} == a - multiset{t, m}
  {
    var lhs, rhs := a - multiset{t} - multiset{m}, a - multiset{t, m};
    forall e ensures lhs[e] == rhs[e] {
      if t == m {
        assert multiset{t, m}[e] == if e == t then 2 else 0;
      }
    }
  }

  /** A schema of the shape the MCP server generates never makes the adapter raise; its object of properties
      loses exactly the two injected keys, and its required list loses one occurrence of each of them and
      nothing else. */
  lemma AdaptWellShaped(input: map<string, Json>)
    requires WellShaped(input)
    ensures AdaptSchema(input).Some?
    ensures "properties" in input ==>
              AdaptSchema(input).value["properties"] == JObj(input["properties"].fields - {TopologyKey, ModelKey})
    ensures "required" in input ==>
              && AdaptSchema(input).value["required"].JArr?
              && multiset(AdaptSchema(input).value["required"].items)
                 == multiset(input["required"].items) - multiset{JStr(TopologyKey), JStr(ModelKey)}
  {
    assert AdaptSchema(input).Some? by {
      if input != map[] {
        if "properties" in input { AdaptedProperties(input); }
        if "required" in input { AdaptedRequired(input); }
      }
    }
    AdaptedEntries(input);
    if input != map[] {
      if "properties" in input { AdaptedProperties(input); }
      if "required" in input { AdaptedRequired(input); }
    }
  }

  /** An adapted schema holds the stripped "properties" and "required" values of the schema it started from. */
  lemma AdaptedEntries(input: map<string, Json>)
    requires AdaptSchema(input).Some?
    ensures "properties" in BaseSchema(input) ==>
              StripProperties(BaseSchema(input)["properties"]).Some? &&
              AdaptSchema(input).value["properties"] == StripProperties(BaseSchema(input)["properties"]).value
    ensures "required" in BaseSchema(input) ==>
              StripRequired(BaseSchema(input)["required"]).Some? &&
              AdaptSchema(input).value["required"] == StripRequired(BaseSchema(input)["required"]).value
  {
  }

  /** The function tool offered to the completion API for one MCP tool; `None` when the source raises. */
  function AdaptTool(t: McpTool): Option<FunctionTool> {
    match AdaptSchema(t.inputSchema)
    case None => None
    case Some(p) => Some(FunctionTool(t.name, t.description, p))
  }

  /** The adapter loop over the whole catalog. It raises (`None`) exactly when some tool's schema raises;
      otherwise every tool keeps its position, name and description, and no object-valued "properties"
      still offers an injected parameter. */
  method AdaptCatalog(tools: seq<McpTool>) returns (r: Option<seq<FunctionTool>>)
    ensures r.Some? <==> forall i | 0 <= i < |tools| :: AdaptSchema(tools[i].inputSchema).Some?
    ensures r.Some? ==> |r.value| == |tools|
    ensures r.Some? ==> forall i | 0 <= i < |tools| ::
              && r.value[i].name == tools[i].name
              && r.value[i].description == tools[i].description
              && r.value[i].parameters == AdaptSchema(tools[i].inputSchema).value
    ensures r.Some? ==> forall i | 0 <= i < |tools| :: NoInjectedProperty(r.value[i].parameters)
  {
    var out: seq<FunctionTool> := [];
    for i := 0 to |tools|
      invariant |out| == i
      invariant forall j | 0 <= j < i :: AdaptTool(tools[j]) == Some(out[j])
    {
      var adapted := AdaptTool(tools[i]);
      if adapted.None? {
        return None;
      }
      out := out + [adapted.value];
    }
    forall j | 0 <= j < |tools| ensures NoInjectedProperty(out[j].parameters) {
      InjectedPropertiesRemoved(tools[j].inputSchema);
    }
    r := Some(out);
  }

  /** An object-valued "properties" entry offers neither injected parameter. */
  predicate NoInjectedProperty(schema: map<string, Json>) {
    "properties" in schema && schema["properties"].JObj? ==>
      TopologyKey !in schema["properties"].fields && ModelKey !in schema["properties"].fields
  }

  /** Whatever "properties" held, an adapted schema whose "properties" is an object offers neither key. */
  lemma InjectedPropertiesRemoved(input: map<string, Json>)
    requires AdaptSchema(input).Some?
    ensures NoInjectedProperty(AdaptSchema(input).value)
  {
    var s := BaseSchema(input);
    if "properties" in s {
      var v := s["properties"];
      var v1 := DropProperty(v, TopologyKey);
      assert v1.Some?;
      if v.JObj? {
        assert v1.value.JObj?;
      } else {
        assert v1.value == v;
        assert DropProperty(v, ModelKey) == Some(v);
      }
    }
  }
}
