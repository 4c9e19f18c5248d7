/** The rest of a Messages body: stop sequences, service tier, tools and how they may be chosen. */
module AnthropicOptions {
  import opened Js

  datatype Tool = Tool(name: string, inputSchema: Json, description: Option<string>)

  datatype Choice = Auto | Any | Named(name: string)

  /** `disableParallel` is the Messages API's `disable_parallel_tool_use`. */
  datatype Tools = Tools(tools: seq<Tool>, choice: Choice, disableParallel: bool)

  datatype Options =
    | Options(stop: seq<string>, tier: Option<string>, tools: Option<Tools>)
    | Unmappable(field: string)

  const ANTHROPIC_SERVICE_TIERS := ["auto", "standard_only"]

  predicate AllStrings(values: seq<Json>) {
    forall i :: 0 <= i < |values| ==> values[i].Str?
  }

  function StringsOf(values: seq<Json>): (strings: seq<string>)
    requires AllStrings(values)
    ensures |strings| == |values| && forall i :: 0 <= i < |values| ==> strings[i] == values[i].s
  {
    if values == [] then [] else [values[0].s] + StringsOf(values[1..])
  }

  predicate NamesFunction(v: Json) {
    Get(v, "type") == Str("function") && Get(Get(v, "function"), "name").Str?
  }

  predicate AllNameFunctions(values: seq<Json>) {
    forall i :: 0 <= i < |values| ==> NamesFunction(values[i])
  }

  /** What a tool says, whatever order its members came in. */
  ghost predicate Describes(tool: Tool, v: Json) {
    var fn := Get(v, "function");
    Is(v, "function") && Get(fn, "name") == Str(tool.name) &&
    tool.inputSchema == FirstPresent([Get(fn, "parameters"), Obj(map["type" := Str("object")])]) &&
    (tool.description.Some? <==> Get(fn, "description").Str? && Get(fn, "description").s != "") &&
    (tool.description.Some? ==> Str(tool.description.value) == Get(fn, "description"))
  }

  /** One tool for each, in order; or one of them is not a function with a name. */
  method ReadTools(values: seq<Json>) returns (tools: Option<seq<Tool>>)
    ensures tools.Some? <==> AllNameFunctions(values)
    ensures tools.Some? ==>
      |tools.value| == |values| && forall i :: 0 <= i < |values| ==> Describes(tools.value[i], values[i])
  {
    var specs := [];
    for k := 0 to |values|
      invariant |specs| == k && forall i :: 0 <= i < k ==> Describes(specs[i], values[i])
    {
      var tool := values[k];
      if !NamesFunction(tool) { return None; }
      var fn := Get(tool, "function");
      FirstOfTwo(Get(fn, "parameters"), Obj(map["type" := Str("object")]));
      var description := Get(fn, "description");
      specs := specs + [Tool(
        Get(fn, "name").s, OrElse(Get(fn, "parameters"), Obj(map["type" := Str("object")])),
        if description.Str? && description.s != "" then Some(description.s) else None)];
    }
    return Some(specs);
  }

  /** The request's tool choice in the Messages API's terms; nothing for a shape it does not have. */
  function ChoiceOf(choice: Json): Option<Choice> {
    if choice.Undefined? || choice == Str("auto") then Some(Auto)
    else if choice == Str("required") then Some(Any)
    else if NamesFunction(choice) then Some(Named(Get(Get(choice, "function"), "name").s))
    else None
  }

  predicate StopFits(stop: Json) {
    stop.Undefined? || stop.Str? || (stop.Arr? && AllStrings(stop.items))
  }

  predicate TierFits(tier: Json) {
    tier.Undefined? || (tier.Str? && tier.s in ANTHROPIC_SERVICE_TIERS)
  }

  /** Tools are sent: there are some, and they are not all forbidden. */
  predicate SendsTools(projected: Json) {
    ItemsOf(Get(projected, "tools")) != [] && Get(projected, "tool_choice") != Str("none")
  }

  // ---------------------------------------------------------------- what the options are taken to say

  /** One sequence may stand for a list of it. */
  ghost predicate StopSays(stop: Json, stops: seq<string>) {
    match stop
    case Undefined => stops == []
    case Str(s) => stops == [s]
    case Arr(items) => |stops| == |items| && forall i :: 0 <= i < |items| ==> items[i] == Str(stops[i])
    case _ => false
  }

  ghost predicate ChoiceSays(choice: Json, c: Choice) {
    match c
    case Auto => choice in {Undefined, Str("auto")}
    case Any => choice == Str("required")
    case Named(name) => Is(choice, "function") && Get(Get(choice, "function"), "name") == Str(name)
  }

  ghost predicate TierSays(tier: Json, t: Option<string>) {
    match t
    case None => tier == Undefined
    case Some(name) => tier == Str(name) && name in {"auto", "standard_only"}
  }

  ghost predicate ParallelSays(parallel: Json, disabled: bool) {
    parallel in {Undefined, Bool(true), Bool(false)} && (disabled <==> parallel == Bool(false))
  }

  /** There are tools, and the caller does not forbid them all. */
  ghost predicate Offers(projected: Json) {
    var tools := Get(projected, "tools");
    tools.Arr? && tools.items != [] && Get(projected, "tool_choice") != Str("none")
  }

  ghost predicate Describable(v: Json) {
    exists tool :: Describes(tool, v)
  }

  ghost predicate AllDescribed(tools: seq<Json>) {
    forall i :: 0 <= i < |tools| ==> Describable(tools[i])
  }

  /** Each option can be said in the API's terms. */
  ghost predicate OptionsFit(projected: Json) {
    (exists stops :: StopSays(Get(projected, "stop"), stops)) && (exists t :: TierSays(Get(projected, "service_tier"), t)) &&
    (Offers(projected) ==>
      AllDescribed(ItemsOf(Get(projected, "tools"))) && (exists c :: ChoiceSays(Get(projected, "tool_choice"), c)) &&
      exists disabled :: ParallelSays(Get(projected, "parallel_tool_calls"), disabled))
  }

  /** The first option that cannot be. */
  ghost function UnfitOption(projected: Json): string {
    if !exists stops :: StopSays(Get(projected, "stop"), stops) then "stop"
    else if !exists t :: TierSays(Get(projected, "service_tier"), t) then "service_tier"
    else if !AllDescribed(ItemsOf(Get(projected, "tools"))) then "tools"
    else if !exists c :: ChoiceSays(Get(projected, "tool_choice"), c) then "tool_choice"
    else "parallel_tool_calls"
  }

  ghost predicate ToolsSay(projected: Json, sent: Tools) {
    var tools := ItemsOf(Get(projected, "tools"));
    ParallelSays(Get(projected, "parallel_tool_calls"), sent.disableParallel) &&
    ChoiceSays(Get(projected, "tool_choice"), sent.choice) &&
    |sent.tools| == |tools| && forall i :: 0 <= i < |tools| ==> Describes(sent.tools[i], tools[i])
  }

  /** The options say what the request says. */
  ghost predicate OptionsSay(projected: Json, options: Options) {
    options.Options? && StopSays(Get(projected, "stop"), options.stop) &&
    TierSays(Get(projected, "service_tier"), options.tier) &&
    (options.tools.Some? <==> Offers(projected)) && (options.tools.Some? ==> ToolsSay(projected, options.tools.value))
  }

  lemma {:induction false} StopIs(stop: Json)
    ensures StopFits(stop) <==> exists stops :: StopSays(stop, stops)
  {
    if stop.Undefined? { assert StopSays(stop, []); }
    if stop.Str? { assert StopSays(stop, [stop.s]); }
    if stop.Arr? && AllStrings(stop.items) { assert StopSays(stop, StringsOf(stop.items)); }
  }

  lemma {:induction false} TierIs(tier: Json)
    ensures TierFits(tier) <==> exists t :: TierSays(tier, t)
    ensures TierFits(tier) ==> TierSays(tier, if tier.Str? then Some(tier.s) else None)
  {
    if TierFits(tier) { assert TierSays(tier, if tier.Str? then Some(tier.s) else None); }
  }

  lemma {:induction false} ChoiceIs(choice: Json)
    ensures ChoiceOf(choice).Some? <==> exists c :: ChoiceSays(choice, c)
    ensures ChoiceOf(choice).Some? ==> ChoiceSays(choice, ChoiceOf(choice).value)
  {
    if ChoiceOf(choice).Some? { assert ChoiceSays(choice, ChoiceOf(choice).value); }
  }

  lemma {:induction false} NamedIs(v: Json)
    ensures NamesFunction(v) <==> Describable(v)
  {
    if NamesFunction(v) {
      var fn := Get(v, "function");
      var description := Get(fn, "description");
      assert Describes(
        Tool(Get(fn, "name").s, FirstPresent([Get(fn, "parameters"), Obj(map["type" := Str("object")])]),
             if description.Str? && description.s != "" then Some(description.s) else None), v);
    }
  }

  lemma {:induction false} AllNamedIs(values: seq<Json>)
    ensures AllNameFunctions(values) <==> AllDescribed(values)
  {
    forall i | 0 <= i < |values| ensures NamesFunction(values[i]) <==> Describable(values[i]) {
      NamedIs(values[i]);
    }
  }

  lemma {:induction false} ParallelIs(parallel: Json)
    ensures parallel.Undefined? || parallel.Bool? <==> exists disabled :: ParallelSays(parallel, disabled)
    ensures parallel.Undefined? || parallel.Bool? ==> ParallelSays(parallel, parallel == Bool(false))
  {
    if parallel.Undefined? || parallel.Bool? { assert ParallelSays(parallel, parallel == Bool(false)); }
  }

  method ReadStop(stop: Json) returns (stops: Option<seq<string>>)
    ensures stops.Some? <==> StopFits(stop)
    ensures stops.Some? ==> StopSays(stop, stops.value)
  {
    if stop.Undefined? { return Some([]); }
    if stop.Str? { return Some([stop.s]); }
    if !stop.Arr? || !AllStrings(stop.items) { return None; }
    return Some(StringsOf(stop.items));
  }

  /** Accepted exactly when each option has a shape the Messages API takes; refused for the first that has not. */
  method ReadOptions(projected: Json) returns (options: Options)
    ensures options.Options? <==> OptionsFit(projected)
    ensures options.Unmappable? ==> options.field == UnfitOption(projected)
    ensures options.Options? ==> OptionsSay(projected, options)
  {
    StopIs(Get(projected, "stop"));
    TierIs(Get(projected, "service_tier"));
    ChoiceIs(Get(projected, "tool_choice"));
    AllNamedIs(ItemsOf(Get(projected, "tools")));
    ParallelIs(Get(projected, "parallel_tool_calls"));
    var stop := ReadStop(Get(projected, "stop"));
    if stop.None? { return Unmappable("stop"); }
    var tier := Get(projected, "service_tier");
    if !TierFits(tier) { return Unmappable("service_tier"); }
    var sent := None;
    if SendsTools(projected) {
      var specs := ReadTools(ItemsOf(Get(projected, "tools")));
      if specs.None? { return Unmappable("tools"); }
      var choice := ChoiceOf(Get(projected, "tool_choice"));
      if choice.None? { return Unmappable("tool_choice"); }
      var parallel := Get(projected, "parallel_tool_calls");
      if !parallel.Undefined? && !parallel.Bool? { return Unmappable("parallel_tool_calls"); }
      sent := Some(Tools(specs.value, choice.value, parallel == Bool(false)));
    }
    return Options(stop.value, if tier.Str? then Some(tier.s) else None, sent);
  }
}
