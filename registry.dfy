/** `ToolRegistry`: a dict from tool name to tool, filled by thirteen `register` calls when the
    registry is built, and the lookups and the `execute_tool` dispatch over it. */
module Registry {
  import opened Wrappers
  import opened TextPrimitives
  import opened Base
  import opened Enums
  import opened Tools

  /** The `name` argument of `execute_tool`: a plain string or a `ToolName` member. */
  datatype NameArg = ByString(s: string) | ByMember(t: ToolName)

  /** `name.value if isinstance(name, ToolName) else name`. */
  function Normalize(name: NameArg): string {
    match name
    case ByString(s) => s
    case ByMember(t) => t.Value()
  }

  /** The error for a name that is not a `ToolName` value: it lists every valid name. */
  function UnknownTool(name: string): string {
    "Unknown tool: " + name + ". Valid tools: " + Join(", ", ListAll())
  }

  /** The error for a valid name nothing was registered under. */
  function NotRegistered(name: string): string {
    "Tool '" + name + "' not found in registry"
  }

  /** No name occurs twice. */
  predicate Distinct(ns: seq<string>) {
    forall i, j :: 0 <= i < j < |ns| ==> ns[i] != ns[j]
  }

  class ToolRegistry {
    /** `_tools`. */
    var tools: map<string, Tool>
    /** The keys of `_tools` in insertion order, which is the order a Python dict iterates in. */
    var order: seq<string>

    /** Every key is listed once in `order`, and every tool is stored under its own name. */
    ghost predicate Valid()
      reads this
    {
      && Distinct(order)
      && (forall n :: n in tools <==> n in order)
      && (forall n :: n in tools ==> tools[n].Name() == n)
    }

    /** `ToolRegistry(openai_api_key)`: apiKey says whether a key was passed in or found in the
        environment. Afterwards the thirteen tools are registered, one per `ToolName` member,
        in declaration order. */
    constructor(apiKey: bool)
      ensures Valid()
      ensures order == ListAll()
      ensures forall t: ToolName :: t.Value() in tools && tools[t.Value()] == ToolFor(t, apiKey)
    {
      tools := map[];
      order := [];
      new;
      RegisterTools(apiKey);
    }

    /** `_register_tools`: one `register` call per tool of `Registrations`, in its order. */
    method RegisterTools(apiKey: bool)
      requires tools == map[] && order == []
      modifies this
      ensures Valid()
      ensures order == ListAll()
      ensures forall t: ToolName :: t.Value() in tools && tools[t.Value()] == ToolFor(t, apiKey)
    {
      var all := Registrations(apiKey);
      for i := 0 to |all|
        invariant Holds(i, apiKey, tools, order)
        invariant Valid()
      {
        ghost var before, beforeOrder := tools, order;
        Register(all[i]);
        Advance(i, apiKey, all[i], before, beforeOrder, tools, order);
      }
      TableComplete(|all|, apiKey);
    }

    /** `register(tool)`: the entry under the tool's name is inserted or overwritten, and every
        other entry is left as it was. A new name goes to the end of the order; an
        overwritten one keeps its place. */
    method Register(tool: Tool)
      requires Valid()
      modifies this
      ensures Valid()
      ensures tools == old(tools)[tool.Name() := tool]
      ensures order == if tool.Name() in old(tools) then old(order) else old(order) + [tool.Name()]
    {
      if tool.Name() !in tools {
        order := order + [tool.Name()];
      }
      tools := tools[tool.Name() := tool];
    }

    /** `get_tool(name)`: the tool registered under name, or None. */
    function GetTool(name: string): (r: Option<Tool>)
      reads this
      ensures r.Some? <==> name in tools
      ensures r.Some? ==> r.value == tools[name]
    {
      if name in tools then Some(tools[name]) else None
    }

    /** `list_tools()`: the registered tools in registration order. */
    function ListTools(): (ts: seq<Tool>)
      reads this
      requires Valid()
      ensures |ts| == |order|
      ensures forall i :: 0 <= i < |order| ==> ts[i] == tools[order[i]] && ts[i].Name() == order[i]
    {
      seq(|order|, i requires 0 <= i < |order| && order[i] in tools reads this => tools[order[i]])
    }

    /** `execute_tool(name, **kwargs)`: an unknown name fails with the list of valid names, a
        valid name nothing is registered under fails as not found, and otherwise the outcome is
        exactly the tool's own, an exception it raises included. */
    function ExecuteTool(name: NameArg, args: Args, aiReply: ToolResult): (o: Outcome)
      reads this
      ensures !IsValid(Normalize(name)) ==> o == Returned(Fail(UnknownTool(Normalize(name))))
      ensures IsValid(Normalize(name)) && Normalize(name) !in tools ==>
        o == Returned(Fail(NotRegistered(Normalize(name))))
      ensures IsValid(Normalize(name)) && Normalize(name) in tools ==>
        o == Execute(tools[Normalize(name)], args, aiReply)
    {
      var n := Normalize(name);
      if !IsValid(n) then Returned(Fail(UnknownTool(n)))
      else
        match GetTool(n)
        case None => Returned(Fail(NotRegistered(n)))
        case Some(tool) => Execute(tool, args, aiReply)
    }

    /** In a registry as built, a member or its value reaches that member's tool, never the
        not-found branch. */
    lemma ExecuteMember(t: ToolName, apiKey: bool, args: Args, aiReply: ToolResult)
      requires forall u: ToolName :: u.Value() in tools && tools[u.Value()] == ToolFor(u, apiKey)
      ensures ExecuteTool(ByMember(t), args, aiReply) == Execute(ToolFor(t, apiKey), args, aiReply)
      ensures ExecuteTool(ByString(t.Value()), args, aiReply) == ExecuteTool(ByMember(t), args, aiReply)
    {
      FromValueRoundTrip(t);
    }
  }

  /** The tools `_register_tools` registers, in its order: the analyzers, the cleaners, then
      the AI-backed tools, which hold a client when an API key is at hand. The order is that
      of the `ToolName` declarations. */
  function Registrations(apiKey: bool): (ts: seq<Tool>)
    ensures |ts| == |Members|
    ensures forall i :: 0 <= i < |ts| ==> ts[i] == ToolFor(Members[i], apiKey)
  {
    [AIPhrasesAnalyzer, ClicheAnalyzer, PassiveVoiceAnalyzer, ReadabilityAnalyzer, RepetitionAnalyzer,
     RunOnSentenceAnalyzer,
     FillerWordsCleaner, HedgingCleaner, RedundancyCleaner, EmojiCleaner, WhitespaceCleaner,
     ContentAnalyzer(apiKey), ContentImprover(apiKey)]
  }

  /** The dict after the first k `register` calls of `_register_tools`. */
  ghost function TableUpTo(k: nat, apiKey: bool): map<string, Tool>
    requires k <= |Members|
  {
    if k == 0 then map[] else TableUpTo(k - 1, apiKey)[Members[k - 1].Value() := ToolFor(Members[k - 1], apiKey)]
  }

  /** The key order after the first k calls. */
  ghost function NamesUpTo(k: nat): seq<string>
    requires k <= |Members|
  {
    if k == 0 then [] else NamesUpTo(k - 1) + [Members[k - 1].Value()]
  }

  /** A dict and key order that are those of the first n `register` calls. */
  ghost predicate Holds(n: nat, apiKey: bool, tools: map<string, Tool>, order: seq<string>) {
    n <= |Members| && tools == TableUpTo(n, apiKey) && order == NamesUpTo(n)
  }

  /** One `register` call with the next tool extends the dict and order of the first n calls
      to those of the first n + 1. */
  lemma Advance(n: nat, apiKey: bool, tool: Tool, tools: map<string, Tool>, order: seq<string>,
                tools': map<string, Tool>, order': seq<string>)
    requires Holds(n, apiKey, tools, order)
    requires n < |Members| && tool == ToolFor(Members[n], apiKey)
    requires tools' == tools[tool.Name() := tool]
    requires order' == if tool.Name() in tools then order else order + [tool.Name()]
    ensures Holds(n + 1, apiKey, tools', order')
  {
    TableStep(n, apiKey, tool);
  }

  /** The keys after k calls are the first k names. */
  lemma {:induction false} TableKeys(k: nat, apiKey: bool)
    requires k <= |Members|
    ensures forall n :: n in TableUpTo(k, apiKey) <==> n in NamesUpTo(k)
  {
    if k > 0 {
      TableKeys(k - 1, apiKey);
    }
  }

  /** The first k names in order are the first k values `list_all()` returns. */
  lemma {:induction false} NamesArePrefix(k: nat)
    requires k <= |Members|
    ensures NamesUpTo(k) == ListAll()[..k]
  {
    if k > 0 {
      NamesArePrefix(k - 1);
      var names := ListAll();
      SliceStep(names, k - 1);
    }
  }

  /** The k-th call registers a name no earlier call used, so the dict gains an entry and
      the name goes to the end of the order. */
  lemma TableStep(k: nat, apiKey: bool, tool: Tool)
    requires k < |Members| && tool == ToolFor(Members[k], apiKey)
    ensures TableUpTo(k + 1, apiKey) == TableUpTo(k, apiKey)[tool.Name() := tool]
    ensures tool.Name() !in TableUpTo(k, apiKey)
    ensures NamesUpTo(k + 1) == NamesUpTo(k) + [tool.Name()]
  {
    TableKeys(k, apiKey);
    NamesArePrefix(k);
    NamesDistinct();
  }

  lemma SliceStep<T>(s: seq<T>, k: nat)
    requires k < |s|
    ensures s[..k + 1] == s[..k] + [s[k]]
  {
  }

  /** Distinct members have distinct values. */
  lemma ValueInjective(t: ToolName, u: ToolName)
    ensures t.Value() == u.Value() ==> t == u
  {
    FromValueRoundTrip(t);
    FromValueRoundTrip(u);
  }

  lemma MembersIndexed()
    ensures forall i :: 0 <= i < |Members| ==> Members[i].Index() == i
  {
  }

  /** `list_all()` names no tool twice. */
  lemma NamesDistinct()
    ensures Distinct(ListAll())
  {
    MembersIndexed();
    forall i, j | 0 <= i < j < |ListAll()| ensures ListAll()[i] != ListAll()[j] {
      ValueInjective(Members[i], Members[j]);
    }
  }

  /** After all thirteen calls every member's tool is stored under its value, the keys are
      the names `list_all()` returns, in its order, and each tool sits under its own name. */
  lemma TableComplete(k: nat, apiKey: bool)
    requires k == |Members|
    ensures forall t: ToolName :: t.Value() in TableUpTo(k, apiKey) && TableUpTo(k, apiKey)[t.Value()] == ToolFor(t, apiKey)
    ensures NamesUpTo(k) == ListAll() && Distinct(NamesUpTo(k))
    ensures forall n :: n in TableUpTo(k, apiKey) <==> n in NamesUpTo(k)
    ensures forall n :: n in TableUpTo(k, apiKey) ==> TableUpTo(k, apiKey)[n].Name() == n
  {
    NamesDistinct();
    TableKeys(k, apiKey);
    NamesArePrefix(k);
    assert ListAll()[..k] == ListAll();
    forall t: ToolName ensures t.Value() in TableUpTo(k, apiKey) && TableUpTo(k, apiKey)[t.Value()] == ToolFor(t, apiKey) {
      MembersComplete(t);
      TableAt(k, t.Index(), apiKey);
    }
    forall n | n in TableUpTo(k, apiKey) ensures TableUpTo(k, apiKey)[n].Name() == n {
      var i :| 0 <= i < k && ListAll()[i] == n;
      TableAt(k, i, apiKey);
    }
  }

  /** The name registered i-th maps to the i-th tool as long as it is not overwritten, which
      distinct names rule out. */
  lemma {:induction false} TableAt(k: nat, i: nat, apiKey: bool)
    requires i < k <= |Members|
    ensures Members[i].Value() in TableUpTo(k, apiKey)
    ensures TableUpTo(k, apiKey)[Members[i].Value()] == ToolFor(Members[i], apiKey)
  {
    var t, u := Members[i], Members[k - 1];
    assert TableUpTo(k, apiKey) == TableUpTo(k - 1, apiKey)[u.Value() := ToolFor(u, apiKey)];
    if i < k - 1 {
      MembersIndexed();
      assert t.Index() != u.Index();
      ValueInjective(t, u);
      TableAt(k - 1, i, apiKey);
    }
  }

  /** A string that is no `ToolName` value is refused whatever is registered; the message
      names every valid tool. */
  lemma UnknownNameRefused(r: ToolRegistry, name: string, args: Args, aiReply: ToolResult)
    requires name !in ListAll()
    ensures r.ExecuteTool(ByString(name), args, aiReply) == Returned(Fail(UnknownTool(name)))
    ensures forall t: ToolName :: t.Value() in ListAll()
  {
    IsValidIffListed(name);
    forall t: ToolName ensures t.Value() in ListAll() {
      MembersComplete(t);
      assert ListAll()[t.Index()] == t.Value();
    }
  }
}
