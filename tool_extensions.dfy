/** ToolExtensions.CreateAIToolsFromInstance: every public, non-static,
    declared-here, non-special method of the instance's type becomes a tool;
    a method tagged [Danger] is wrapped so that the agent must ask for
    approval before calling it. Reflection is an explicit method table. */
module ToolExtensions {
  import opened Common

  /** What reflection reports about one method of a type. */
  datatype MethodInfo = MethodInfo(
    name: string,
    isPublic: bool,
    isStatic: bool,
    declaredOnType: bool,
    isSpecialName: bool,
    hasDanger: bool)

  /** The object a tool is built from: the method table of its type. */
  datatype Instance = Instance(methods: seq<MethodInfo>)

  /** AIFunctionFactory.Create(method, instance), by method name. */
  datatype AIFunction = AIFunction(methodName: string)

  datatype AITool =
    | PlainFunction(fn: AIFunction)
    | ApprovalRequiredFunction(inner: AIFunction)

  /** The GetMethods(Public | Instance | DeclaredOnly) filter followed by
      `!IsSpecialName`. */
  predicate Selected(m: MethodInfo)
  {
    m.isPublic && !m.isStatic && m.declaredOnType && !m.isSpecialName
  }

  /** The tool made from one selected method. */
  function ToolFor(m: MethodInfo): (t: AITool)
    ensures t.ApprovalRequiredFunction? <==> m.hasDanger
    ensures t.PlainFunction? ==> t.fn == AIFunction(m.name)
    ensures t.ApprovalRequiredFunction? ==> t.inner == AIFunction(m.name)
  {
    var fn := AIFunction(m.name);
    if m.hasDanger then ApprovalRequiredFunction(fn) else PlainFunction(fn)
  }

  /** The selected methods, in enumeration order. */
  function SelectedMethods(methods: seq<MethodInfo>): seq<MethodInfo>
  {
    if |methods| == 0 then []
    else (if Selected(methods[0]) then [methods[0]] else []) + SelectedMethods(methods[1..])
  }

  /** The expected tool list: the tool of each selected method, in order. */
  function ExpectedTools(methods: seq<MethodInfo>): seq<AITool>
  {
    if |methods| == 0 then []
    else (if Selected(methods[0]) then [ToolFor(methods[0])] else []) + ExpectedTools(methods[1..])
  }

  /** The selection keeps exactly the selected methods of the table. */
  lemma {:induction false} SelectedMethodsExact(methods: seq<MethodInfo>)
    ensures forall i :: 0 <= i < |SelectedMethods(methods)| ==>
              Selected(SelectedMethods(methods)[i]) && SelectedMethods(methods)[i] in methods
    ensures forall m :: m in methods && Selected(m) ==> m in SelectedMethods(methods)
  {
    if |methods| > 0 {
      var rest := methods[1..];
      SelectedMethodsExact(rest);
      var head := if Selected(methods[0]) then [methods[0]] else [];
      assert SelectedMethods(methods) == head + SelectedMethods(rest);
      assert forall m :: m in rest ==> m in methods;
      assert forall m :: m in methods ==> m == methods[0] || m in rest;
    }
  }

  /** There is exactly one tool per selected method, in the same order. */
  lemma {:induction false} OneToolPerSelectedMethod(methods: seq<MethodInfo>)
    ensures |ExpectedTools(methods)| == |SelectedMethods(methods)|
    ensures forall i :: 0 <= i < |ExpectedTools(methods)| ==>
              ExpectedTools(methods)[i] == ToolFor(SelectedMethods(methods)[i])
  {
    if |methods| > 0 {
      OneToolPerSelectedMethod(methods[1..]);
    }
  }

  /** CreateAIToolsFromInstance: the loop that appends one tool per method. */
  method CreateAIToolsFromInstance(instance: Option<Instance>) returns (r: Result<seq<AITool>>)
    ensures instance.None? ==> r == Err(ArgumentNull("instance"))
    ensures instance.Some? ==> r == Ok(ExpectedTools(instance.value.methods))
  {
    if instance.None? {
      return Err(ArgumentNull("instance"));
    }
    var methods := instance.value.methods;
    var tools: seq<AITool> := [];
    var i := 0;
    assert methods[i..] == methods;
    while i < |methods|
      invariant 0 <= i <= |methods|
      invariant tools + ExpectedTools(methods[i..]) == ExpectedTools(methods)
    {
      var candidate := methods[i];
      ghost var before := tools;
      ghost var step := if Selected(candidate) then [ToolFor(candidate)] else [];
      assert methods[i..][1..] == methods[i + 1..];
      assert ExpectedTools(methods[i..]) == step + ExpectedTools(methods[i + 1..]);
      if Selected(candidate) {
        var fn := AIFunction(candidate.name);
        if candidate.hasDanger {
          tools := tools + [ApprovalRequiredFunction(fn)];
        } else {
          tools := tools + [PlainFunction(fn)];
        }
      }
      assert tools == before + step;
      assert before + (step + ExpectedTools(methods[i + 1..])) == tools + ExpectedTools(methods[i + 1..]);
      i := i + 1;
    }
    assert tools == tools + ExpectedTools(methods[i..]);
    return Ok(tools);
  }

  /** A selected method yields a tool, approval-wrapped exactly when it is
      tagged [Danger]: tagged methods are wrapped, never dropped. */
  lemma DangerousMethodsWrapped(methods: seq<MethodInfo>, m: MethodInfo)
    requires m in methods && Selected(m)
    ensures m.hasDanger ==> ApprovalRequiredFunction(AIFunction(m.name)) in ExpectedTools(methods)
    ensures !m.hasDanger ==> PlainFunction(AIFunction(m.name)) in ExpectedTools(methods)
  {
    SelectedMethodsExact(methods);
    OneToolPerSelectedMethod(methods);
    var selected := SelectedMethods(methods);
    var j :| 0 <= j < |selected| && selected[j] == m;
    assert ExpectedTools(methods)[j] == ToolFor(m);
  }

  /** Every approval-wrapped tool comes from a selected [Danger] method. */
  lemma ApprovalOnlyForDanger(methods: seq<MethodInfo>, i: nat)
    requires i < |ExpectedTools(methods)| && ExpectedTools(methods)[i].ApprovalRequiredFunction?
    ensures exists m :: m in methods && Selected(m) && m.hasDanger
                        && ExpectedTools(methods)[i].inner == AIFunction(m.name)
  {
    SelectedMethodsExact(methods);
    OneToolPerSelectedMethod(methods);
    var m := SelectedMethods(methods)[i];
    assert m in methods;
  }
}
