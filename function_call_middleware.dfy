/** FunctionCallMiddleware.OnFunctionCall: before a tool runs, write one
    log line naming the tool and its arguments, then hand the call on to the
    next stage unchanged. The console and the asynchronous pipeline are an
    explicit trace of effects; `next` is a parameter. */
module FunctionCallMiddleware {
  import opened Common

  /** One entry of the invocation's argument dictionary; `value` is the
      argument's string form, None for a null value. */
  datatype FunctionArgument = FunctionArgument(key: string, value: Option<string>)

  /** The part of FunctionInvocationContext the middleware reads. */
  datatype InvocationContext = InvocationContext(functionName: string, arguments: seq<FunctionArgument>)

  /** What the middleware does, in order. */
  datatype Effect<T> =
    | LogLine(text: string)
    | CallNext(context: InvocationContext, token: T)

  const ToolCallHead: string := "- Tool Call: '"
  const ArgsHead: string := " (Args: "

  /** `[key = value]`; a null value interpolates as "". */
  function ArgumentText(a: FunctionArgument): string
  {
    "[" + a.key + " = " + OrEmpty(a.value) + "]"
  }

  /** The Select projection over the arguments, in dictionary order. */
  function ArgumentTexts(args: seq<FunctionArgument>): (r: seq<string>)
    ensures |r| == |args|
    ensures forall i :: 0 <= i < |args| ==> r[i] == ArgumentText(args[i])
  {
    seq(|args|, i requires 0 <= i < |args| => ArgumentText(args[i]))
  }

  /** The line the middleware writes: the tool name, then the arguments
      when there are any. */
  function CallDetails(context: InvocationContext): string
  {
    ToolCallHead + context.functionName + NameEnd(context)
  }

  /** What follows the tool name: the closing quote and the argument list. */
  function NameEnd(context: InvocationContext): (r: string)
    ensures |r| > 0 && r[0] == '\''
  {
    if |context.arguments| > 0 then "'" + ArgsHead + Join(", ", ArgumentTexts(context.arguments)) + ")"
    else "'"
  }

  /** OnFunctionCall: build the line with a StringBuilder, write it, then call
      `next` with the same context and token and return its result. */
  method OnFunctionCall<T, R>(context: InvocationContext, next: (InvocationContext, T) -> R, cancellationToken: T)
    returns (effects: seq<Effect<T>>, r: R)
    ensures effects == [LogLine(CallDetails(context)), CallNext(context, cancellationToken)]
    ensures r == next(context, cancellationToken)
  {
    var functionCallDetails := ToolCallHead + context.functionName + "'";
    if |context.arguments| > 0 {
      functionCallDetails := functionCallDetails + ArgsHead + Join(", ", ArgumentTexts(context.arguments)) + ")";
    }
    assert functionCallDetails == CallDetails(context);
    effects := [LogLine(functionCallDetails)];
    effects := effects + [CallNext(context, cancellationToken)];
    r := next(context, cancellationToken);
  }

  /** The line always starts with the tool name in quotes. */
  lemma DetailsStartWithToolName(context: InvocationContext)
    ensures var head := ToolCallHead + context.functionName + "'";
            |head| <= |CallDetails(context)| && CallDetails(context)[..|head|] == head
  {
  }

  /** The argument list is appended exactly when there are arguments. */
  lemma ArgsSuffixIff(context: InvocationContext)
    ensures |context.arguments| == 0 <==> CallDetails(context) == ToolCallHead + context.functionName + "'"
  {
    if |context.arguments| > 0 {
      var head := ToolCallHead + context.functionName + "'";
      assert |CallDetails(context)| > |head|;
    }
  }

  /** Every argument is written as `[key = value]`. */
  lemma DetailsShowArgument(context: InvocationContext, k: nat)
    requires k < |context.arguments|
    ensures Contains(CallDetails(context), ArgumentText(context.arguments[k]))
  {
    var texts := ArgumentTexts(context.arguments);
    var joined := Join(", ", texts);
    JoinContainsPart(", ", texts, k);
    var head := ToolCallHead + context.functionName + "'" + ArgsHead;
    ContainsWithin(head, joined, ")", texts[k]);
    assert NameEnd(context) == "'" + ArgsHead + joined + ")";
    assert CallDetails(context) == head + joined + ")";
  }

  /** The characters of `head + name + rest` around the name. */
  lemma SplitAt(head: string, name: string, rest: string)
    requires |rest| > 0
    ensures (head + name + rest)[|head| + |name|] == rest[0]
    ensures forall k :: 0 <= k < |name| ==> (head + name + rest)[|head| + k] == name[k]
    ensures (head + name + rest)[|head|..|head| + |name|] == name
  {
  }

  lemma QuoteNotAt(name: string, k: int)
    requires 0 <= k < |name| && '\'' !in name
    ensures name[k] != '\''
  {
  }

  /** The line identifies the tool: for tool names without a quote, equal
      lines mean equal names. */
  lemma DetailsIdentifyTool(c1: InvocationContext, c2: InvocationContext)
    requires '\'' !in c1.functionName && '\'' !in c2.functionName
    requires CallDetails(c1) == CallDetails(c2)
    ensures c1.functionName == c2.functionName
  {
    var n1, n2 := c1.functionName, c2.functionName;
    SplitAt(ToolCallHead, n1, NameEnd(c1));
    SplitAt(ToolCallHead, n2, NameEnd(c2));
    if |n1| < |n2| {
      QuoteNotAt(n2, |n1|);
    } else if |n2| < |n1| {
      QuoteNotAt(n1, |n2|);
    }
  }
}
