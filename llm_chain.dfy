/** The LLM chain node: how `runPrediction` resolves the prompt template's
    variables against the fixed prompt values and the user's question, and
    which request it then makes of the chain library. */
module LLMChainNode {
  import opened Js
  import opened JsStrings
  import opened Execution

  /** The one request `runPrediction` makes of the chain. */
  datatype Invocation =
    | RunWithInput(input: string, callbacks: seq<Handler>)              // chain.run(input, callbacks)
    | CallWithValues(values: map<string, Value>, callbacks: seq<Handler>)  // chain.call(values, callbacks)

  /** The library's chain object, reduced to its two entry points; `callText`
      stands for `(await chain.call(values, callbacks))?.text`. */
  datatype Chain = Chain(
    run: (string, seq<Handler>) -> string,
    callText: (map<string, Value>, seq<Handler>) -> Value)

  /** What the node's `init` returns, by the selected output. */
  datatype NodeOutput =
    | ChainInstance                                  // the chain object itself
    | Prediction(result: Result<Value, Exception>)   // the awaited prediction
    | NoOutput                                       // `undefined`

  const MissingValues := "Please provide Prompt Values"
  const MissingValuesFor := "Please provide Prompt Values for: "

  /** `promptValues[x]` is truthy; a missing key reads as `undefined`. */
  predicate IsBound(promptValues: map<string, Value>, x: string)
  {
    x in promptValues && Truthy(promptValues[x])
  }

  /** The streaming transport and client id `runPrediction` hands to a
      streaming handler: the options' own when streaming, otherwise
      `undefined` and ''. */
  function StreamTarget(o: ExecOptions): (target: (Value, Value))
    ensures IsStreaming(o) ==> target == (o.socketIO, o.socketIOClientId)
    ensures !IsStreaming(o) ==> target == (Undefined, Str(""))
  {
    if IsStreaming(o) then (o.socketIO, o.socketIOClientId) else (Undefined, Str(""))
  }

  /** The handler list of a prediction, built from the stream target. */
  function PredictionCallbacks(o: ExecOptions): (cbs: seq<Handler>)
    ensures cbs == Callbacks(o)
  {
    var (socketIO, clientId) := StreamTarget(o);
    [ConsoleLogger(o.logger)] + (if IsStreaming(o) then [StreamingHandler(socketIO, clientId)] else [])
  }

  /** `seen` after the loop: the declared variables without a truthy prompt
      value, in declaration order, repeats included. */
  function Unbound(vars: seq<string>, promptValues: map<string, Value>): (seen: seq<string>)
    ensures |seen| <= |vars|
  {
    if vars == [] then []
    else
      var last := vars[|vars| - 1];
      Unbound(vars[..|vars| - 1], promptValues) + (if IsBound(promptValues, last) then [] else [last])
  }

  /** The decision `runPrediction` takes before it calls the chain. */
  function Resolve(vars: seq<string>, input: string, promptValues: map<string, Value>, o: ExecOptions)
    : (r: Result<Invocation, Exception>)
    ensures r.Ok? ==> r.value.callbacks == Callbacks(o)
    ensures r.Ok? && r.value.RunWithInput? <==> |vars| <= 1
    ensures r.Ok? && r.value.RunWithInput? ==> r.value.input == input
    ensures r.Err? <==> |vars| > 1 && (|Unbound(vars, promptValues)| >= 2 || Unbound(vars, promptValues) == [""])
    ensures r.Err? ==> r.error.name == "Error"
  {
    var cbs := PredictionCallbacks(o);
    if |vars| == 1 then Ok(RunWithInput(input, cbs))
    else if |vars| > 1 then
      var seen := Unbound(vars, promptValues);
      if |seen| == 0 then Ok(CallWithValues(promptValues, cbs))
      else if |seen| == 1 then
        if seen[0] == "" then Err(ErrorOf(MissingValues))
        else Ok(CallWithValues(promptValues[seen[0] := Str(input)], cbs))
      else Err(ErrorOf(MissingValuesFor + Join(seen, ", ")))
    else Ok(RunWithInput(input, cbs))
  }

  /** The awaited result of a request: `res` of `run`, `res?.text` of `call`. */
  function Perform(inv: Invocation, chain: Chain): Value
  {
    match inv
    case RunWithInput(input, cbs) => Str(chain.run(input, cbs))
    case CallWithValues(values, cbs) => chain.callText(values, cbs)
  }

  /** A resolved request is performed; an error is thrown before any call. */
  function Outcome(decision: Result<Invocation, Exception>, chain: Chain): (r: Result<Value, Exception>)
    ensures r.Err? <==> decision.Err?
    ensures decision.Err? ==> r.error == decision.error
    ensures decision.Ok? ==> r.value == Perform(decision.value, chain)
  {
    match decision
    case Ok(inv) => Ok(Perform(inv, chain))
    case Err(e) => Err(e)
  }

  /** The loop of `runPrediction` that builds `seen`: push every variable,
      pop it again when it has a prompt value. */
  method CollectUnbound(inputVariables: seq<string>, promptValues: map<string, Value>)
    returns (seen: seq<string>)
    ensures seen == Unbound(inputVariables, promptValues)
  {
    seen := [];
    var i := 0;
    while i < |inputVariables|
      invariant 0 <= i <= |inputVariables|
      invariant seen == Unbound(inputVariables[..i], promptValues)
    {
      var variable := inputVariables[i];
      seen := seen + [variable];
      if IsBound(promptValues, variable) {
        seen := seen[..|seen| - 1];
      }
      assert inputVariables[..i + 1][..i] == inputVariables[..i];
      i := i + 1;
    }
    assert inputVariables[..i] == inputVariables;
  }

  /** `runPrediction`: resolve the variables, then make exactly one request
      of the chain, or throw without making any. */
  method RunPrediction(inputVariables: seq<string>, chain: Chain, input: string,
                       promptValues: map<string, Value>, options: ExecOptions)
    returns (r: Result<Value, Exception>)
    ensures r == Outcome(Resolve(inputVariables, input, promptValues, options), chain)
  {
    var callbacks := PredictionCallbacks(options);
    if |inputVariables| == 1 {
      r := Ok(Str(chain.run(input, callbacks)));
    } else if |inputVariables| > 1 {
      var seen := CollectUnbound(inputVariables, promptValues);
      if |seen| == 0 {
        r := Ok(chain.callText(promptValues, callbacks));
      } else if |seen| == 1 {
        var lastValue := seen[|seen| - 1];
        seen := seen[..|seen| - 1];
        if lastValue == "" {
          r := Err(ErrorOf(MissingValues));
        } else {
          r := Ok(chain.callText(promptValues[lastValue := Str(input)], callbacks));
        }
      } else {
        r := Err(ErrorOf(MissingValuesFor + Join(seen, ", ")));
      }
    } else {
      r := Ok(Str(chain.run(input, callbacks)));
    }
  }

  /** `init`: the chain itself for output 'llmChain', the prediction for
      'outputPrediction', and `undefined` for any other output name. */
  method Init(output: string, chain: Chain, inputVariables: seq<string>, input: string,
              promptValues: map<string, Value>, options: ExecOptions)
    returns (out: NodeOutput)
    ensures output == "llmChain" ==> out == ChainInstance
    ensures output == "outputPrediction" ==>
      out == Prediction(Outcome(Resolve(inputVariables, input, promptValues, options), chain))
    ensures output != "llmChain" && output != "outputPrediction" ==> out == NoOutput
  {
    if output == "llmChain" {
      out := ChainInstance;
    } else if output == "outputPrediction" {
      var res := RunPrediction(inputVariables, chain, input, promptValues, options);
      out := Prediction(res);
    } else {
      out := NoOutput;
    }
  }

  // ---------------------------------------------------------------------------
  // Properties of the resolution
  // ---------------------------------------------------------------------------

  /** A variable is unbound exactly when it is declared and has no truthy value. */
  lemma {:induction false} UnboundMembers(vars: seq<string>, promptValues: map<string, Value>, x: string)
    ensures x in Unbound(vars, promptValues) <==> x in vars && !IsBound(promptValues, x)
  {
    if vars != [] {
      var init := vars[..|vars| - 1];
      UnboundMembers(init, promptValues, x);
      assert vars == init + [vars[|vars| - 1]];
    }
  }

  /** `seen` keeps declaration order: the variables of a longer list are
      collected after those of its prefix. */
  lemma {:induction false} UnboundAppend(a: seq<string>, b: seq<string>, promptValues: map<string, Value>)
    ensures Unbound(a + b, promptValues) == Unbound(a, promptValues) + Unbound(b, promptValues)
  {
    if b == [] {
      assert a + b == a;
    } else {
      var init := b[..|b| - 1];
      UnboundAppend(a, init, promptValues);
      assert (a + b)[..|a + b| - 1] == a + init;
    }
  }

  lemma UnboundEmptyIffAllBound(vars: seq<string>, promptValues: map<string, Value>)
    ensures Unbound(vars, promptValues) == [] <==> forall x :: x in vars ==> IsBound(promptValues, x)
  {
    if Unbound(vars, promptValues) != [] {
      UnboundMembers(vars, promptValues, Unbound(vars, promptValues)[0]);
    } else {
      forall x | x in vars
        ensures IsBound(promptValues, x)
      {
        UnboundMembers(vars, promptValues, x);
      }
    }
  }

  /** With a single declared variable the question is passed as it is,
      whatever the prompt values hold. */
  lemma OneVariableRunsWithInput(vars: seq<string>, input: string, promptValues: map<string, Value>, o: ExecOptions)
    requires |vars| == 1
    ensures Resolve(vars, input, promptValues, o) == Ok(RunWithInput(input, Callbacks(o)))
  {
  }

  /** With no declared variable the question is passed as it is. */
  lemma NoVariableRunsWithInput(input: string, promptValues: map<string, Value>, o: ExecOptions)
    ensures Resolve([], input, promptValues, o) == Ok(RunWithInput(input, Callbacks(o)))
  {
  }

  /** When every declared variable has a value, the chain is called with the
      prompt values alone and the question is discarded. */
  lemma AllBoundDiscardsInput(vars: seq<string>, input: string, promptValues: map<string, Value>, o: ExecOptions)
    requires |vars| > 1
    requires forall x :: x in vars ==> IsBound(promptValues, x)
    ensures Resolve(vars, input, promptValues, o) == Ok(CallWithValues(promptValues, Callbacks(o)))
  {
    UnboundEmptyIffAllBound(vars, promptValues);
  }

  /** When exactly one declared variable lacks a value, the question is bound
      to it on top of the prompt values, and every declared variable then
      has an entry in the call. */
  lemma OneUnboundTakesInput(vars: seq<string>, k: nat, input: string, promptValues: map<string, Value>, o: ExecOptions)
    requires |vars| > 1 && k < |vars| && vars[k] != ""
    requires !IsBound(promptValues, vars[k])
    requires forall j :: 0 <= j < |vars| && j != k ==> IsBound(promptValues, vars[j])
    ensures Resolve(vars, input, promptValues, o)
         == Ok(CallWithValues(promptValues[vars[k] := Str(input)], Callbacks(o)))
    ensures forall x :: x in vars ==> x in promptValues[vars[k] := Str(input)]
  {
    OnlyUnbound(vars, k, promptValues);
    forall x | x in vars
      ensures x in promptValues[vars[k] := Str(input)]
    {
      var j :| 0 <= j < |vars| && vars[j] == x;
      if j != k {
        assert IsBound(promptValues, vars[j]);
      }
    }
  }

  /** When every variable but `vars[k]` has a value, `seen` is `[vars[k]]`. */
  lemma OnlyUnbound(vars: seq<string>, k: nat, promptValues: map<string, Value>)
    requires k < |vars| && !IsBound(promptValues, vars[k])
    requires forall j :: 0 <= j < |vars| && j != k ==> IsBound(promptValues, vars[j])
    ensures Unbound(vars, promptValues) == [vars[k]]
  {
    var before, after := vars[..k], vars[k + 1..];
    assert vars == before + [vars[k]] + after;
    forall x | x in before
      ensures IsBound(promptValues, x)
    {
      var j :| 0 <= j < |before| && before[j] == x;
      assert vars[j] == x;
    }
    forall x | x in after
      ensures IsBound(promptValues, x)
    {
      var j :| 0 <= j < |after| && after[j] == x;
      assert vars[k + 1 + j] == x;
    }
    UnboundEmptyIffAllBound(before, promptValues);
    UnboundEmptyIffAllBound(after, promptValues);
    UnboundAppend(before, [vars[k]], promptValues);
    UnboundAppend(before + [vars[k]], after, promptValues);
    assert Unbound([vars[k]], promptValues) == [vars[k]] by {
      assert [vars[k]][..0] == [];
    }
  }

  /** Two or more unbound variables: the error names them all, joined by
      ", " in declaration order, and the chain is never called. */
  lemma ManyUnboundFails(vars: seq<string>, input: string, promptValues: map<string, Value>, o: ExecOptions)
    requires |Unbound(vars, promptValues)| >= 2
    ensures Resolve(vars, input, promptValues, o)
         == Err(ErrorOf(MissingValuesFor + Join(Unbound(vars, promptValues), ", ")))
  {
  }

  /** The four worked cases: one variable, one missing value, none missing,
      two missing. */
  lemma Examples(o: ExecOptions)
    ensures Resolve(["a"], "hello", map[], o) == Ok(RunWithInput("hello", Callbacks(o)))
    ensures Resolve(["a", "b"], "q", map["a" := Str("x")], o)
         == Ok(CallWithValues(map["a" := Str("x"), "b" := Str("q")], Callbacks(o)))
    ensures Resolve(["a", "b"], "q", map["a" := Str("x"), "b" := Str("y")], o)
         == Ok(CallWithValues(map["a" := Str("x"), "b" := Str("y")], Callbacks(o)))
    ensures Resolve(["a", "b", "c"], "q", map["a" := Str("x")], o)
         == Err(ErrorOf("Please provide Prompt Values for: b, c"))
  {
    var pv := map["a" := Str("x")];
    assert ["a", "b"][..1] == ["a"] && ["a"][..0] == [];
    assert Unbound(["a", "b"], pv) == ["b"];
    assert ["a", "b", "c"][..2] == ["a", "b"];
    assert Unbound(["a", "b", "c"], pv) == ["b", "c"];
    var both := map["a" := Str("x"), "b" := Str("y")];
    assert Unbound(["a", "b"], both) == [];
    assert Join(["b", "c"], ", ") == "b, c" by {
      assert ["b", "c"][1..] == ["c"];
    }
    assert MissingValuesFor + "b, c" == "Please provide Prompt Values for: b, c";
  }
}
