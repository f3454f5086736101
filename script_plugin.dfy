/**
 * Running one script plugin: the import of its module, the context built
 * around the call, the guard that turns a silent or failing entry point
 * into a false verdict, and the `run_result` bookkeeping in the namespace.
 */
module ScriptPlugins {
  import opened Values
  import opened Wrappers
  import opened PluginContexts

  /** The last `return_true` (success) or `return_false` call an entry point made. */
  datatype ReturnCall = ReturnCall(success: bool, args: seq<Value>, kwargs: map<string, Value>)

  /** What an entry point did to its context before it stopped: its last
      verdict call, if any, and the namespace variables it wrote. */
  datatype Effect = Effect(lastReturn: Option<ReturnCall>, writes: map<string, Value>)

  /** How an entry point stopped: by returning (`returnedNone` when the
      value it returned was None) or by raising an exception. */
  datatype Outcome =
    | Completed(returnedNone: bool, effect: Effect)
    | Raised(kind: string, message: string, effect: Effect)

  /** An entry point, given its positional and keyword arguments. */
  type EntryPoint = (seq<Value>, map<string, Value>) -> Outcome

  /** An imported script module and the entry point it defines under the
      plugin's name, if it defines one. */
  datatype ScriptModule = ScriptModule(entry: Option<EntryPoint>)

  /** The module after an import: a module already held is kept. */
  function Imported(held: Option<ScriptModule>, loaded: Option<ScriptModule>): Option<ScriptModule> {
    if held.None? then loaded else held
  }

  /** How calling the entry point ends; None when there is no module or no entry point. */
  function Invoke(m: Option<ScriptModule>, args: seq<Value>, kwargs: map<string, Value>): Option<Outcome> {
    if m.Some? && m.value.entry.Some? then Some(m.value.entry.value(args, kwargs)) else None
  }

  /** The `result` flag the run records: false exactly when the entry point
      raised, or returned None without giving a verdict. */
  predicate Succeeded(outcome: Option<Outcome>) {
    match outcome
    case None => true
    case Some(Completed(returnedNone, effect)) => !(returnedNone && effect.lastReturn.None?)
    case Some(Raised(_, _, _)) => false
  }

  /** The verdict the run hands back; None stands for no return object at all. */
  function FinalReturn(outcome: Option<Outcome>): Option<ReturnCall> {
    match outcome
    case None => None
    case Some(Completed(returnedNone, effect)) =>
      if effect.lastReturn.Some? then effect.lastReturn
      else if returnedNone then Some(ReturnCall(false, [], map[]))
      else None
    case Some(Raised(kind, message, _)) =>
      Some(ReturnCall(false, [], map["exception" := Fault(kind, message)]))
  }

  function Writes(outcome: Option<Outcome>): map<string, Value> {
    if outcome.Some? then outcome.value.effect.writes else map[]
  }

  /** The record kept for one plugin in `run_result`; the elapsed time is an abstract tick count. */
  function RunRecord(ok: bool, elapsed: nat): Value {
    Dict([("result", Bool(ok)), ("time", Int(elapsed))])
  }

  /** The namespace variables the entry point is given, before the caller's
      keyword arguments are laid over them: a `run_result` dictionary already
      in the namespace is updated in place, so the copy sees the fresh entry. */
  function Snapshot(vars: map<string, Value>, name: string): map<string, Value>
    requires "run_result" in vars ==> vars["run_result"].Dict?
  {
    if "run_result" in vars then
      vars["run_result" := Dict(Store(vars["run_result"].entries, name, Dict([("result", Bool(true))])))]
    else vars
  }

  /** The in-place update of `run_result` is invisible once the run stores its final value. */
  lemma SnapshotOverridden(vars: map<string, Value>, name: string, writes: map<string, Value>, last: Value)
    requires "run_result" in vars ==> vars["run_result"].Dict?
    ensures (Snapshot(vars, name) + writes)["run_result" := last] == vars + writes + map["run_result" := last]
  {
  }

  /** A run that records a failure always hands back a false verdict. */
  lemma FailureMeansFalseVerdict(outcome: Option<Outcome>)
    requires !Succeeded(outcome)
    ensures FinalReturn(outcome).Some? && !FinalReturn(outcome).value.success
  {
  }

  /** The `result` flag only tracks the guard: an entry point that gave a
      false verdict itself still counts as a successful run. */
  lemma ExplicitFalseIsNotAFailure(returnedNone: bool, args: seq<Value>, kwargs: map<string, Value>, writes: map<string, Value>)
    ensures var outcome := Some(Completed(returnedNone, Effect(Some(ReturnCall(false, args, kwargs)), writes)));
            Succeeded(outcome) && FinalReturn(outcome) == Some(ReturnCall(false, args, kwargs))
  {
  }

  /** Without a module or an entry point nothing runs: the flag stays true and no return object is handed back. */
  lemma NothingToRun(m: Option<ScriptModule>, args: seq<Value>, kwargs: map<string, Value>)
    requires m.None? || m.value.entry.None?
    ensures Succeeded(Invoke(m, args, kwargs)) && FinalReturn(Invoke(m, args, kwargs)).None?
  {
  }

  /** Carries out what the entry point did, then the wrapper's guard:
      a raise, or a None return without a verdict, becomes a false verdict. */
  method Dispatch(ctx: PluginContext, outcome: Option<Outcome>) returns (ok: bool)
    requires ctx.GetReturn(None, None) == null
    modifies ctx.ret, ctx.namespace`variables, ctx.namespace`recorded
    ensures ok == Succeeded(outcome)
    ensures ctx.namespace.variables == old(ctx.namespace.variables) + Writes(outcome)
    ensures FinalReturn(outcome).None? ==> ctx.namespace.recorded == old(ctx.namespace.recorded)
    ensures FinalReturn(outcome).Some? ==>
              ctx.namespace.recorded == old(ctx.namespace.recorded)[ctx.pluginName := ctx.ret] &&
              ctx.ret.value == Bool(FinalReturn(outcome).value.success) &&
              ctx.ret.args == FinalReturn(outcome).value.args &&
              ctx.ret.kwargs == FinalReturn(outcome).value.kwargs
  {
    ok := true;
    if outcome.Some? {
      var effect := outcome.value.effect;
      ctx.namespace.Update(effect.writes);
      if effect.lastReturn.Some? {
        var call := effect.lastReturn.value;
        if call.success {
          ctx.ReturnTrue(call.args, call.kwargs);
        } else {
          ctx.ReturnFalse(call.args, call.kwargs);
        }
      }
      match outcome.value
      case Completed(returnedNone, _) =>
        if returnedNone && ctx.GetReturn(None, None) == null {
          ok := false;
          ctx.ReturnFalse([], map[]);
        }
      case Raised(kind, message, _) =>
        ok := false;
        ctx.ReturnFalse([], map["exception" := Fault(kind, message)]);
    }
  }

  class ScriptPlugin {
    /** The plugin's name, which is also the name of its entry point. */
    const name: string
    var script: Option<ScriptModule>
    var context: PluginContext?

    constructor (name: string)
      ensures this.name == name && script.None? && context == null
    {
      this.name := name;
      script := None;
      context := null;
    }

    /** How the entry point ends when the run starts from namespace variables `vars`. */
    function RunOutcome(vars: map<string, Value>, args: seq<Value>, kwargs: map<string, Value>): Option<Outcome>
      reads this
      requires "run_result" in vars ==> vars["run_result"].Dict?
    {
      Invoke(script, args, Snapshot(vars, name) + kwargs)
    }

    /** The `run_result` dictionary the run leaves in the namespace. */
    function FinalRunResult(vars: map<string, Value>, args: seq<Value>, kwargs: map<string, Value>, elapsed: nat): Value
      reads this
      requires "run_result" in vars ==> vars["run_result"].Dict?
    {
      var entries := if "run_result" in vars then vars["run_result"].entries else [];
      Dict(Store(entries, name, RunRecord(Succeeded(RunOutcome(vars, args, kwargs)), elapsed)))
    }

    /** Loads the module unless one is already held. */
    method Import(loaded: Option<ScriptModule>)
      modifies this`script
      ensures script == Imported(old(script), loaded)
    {
      if script.None? {
        script := loaded;
      }
    }

    /** Imports the module, builds a fresh context and clears the plugin's recorded return. */
    method BeforeDo(namespace: Namespace, namespaces: map<string, Namespace>, devMode: bool, loaded: Option<ScriptModule>)
      modifies this`script, this`context, namespace`recorded
      ensures script == Imported(old(script), loaded)
      ensures context != null && fresh(context) && fresh(context.ret)
      ensures context.pluginName == name && context.namespace == namespace
      ensures context.namespaces == namespaces && context.devMode == devMode
      ensures context.ret.value == Bool(false) && context.ret.args == [] && context.ret.kwargs == map[]
      ensures namespace.recorded == old(namespace.recorded)[name := null]
    {
      Import(loaded);
      context := new PluginContext(name, namespace, namespaces, devMode);
      namespace.SetReturn(name, null);
    }

    /** Drops the context; the module stays loaded. */
    method AfterDo()
      modifies this`context
      ensures context == null
    {
      context := null;
    }

    /** The run up to the call: `BeforeDo`, then the fresh `run_result`
        entry, written through to the namespace when the dictionary lives there. */
    method Prepare(namespace: Namespace, namespaces: map<string, Namespace>, devMode: bool, loaded: Option<ScriptModule>)
      returns (ctx: PluginContext, runResult: Value)
      modifies this`script, this`context, namespace`variables, namespace`recorded
      ensures script == Imported(old(script), loaded)
      ensures context == ctx && fresh(ctx) && fresh(ctx.ret)
      ensures ctx.pluginName == name && ctx.namespace == namespace
      ensures ctx.namespaces == namespaces && ctx.devMode == devMode
      ensures ctx.ret.value == Bool(false) && ctx.ret.args == [] && ctx.ret.kwargs == map[]
      ensures namespace.recorded == old(namespace.recorded)[name := null]
      ensures runResult == old(namespace.GetVariable("run_result", Dict([])))
      ensures runResult.Dict? ==> namespace.variables == Snapshot(old(namespace.variables), name)
      ensures !runResult.Dict? ==> namespace.variables == old(namespace.variables)
    {
      BeforeDo(namespace, namespaces, devMode, loaded);
      ctx := context;
      runResult := ctx.GetVariable("run_result", None, Dict([]));
      if runResult.Dict? && "run_result" in namespace.variables {
        var entries := Store(runResult.entries, name, Dict([("result", Bool(true))]));
        ctx.SetVariable("run_result", Dict(entries));
      }
    }

    /** The run after the call: the final `run_result`, the return handed back, `AfterDo`. */
    method Finish(ctx: PluginContext, runResult: Value) returns (ret: PluginReturn?)
      modifies this`context, ctx.namespace`variables
      ensures context == null
      ensures ctx.namespace.variables == old(ctx.namespace.variables)["run_result" := runResult]
      ensures ret == ctx.GetReturn(None, None)
    {
      ctx.SetVariable("run_result", runResult);
      ret := ctx.GetReturn(None, None);
      AfterDo();
    }

    /** One complete run. `crashed` reports the one failure the wrapper does
        not catch: a `run_result` variable that is not a dictionary. */
    method Run(namespace: Namespace, namespaces: map<string, Namespace>, devMode: bool,
               args: seq<Value>, kwargs: map<string, Value>, loaded: Option<ScriptModule>, elapsed: nat)
      returns (ret: PluginReturn?, crashed: bool)
      modifies this`script, this`context, namespace`variables, namespace`recorded
      ensures script == Imported(old(script), loaded)
      ensures var runResult := old(namespace.GetVariable("run_result", Dict([])));
              crashed <==> !runResult.Dict?
      ensures crashed ==>
                ret == null && context != null &&
                namespace.variables == old(namespace.variables) &&
                namespace.recorded == old(namespace.recorded)[name := null]
      ensures !crashed ==> context == null
      ensures !crashed ==>
                namespace.variables ==
                  old(namespace.variables) + Writes(RunOutcome(old(namespace.variables), args, kwargs))
                  + map["run_result" := FinalRunResult(old(namespace.variables), args, kwargs, elapsed)]
      ensures !crashed ==> namespace.recorded == old(namespace.recorded)[name := ret]
      ensures !crashed && FinalReturn(RunOutcome(old(namespace.variables), args, kwargs)).None? ==> ret == null
      ensures !crashed && FinalReturn(RunOutcome(old(namespace.variables), args, kwargs)).Some? ==>
                var verdict := FinalReturn(RunOutcome(old(namespace.variables), args, kwargs)).value;
                ret != null && fresh(ret) && ret.value == Bool(verdict.success) &&
                ret.args == verdict.args && ret.kwargs == verdict.kwargs
    {
      ghost var vars0 := namespace.variables;
      ghost var recorded0 := namespace.recorded;
      var ctx, runResult := Prepare(namespace, namespaces, devMode, loaded);
      if !runResult.Dict? {
        crashed := true;
        ret := null;
        return;
      }
      crashed := false;
      var outcome := Invoke(script, args, namespace.variables + kwargs);
      var ok := Dispatch(ctx, outcome);
      var entries := Store(runResult.entries, name, Dict([("result", Bool(true))]));
      StoreTwice(runResult.entries, name, Dict([("result", Bool(true))]), RunRecord(ok, elapsed));
      entries := Store(entries, name, RunRecord(ok, elapsed));
      ret := Finish(ctx, Dict(entries));
      SnapshotOverridden(vars0, name, Writes(outcome), Dict(entries));
      assert namespace.recorded == recorded0[name := ret];
    }
  }
}
