/**
 * The state a plugin run sees: per-namespace variables and recorded returns,
 * the return object each plugin fills in, and the context that ties a
 * plugin to its namespace.
 */
module PluginContexts {
  import opened Values
  import opened Wrappers

  /** What a plugin hands back: a value whose truthiness is the verdict,
      plus positional and keyword results. */
  class PluginReturn {
    var value: Value
    var args: seq<Value>
    var kwargs: map<string, Value>

    constructor (value: Value, args: seq<Value>, kwargs: map<string, Value>)
      ensures this.value == value && this.args == args && this.kwargs == kwargs
    {
      this.value := value;
      this.args := args;
      this.kwargs := kwargs;
    }

    /** `PluginReturn()`: a false verdict with no results. */
    constructor Empty()
      ensures !IsTrue()
      ensures value == Bool(false) && args == [] && kwargs == map[]
    {
      value := Bool(false);
      args := [];
      kwargs := map[];
    }

    predicate IsTrue()
      reads this
    {
      Truthy(value)
    }

    /** A keyword result, or `default` when the plugin did not report it. */
    function GetReturn(key: string, default: Value): (r: Value)
      reads this
      ensures key in kwargs ==> r == kwargs[key]
      ensures key !in kwargs ==> r == default
    {
      if key in kwargs then kwargs[key] else default
    }

    method SetArgs(args: seq<Value>)
      modifies this
      ensures this.args == args
      ensures value == old(value) && kwargs == old(kwargs)
    {
      this.args := args;
    }

    method SetKwargs(kwargs: map<string, Value>)
      modifies this
      ensures this.kwargs == kwargs
      ensures value == old(value) && args == old(args)
    {
      this.kwargs := kwargs;
    }

    method SetReturn(value: Value)
      modifies this
      ensures this.value == value
      ensures args == old(args) && kwargs == old(kwargs)
    {
      this.value := value;
    }

    /** Replaces the whole return: a true verdict with the given results. */
    method ReturnTrue(args: seq<Value>, kwargs: map<string, Value>)
      modifies this
      ensures IsTrue()
      ensures value == Bool(true) && this.args == args && this.kwargs == kwargs
    {
      SetReturn(Bool(true));
      SetArgs(args);
      SetKwargs(kwargs);
    }

    /** Replaces the whole return: a false verdict with the given results. */
    method ReturnFalse(args: seq<Value>, kwargs: map<string, Value>)
      modifies this
      ensures !IsTrue()
      ensures value == Bool(false) && this.args == args && this.kwargs == kwargs
    {
      SetReturn(Bool(false));
      SetArgs(args);
      SetKwargs(kwargs);
    }
  }

  /** A namespace of variables shared by the plugins of one component, and
      the return each plugin last recorded in it. */
  class Namespace {
    const spacename: string
    var variables: map<string, Value>
    var recorded: map<string, PluginReturn?>

    constructor (spacename: string)
      ensures this.spacename == spacename
      ensures variables == map[] && recorded == map[]
    {
      this.spacename := spacename;
      variables := map[];
      recorded := map[];
    }

    function GetVariable(name: string, default: Value): (r: Value)
      reads this
      ensures name in variables ==> r == variables[name]
      ensures name !in variables ==> r == default
    {
      if name in variables then variables[name] else default
    }

    method SetVariable(name: string, value: Value)
      modifies this`variables
      ensures variables == old(variables)[name := value]
      ensures GetVariable(name, PyNone) == value
    {
      variables := variables[name := value];
    }

    /** Several variable writes at once, as a plugin body makes them. */
    method Update(writes: map<string, Value>)
      modifies this`variables
      ensures variables == old(variables) + writes
    {
      variables := variables + writes;
    }

    /** The recorded return of `pluginName`; null when none was recorded
        or the slot was reset. */
    function GetReturn(pluginName: string): (r: PluginReturn?)
      reads this
      ensures r != null ==> pluginName in recorded && recorded[pluginName] == r
      ensures r == null ==> pluginName !in recorded || recorded[pluginName] == null
    {
      if pluginName in recorded then recorded[pluginName] else null
    }

    method SetReturn(pluginName: string, r: PluginReturn?)
      modifies this`recorded
      ensures recorded == old(recorded)[pluginName := r]
      ensures GetReturn(pluginName) == r
    {
      recorded := recorded[pluginName := r];
    }
  }

  /** The view one plugin run has of the deployment: its own namespace,
      every namespace by name, and its own return object. */
  class PluginContext {
    const pluginName: string
    const namespace: Namespace
    const namespaces: map<string, Namespace>
    const devMode: bool
    const ret: PluginReturn

    constructor (pluginName: string, namespace: Namespace, namespaces: map<string, Namespace>, devMode: bool)
      ensures this.pluginName == pluginName && this.namespace == namespace
      ensures this.namespaces == namespaces && this.devMode == devMode
      ensures fresh(ret)
      ensures ret.value == Bool(false) && ret.args == [] && ret.kwargs == map[]
    {
      this.pluginName := pluginName;
      this.namespace := namespace;
      this.namespaces := namespaces;
      this.devMode := devMode;
      ret := new PluginReturn.Empty();
    }

    /** The namespace a request names: another namespace by a non-empty
        name (null when there is none by that name), else the own one. */
    function Resolve(spacename: Option<string>): (ns: Namespace?)
      ensures spacename.None? || spacename == Some("") ==> ns == namespace
      ensures spacename.Some? && spacename.value != "" ==>
                (ns == null <==> spacename.value !in namespaces)
    {
      if spacename.Some? && spacename.value != "" then
        if spacename.value in namespaces then namespaces[spacename.value] else null
      else namespace
    }

    /** The return some plugin recorded, by default this plugin's own in its own namespace. */
    function GetReturn(pluginName: Option<string>, spacename: Option<string>): (r: PluginReturn?)
      reads namespace, namespaces.Values
      ensures Resolve(spacename) == null ==> r == null
      ensures Resolve(spacename) != null ==>
                r == Resolve(spacename).GetReturn(pluginName.GetOr(this.pluginName))
    {
      var ns := Resolve(spacename);
      if ns == null then null else ns.GetReturn(pluginName.GetOr(this.pluginName))
    }

    /** A variable of a namespace; a namespace that does not exist yields
        None even when a default is given. */
    function GetVariable(name: string, spacename: Option<string>, default: Value): (r: Value)
      reads namespace, namespaces.Values
      ensures Resolve(spacename) == null ==> r == PyNone
      ensures Resolve(spacename) != null ==> r == Resolve(spacename).GetVariable(name, default)
    {
      var ns := Resolve(spacename);
      if ns == null then PyNone else ns.GetVariable(name, default)
    }

    method SetVariable(name: string, value: Value)
      modifies namespace`variables
      ensures namespace.variables == old(namespace.variables)[name := value]
      ensures GetVariable(name, None, PyNone) == value
    {
      namespace.SetVariable(name, value);
    }

    /** Records a true verdict: the own return object is rewritten and
        becomes the return recorded for this plugin in its namespace. */
    method ReturnTrue(args: seq<Value>, kwargs: map<string, Value>)
      modifies ret, namespace`recorded
      ensures ret.value == Bool(true) && ret.args == args && ret.kwargs == kwargs
      ensures namespace.recorded == old(namespace.recorded)[pluginName := ret]
      ensures GetReturn(None, None) == ret
    {
      ret.ReturnTrue(args, kwargs);
      namespace.SetReturn(pluginName, ret);
    }

    /** Records a false verdict, as `ReturnTrue` does a true one. */
    method ReturnFalse(args: seq<Value>, kwargs: map<string, Value>)
      modifies ret, namespace`recorded
      ensures ret.value == Bool(false) && ret.args == args && ret.kwargs == kwargs
      ensures namespace.recorded == old(namespace.recorded)[pluginName := ret]
      ensures GetReturn(None, None) == ret
    {
      ret.ReturnFalse(args, kwargs);
      namespace.SetReturn(pluginName, ret);
    }
  }
}
