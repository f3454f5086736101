# OceanBase Deploy (obd) plugin core, modelled in Dafny

This project models the logic at the core of OceanBase Deploy. That logic falls into seven areas:

- **Plugin machinery:**
  - how a component's plugin is chosen for a requested version;
  - how plugin loaders are cached per component;
  - the return object a plugin sets, and the namespaces where variables and returns are kept;
  - the wrapper that runs a Python script plugin and records `run_result`.
- **Typed configuration values:** the parameter types, their comparisons, and configuration items with their bounds and modify limits.
- **Variable substitution:** the `$name` substitution of install plugins.
- **The obagent 1.3.0 upgrade:**
  - renaming deprecated port keys;
  - merging the generated per-server settings into global ones;
  - submitting them to the cluster configuration;
  - the sequence of the stop, start, connect and display steps.
- **Error codes:** error-code templates and suggestion templates.
- **Takeover:** the base configuration that `create_takeover_base_config` builds from its options.
- **The web installer's pre-submit step:** `obVersionCheck` and `formatConfigData`.

There is one module per source area:

| file | module | models |
|---|---|---|
| plugin_context.dfy | PluginContexts | `PluginReturn`, `PluginContextNamespace`, `PluginContext` |
| script_plugin.dfy | ScriptPlugins | `ScriptPlugin` with `before_do`/`after_do`, and the `pyScriptPluginExec` wrapper |
| plugin_loader.dfy | PluginLoaders | `ComponentPluginLoader`, `PyScriptPluginLoader` and `PluginManager` |
| param_types.dfy | ParamTypes | the `ConfigItemType` subclasses and their comparisons |
| config_item.dfy | ConfigItems | `ConfigItem`: construction, `check_value`, the modify limits |
| install_vars.dfy | InstallPlugins | `InstallPlugin.var_replace` |
| obagent_merge.dfy | ObagentMerge | the bucketing merge of the upgrade's generated settings |
| obagent_upgrade.dfy | ObagentUpgrade | the port renaming, `summit_config` and `upgrade` |
| errno.dfy | Errno | `OBDErrorCode` and its template, suggestions, `CheckStatus` |
| takeover.dfy | Takeover | `create_takeover_base_config` |
| check_info.dfy | CheckInfo | `obVersionCheck` and `formatConfigData` |

Shared helper modules:

- **Wrappers:** `Option` and `Result`.
- **Text:** characters, digits, `split`/`join`, strip, case.
- **Values:** Python runtime values. A dictionary is an ordered list of entries, because dict order shows in the takeover configuration.
- **Versions:** versions as sequences of naturals, compared lexicographically. The version type's own module is not part of this model.

How the model is written:

- Objects the source updates in place are classes with `modifies` clauses. Examples: returns, namespaces, contexts, loaders, the plugin manager and the cluster configuration.
- A loop in the source is a loop here. Each loop method is proved equal to a specification function, such as the plugin scan, `var_replace`, the port scan, the merge, the submission, the user-section loop and the parameter splice loop.
- The properties are stated as lemmas about those functions.

Behaviour worth knowing before reading the table:

- **Start plugins cannot be loaded.** `PluginType.START` names a class, `StartPlugin`, that `_plugin.py` does not define. So a loader for start plugins fails with `ImportError`, and `PluginManager.get_best_plugin` for that type fails the same way (`PluginLoaders.PluginManager.TypedLoader`).
- **The upgrade wraps the merge.** The obagent upgrade runs the generic merge (`ObagentMerge.MergeGenerateConfig`), starting from an empty global map, on the renamed ports.

## Model

| member | source | states |
|---|---|---|
| PluginContexts.PluginReturn.constructor | _plugin.py:100-103 | a return holds exactly the value, positional and keyword results it is built with |
| PluginContexts.PluginReturn.Empty | _plugin.py:100-110 | `PluginReturn()` is false, with no positional and no keyword results |
| PluginContexts.PluginReturn.GetReturn | _plugin.py:123-124 | the keyword result stored under the key, and the default when there is none |
| PluginContexts.PluginReturn.SetArgs | _plugin.py:126-127 | replaces the positional results and keeps the verdict and the keyword results |
| PluginContexts.PluginReturn.SetKwargs | _plugin.py:129-130 | replaces the keyword results and keeps the verdict and the positional results |
| PluginContexts.PluginReturn.SetReturn | _plugin.py:132-133 | replaces the verdict and keeps both kinds of results |
| PluginContexts.PluginReturn.ReturnTrue | _plugin.py:135-138 | the return becomes true and holds exactly the given results, nothing of the old ones |
| PluginContexts.PluginReturn.ReturnFalse | _plugin.py:140-143 | the return becomes false and holds exactly the given results |
| PluginContexts.Namespace.constructor | _plugin.py:73-76 | a new namespace has no variables and no recorded returns |
| PluginContexts.Namespace.GetVariable | _plugin.py:82-83 | the stored value of a set variable, and the default for an unset one |
| PluginContexts.Namespace.SetVariable | _plugin.py:85-86 | only the named variable changes, and reading it back gives the new value |
| PluginContexts.Namespace.Update | _plugin.py:85-86 | a batch of variable writes is laid over the old variables, the written names winning |
| PluginContexts.Namespace.GetReturn | _plugin.py:88-92 | a recorded return object; null when nothing, or None, is recorded under the plugin's name |
| PluginContexts.Namespace.SetReturn | _plugin.py:94-95 | only the plugin's slot changes, and looking it up gives what was stored |
| PluginContexts.PluginContext.constructor | _plugin.py:148-162 | a new context has its own return, which is false and empty |
| PluginContexts.PluginContext.Resolve | _plugin.py:164-168 | no namespace name, or an empty one, means the active namespace; a named namespace resolves to nothing exactly when it is not registered |
| PluginContexts.PluginContext.GetReturn | _plugin.py:164-171 | the return recorded in the resolved namespace under the given plugin name, or under the context's own name; null when the namespace is missing |
| PluginContexts.PluginContext.GetVariable | _plugin.py:181-186 | the variable from the resolved namespace; None (not the default) when the named namespace is missing |
| PluginContexts.PluginContext.SetVariable | _plugin.py:188-189 | writes to the active namespace only, and `get_variable` then gives the value |
| PluginContexts.PluginContext.ReturnTrue | _plugin.py:173-175 | the context's return becomes true with the given results, and that same object is recorded under the plugin's name, so `get_return()` gives it |
| PluginContexts.PluginContext.ReturnFalse | _plugin.py:177-179 | as `ReturnTrue`, with a false verdict |
| ScriptPlugins.Dispatch | _plugin.py:283-291 | the `result` flag is false exactly when the entry point raised an `Exception`, or returned None without setting a return. In both cases the recorded return is false, with kwargs `{exception: e}` when it raised. Otherwise the entry point's own last verdict stands. The entry point's variable writes are kept |
| ScriptPlugins.FailureMeansFalseVerdict | _plugin.py:284-290 | a run whose flag records a failure always hands back a false return |
| ScriptPlugins.ExplicitFalseIsNotAFailure | _plugin.py:284-287 | an entry point that calls `return_false` itself is not flagged as failed, and its return is kept as given |
| ScriptPlugins.NothingToRun | _plugin.py:278-281 | without a module or an entry point the flag stays true and no return object is handed back |
| ScriptPlugins.SnapshotOverridden | _plugin.py:274-292 | the preliminary `{'result': True}` entry, written into a `run_result` that lives in the namespace, is overwritten by the final `run_result` write |
| ScriptPlugins.ScriptPlugin.constructor | _plugin.py:228-230 | a new plugin holds no module and no context |
| ScriptPlugins.ScriptPlugin.Import | _plugin.py:331-334 | a module is imported only when none is held yet |
| ScriptPlugins.ScriptPlugin.BeforeDo | _plugin.py:244-258 | imports the module, builds a fresh context with a false, empty return, and resets the plugin's recorded return to None |
| ScriptPlugins.ScriptPlugin.AfterDo | _plugin.py:260-262 | drops the context |
| ScriptPlugins.ScriptPlugin.Prepare | _plugin.py:266-274 | `before_do`, then the fresh `run_result` entry; the namespace changes only when `run_result` already lives there |
| ScriptPlugins.ScriptPlugin.Finish | _plugin.py:292-295 | stores the final `run_result`, hands back the recorded return, drops the context |
| ScriptPlugins.ScriptPlugin.Run | _plugin.py:266-296 | One whole wrapped call: <br>• The entry point gets the namespace variables with the caller's kwargs laid over them. <br>• Afterwards the namespace holds the old variables, then the entry point's writes, then a `run_result` whose entry for the plugin is `{'result': flag, 'time': t}`. <br>• The recorded return is the one handed back, or none. <br>• A `run_result` that is not a dictionary crashes the call before anything runs |
| PluginLoaders.SplitOfJoin | _plugin.py:919-923 | splitting `<dir>/<name>` gives back the directory and the name |
| PluginLoaders.DescribeFlagPath | _plugin.py:919-924 | the plugin found at `<home>/<version dir>/<flag>` lives in the version directory and has that directory's version |
| PluginLoaders.FirstWithVersionSpec | _plugin.py:929-932 | the exact match taken is the first plugin with the requested version; there is none exactly when no plugin has that version |
| PluginLoaders.OlderMembers | _plugin.py:929-934 | the fallback list holds exactly the plugins strictly older than the request |
| PluginLoaders.NewestIsGreatest | _plugin.py:936 | the `max` taken over the candidates is at least as new as every candidate |
| PluginLoaders.NewestIsFirst | _plugin.py:936 | every candidate before the one `max` returns is strictly older (`max` keeps the first of equal maxima) |
| PluginLoaders.BestPluginSpec | _plugin.py:927-942 | The best plugin: <br>• It is one of the candidates and never newer than the request. <br>• An exact match wins. <br>• Otherwise it is a newest strictly older plugin. <br>• There is none exactly when every plugin is newer |
| PluginLoaders.BestPluginBetween | _plugin.py:927-942 | with versions 1.0, 2.0 and 3.0: the request 2.5 gets 2.0, the request 2.0 gets 2.0, and the request 0.9 gets nothing |
| PluginLoaders.ScanPlugins | _plugin.py:929-934 | the scan loop stops at the first exact match, or else has collected the strictly older plugins in order |
| PluginLoaders.NewestOf | _plugin.py:936 | the loop computes the `max` of the candidates |
| PluginLoaders.ComponentPluginLoader.constructor | _plugin.py:900-912 | the component name is the last part of the home path, and the plugin cache starts empty; it requires a kind that has a loadable class |
| PluginLoaders.ComponentPluginLoader.GetPlugins | _plugin.py:914-925 | one plugin for each discovered flag file; the cache only grows, and it gains an entry for every discovered path |
| PluginLoaders.ComponentPluginLoader.GetBestPlugin | _plugin.py:927-942 | the best plugin (as `BestPlugin`) among the discovered ones |
| PluginLoaders.PluginManager.constructor | _plugin.py:997-1006 | an empty loader table for every plugin type except the Python script type, and no script loaders |
| PluginLoaders.PluginManager.TypedLoader | _plugin.py:900-906 | A loader for one component: <br>• The cached loader is reused. <br>• A new one is created and cached only when there is none. <br>• Start plugins fail with `ImportError('StartPlugin')` and cache nothing |
| PluginLoaders.PluginManager.AddTypedLoader | _plugin.py:1012-1013 | a fresh loader is cached for the component under the type |
| PluginLoaders.PluginManager.GetBestPlugin | _plugin.py:1008-1015 | The best plugin of a given type: <br>• The Python script type gives None. <br>• Start plugins fail. <br>• Any other type uses the component's cached loader, created once, and gives the best plugin among those it discovers |
| PluginLoaders.PluginManager.ScriptTable | _plugin.py:1022-1023 | a script's loader table is created empty the first time and kept afterwards |
| PluginLoaders.PluginManager.AddScriptLoader | _plugin.py:1025-1026 | a fresh script loader is cached for the component under the script |
| PluginLoaders.PluginManager.ScriptLoader | _plugin.py:955-957 | the cached script loader is reused; an empty script name raises `NotImplementedError`; otherwise a new loader is cached |
| PluginLoaders.PluginManager.GetBestScriptPlugin | _plugin.py:1021-1028 | the best plugin of a named script for a component, through its cached loader |
| PluginLoaders.ScriptClassCollision | _plugin.py:958-962 | the script names `up_2` and `up2` get the same class name, so a loader for `up2` made after one for `up_2` looks for `up_2.py` |
| PluginLoaders.ScriptFlagFilesDistinct | _plugin.py:969 | different script names have different flag files |
| Versions.Trichotomy | _plugin.py:929-938 | the version order is total: exactly one of less, equal or greater |
| Versions.LessTransitive | _plugin.py:929-938 | the version order is transitive |
| ParamTypes.MatchClock | _plugin.py:435 | a match is one or two digits, a colon and one or two digits, with a final newline allowed as Python's `$` does |
| ParamTypes.MatchClockOf | _plugin.py:435 | every pair of one- or two-digit numbers written `H:M` matches with those groups |
| ParamTypes.ParseMoment | _plugin.py:430-443 | a moment keeps its raw value and is between 0 and 1440 minutes |
| ParamTypes.MomentOfHoursAndMinutes | _plugin.py:434-441 | `H:M` is `h*60+m` when h is at most 23 and m at most 60, and an error otherwise |
| ParamTypes.MomentInRange | _plugin.py:438-441 | the same range rule, for the matched groups |
| ParamTypes.MomentDisabled | _plugin.py:431-443 | `disable` (in any case) and the empty value are 0 |
| ParamTypes.TimeOfWord | _plugin.py:465-472 | a duration with a unit is a non-negative number of seconds, and it keeps its stripped text |
| ParamTypes.ParseTime | _plugin.py:457-472 | a duration is a non-negative number of seconds (the corrected reading of bare digits, see Findings) |
| ParamTypes.TimeOfUnit | _plugin.py:465-470 | `<n><unit>` in lower case is n times the unit's seconds for a unit of the table, and an error for any other unit |
| ParamTypes.DurationsCompareBySeconds | _plugin.py:402-425 | two durations are equal, or less, exactly as their seconds are |
| ParamTypes.NinetyMinutes | _plugin.py:447-470 | `90m` is 5400 seconds |
| ParamTypes.HourIsSixtyMinutes | _plugin.py:447-470 | `1h` equals `60m` |
| ParamTypes.ParseTimeAsWritten | _plugin.py:457-472 | `Time` exactly as the source writes it |
| ParamTypes.TimeBareDigits | _plugin.py:461-467 | bare digits are rejected as written, and mean seconds in the corrected reading |
| ParamTypes.MatchAmountLetter | _plugin.py:486 | a match is digits, one unit letter and an optional `B` |
| ParamTypes.CapacityOfWord | _plugin.py:486-492 | a size with a unit is a non-negative number of bytes |
| ParamTypes.ParseCapacity | _plugin.py:478-493 | a size is a non-negative number of bytes and keeps its stripped text |
| ParamTypes.CapacityOfUnit | _plugin.py:485-492 | `<n><X>` and `<n><X>B` are n times the unit of the letter X, and an error for a letter outside the table |
| ParamTypes.CapacityBareDigits | _plugin.py:482-484 | bare digits mean MiB |
| ParamTypes.CapacityTwoThousandMiB | _plugin.py:476-490 | `2048` is 2 GiB |
| ParamTypes.CapacitiesCompareByBytes | _plugin.py:402-425 | two sizes are equal, or less, exactly as their byte counts are |
| ParamTypes.ParseStringList | _plugin.py:497-502 | any value is accepted; a non-empty one is its stripped `str()` split at `;` |
| ParamTypes.StringListParts | _plugin.py:499-500 | joining the parts with `;` gives the stripped text back |
| ParamTypes.ParseDict | _plugin.py:506-512 | accepted exactly when empty or a dictionary; an empty value becomes `{}` |
| ParamTypes.ParseList | _plugin.py:516-522 | accepted exactly when empty or a list; an empty value becomes `[]` |
| ParamTypes.ParseStringOrKvList | _plugin.py:526-540 | accepted exactly when empty, or a list whose non-empty items are strings or one-key dictionaries |
| ParamTypes.ParseBoolean | _plugin.py:549-562 | a boolean compares as 1 or 0; digits are read as a number (the corrected reading, see Findings) |
| ParamTypes.BooleanOfDigits | _plugin.py:555-559 | a digit string is true exactly when its number is not 0 in the corrected reading, and always true as written |
| ParamTypes.ParseBooleanAsWritten | _plugin.py:549-562 | `Boolean` exactly as the source writes it |
| ParamTypes.BooleanZeroString | _plugin.py:558-559 | `'0'` is true as written, and false in the corrected reading |
| ParamTypes.ParseIntText | _plugin.py:571 | `int()` of a string accepts exactly surrounding blanks, a sign, and digits grouped by single underscores |
| ParamTypes.IntTextRoundTrip | _plugin.py:571 | `int(str(i)) == i` |
| ParamTypes.ParseInteger | _plugin.py:566-575 | an integer compares as its number; None becomes 0 |
| ParamTypes.IntegerOfInt | _plugin.py:566-575 | an integer value is kept as it is |
| ParamTypes.IntegerOfString | _plugin.py:569-573 | a string that `int()` reads becomes that integer |
| ParamTypes.IntegerOfText | _plugin.py:569-573 | the decimal text of an integer becomes that integer |
| ParamTypes.ParseString | _plugin.py:579-580 | always accepted: `str()` of a non-empty value, `''` otherwise |
| ParamTypes.Parse | _plugin.py:668-680 | a typed value built for a type has that type; `Time` and `Boolean` use their corrected readings (see Findings) |
| ParamTypes.CmpLess | _plugin.py:412-425 | two numbers and two strings always compare; lists compare as Python lists; a dictionary, or values of different sorts, raise `TypeError` |
| ParamTypes.OnePartListsCompare | _plugin.py:495-502 | two string lists of one part each are ordered as their parts |
| ParamTypes.OneWordLists | _plugin.py:412-425 | lists of one string each are ordered as the strings |
| ParamTypes.StringListPrefixLess | _plugin.py:495-502 | a string list is less than a longer one that continues it |
| Values.FirstDiff | _plugin.py:412-425 | the first position where two lists hold unequal items, or the shorter length when there is none |
| Values.PyLess | _plugin.py:412-425 | Python's `<` on the values a typed value is compared by: <br>• Numbers compare by value and strings by code point. <br>• Lists compare at their first unequal pair, and otherwise the shorter list is less. <br>• Anything else raises `TypeError` |
| Values.ListLessAtFirstDifference | _plugin.py:412-425 | two lists are ordered by their first pair of unequal items |
| Values.ListPrefixLess | _plugin.py:412-425 | a list is less than every longer list that starts with it, and not less than itself |
| Values.PyLessIrreflexive | _plugin.py:412-425 | nothing is less than itself |
| Values.PyEqReflexive | _plugin.py:634-637 | every value is `==` to itself |
| Values.DictOrderIgnored | _plugin.py:634-637 | two dictionaries with the same entries in another order are `==`, although they are different entry lists |
| ParamTypes.NoneComparisons | _plugin.py:402-425 | against None, `>` and `>=` are true, while `<`, `<=` and `==` are false |
| ParamTypes.NumberComparisons | _plugin.py:402-425 | numbers compare by value, and `a < b` is `b > a` |
| ConfigItems.Bound | _plugin.py:601-602 | a None bound stays absent; any other bound is typed, failing with the type's error |
| ConfigItems.NewConfigItem | _plugin.py:584-617 | Building an item: <br>• It fails exactly when a bound does not convert, with the min checked first. <br>• It keeps its settings. <br>• The local name defaults to the name, and the local description to the English one. <br>• The limit is chosen by name |
| ConfigItems.LimitByName | _plugin.py:603 | `modify`, `increase` and `decrease` in any case select their limit; any other name means no limit |
| ConfigItems.NoLimitByDefault | _plugin.py:603 | an item without a modify limit has none |
| ConfigItems.TypedAs | _plugin.py:619-623 | a conversion error is prefixed with the item's name |
| ConfigItems.CheckValue | _plugin.py:625-632 | a check never gives false; it fails with the conversion error when the value does not convert |
| ConfigItems.CheckValueWithinBounds | _plugin.py:625-632 | a numeric value passes exactly when it is at least the min and at most the max |
| ConfigItems.CheckValueMessages | _plugin.py:628-631 | below the min fails with `less then`, and above the max fails with `more then` |
| ConfigItems.CheckValueUnbounded | _plugin.py:625-632 | without bounds, a value passes exactly when it converts |
| ConfigItems.ModifyAllowed | _plugin.py:634-650 | A change check never gives false. <br>• No limit always passes. <br>• The `modify` limit passes exactly when the raw values are equal |
| ConfigItems.IncreaseLimit | _plugin.py:639-642 | the `increase` limit fails exactly when the new value is greater, with its message |
| ConfigItems.DecreaseLimit | _plugin.py:644-647 | the `decrease` limit fails exactly when the new value is smaller, with its message |
| ConfigItems.LimitParsesNewFirst | _plugin.py:639-647 | a new value that does not convert is reported first, prefixed with the item's name |
| ConfigItems.ModifyIgnoresDictOrder | _plugin.py:634-637 | the `modify` limit passes a dictionary whose entries are only reordered |
| ConfigItems.ModifyKeepsValue | _plugin.py:634-637 | the `modify` limit always allows keeping the old value |
| InstallPlugins.WordRun | _plugin.py:817 | the greedy `\w+` run of a reference |
| InstallPlugins.SearchFrom | _plugin.py:833 | the first reference starting at or after a position, or none after it |
| InstallPlugins.Search | _plugin.py:833 | `re.search` finds the leftmost reference and its end |
| InstallPlugins.SearchFirst | _plugin.py:833 | the search finds the leftmost reference |
| InstallPlugins.VarReplace | _plugin.py:826-846 | the loop's result is the substitution function `Expand` |
| InstallPlugins.EmptyVarsUnchanged | _plugin.py:828-829 | with no variables the string comes back as it is |
| InstallPlugins.NoReferenceUnchanged | _plugin.py:833-836 | a string without `$name` comes back unchanged |
| InstallPlugins.SingleReference | _plugin.py:838-843 | `$word` becomes `str(var[word.lower()])` or stays as it is, and the inserted text is not scanned again |
| InstallPlugins.UnknownNamesIntact | _plugin.py:838-839 | references whose lower-cased name has no variable are kept verbatim |
| InstallPlugins.PlainPrefix | _plugin.py:841-844 | text before the first reference is copied as it is, and scanning resumes after it |
| ObagentMerge.MergeGenerateConfigs | plugins/obagent/1.3.0/upgrade.py:111-149 | the nested loops compute the merge `MergeGenerateConfig` |
| ObagentMerge.MergeServer | plugins/obagent/1.3.0/upgrade.py:124-141 | one server's pass over its generated keys |
| ObagentMerge.WriteBackPending | plugins/obagent/1.3.0/upgrade.py:143-149 | the write-back loop computes `WriteBack` |
| ObagentMerge.WriteBackKey | plugins/obagent/1.3.0/upgrade.py:145-149 | a pending key is written to exactly its recorded servers that have a generated map; no server is added |
| ObagentMerge.Agreeing | plugins/obagent/1.3.0/upgrade.py:130-140 | the servers that carry a key with a given value, in order |
| ObagentMerge.KeyFold | plugins/obagent/1.3.0/upgrade.py:120-141 | the servers that keep a key are servers carrying it |
| ObagentMerge.ServersStepSlot | plugins/obagent/1.3.0/upgrade.py:120-141 | keys are bucketed independently: what the pass does to one key depends only on that key's values |
| ObagentMerge.MergePreservesValues | plugins/obagent/1.3.0/upgrade.py:111-149 | every generated server setting survives: either on the server with its value, or in global with the same value |
| ObagentMerge.MergeOnlyRelocates | plugins/obagent/1.3.0/upgrade.py:111-149 | the merge invents nothing: the same servers, and every setting left on a server is one it was generated with |
| ObagentMerge.GlobalOnlyByConsensus | plugins/obagent/1.3.0/upgrade.py:113-140 | a global key was global before, or every server carries it with that value |
| ObagentMerge.ConsensusPromoted | plugins/obagent/1.3.0/upgrade.py:130-140 | a key all servers carry with one value, and that is not global, becomes global and leaves every server |
| ObagentMerge.GlobalValueWins | plugins/obagent/1.3.0/upgrade.py:127-129 | a key already in global stays global; a server keeps it exactly when its value differs |
| ObagentMerge.FlattenMoves | plugins/obagent/1.3.0/upgrade.py:114-119 | with at most one server, its settings move into global and its own map becomes empty |
| ObagentUpgrade.ClusterConfig.UpdateGlobalConf | plugins/obagent/1.3.0/upgrade.py:44-45 | sets one global key and nothing else |
| ObagentUpgrade.ClusterConfig.UpdateServerConf | plugins/obagent/1.3.0/upgrade.py:50-51 | sets one key of a known server; an unknown server is left alone |
| ObagentUpgrade.UpdatePorts | plugins/obagent/1.3.0/upgrade.py:89-105 | the port loops compute the port scan `PortFold`: its generated settings and warnings |
| ObagentUpgrade.ScanServer | plugins/obagent/1.3.0/upgrade.py:91-105 | one server's pass over the port keys |
| ObagentUpgrade.ScanPort | plugins/obagent/1.3.0/upgrade.py:93-105 | one port key of one server |
| ObagentUpgrade.PortFoldGen | plugins/obagent/1.3.0/upgrade.py:89-105 | a server gets a generated map exactly when one of its old port keys is set in the original global or server configuration, and that map holds the renamed ports |
| ObagentUpgrade.RenamedKeys | plugins/obagent/1.3.0/upgrade.py:93-102 | a new port key is generated exactly when its old key is set originally, with the server's current value of the old key |
| ObagentUpgrade.RenamedOnlyNewKeys | plugins/obagent/1.3.0/upgrade.py:98-102 | only new port keys are generated |
| ObagentUpgrade.PortsRenamed | plugins/obagent/1.3.0/upgrade.py:84-102 | `server_port` becomes `monagent_http_port` and `pprof_port` becomes `mgragent_http_port`, for exactly the servers that set them originally, with their values |
| ObagentUpgrade.PortsWellformed | plugins/obagent/1.3.0/upgrade.py:89-113 | the generated maps belong to the cluster's servers and hold only new port keys, as the merge needs |
| ObagentUpgrade.PortFoldWarns | plugins/obagent/1.3.0/upgrade.py:103-105 | one warning per old key, given exactly when some server sets that key originally |
| ObagentUpgrade.PortWarningsOnce | plugins/obagent/1.3.0/upgrade.py:86-109 | the warnings are for `server_port` and `pprof_port` only, each at most once, and exactly for the keys some server sets originally |
| ObagentUpgrade.WarningTexts | plugins/obagent/1.3.0/upgrade.py:104-109 | one message per warning, naming the old key and the key it is converted to |
| ObagentUpgrade.SubmitGlobal | plugins/obagent/1.3.0/upgrade.py:43-45 | the generated global settings are laid over the global configuration |
| ObagentUpgrade.SubmitServer | plugins/obagent/1.3.0/upgrade.py:49-51 | a server's generated settings are laid over its own configuration |
| ObagentUpgrade.SummitConfig | plugins/obagent/1.3.0/upgrade.py:42-51 | `summit_config` with three effects: <br>• The global settings are applied. <br>• Every server of the cluster that has generated settings gets them. <br>• The other servers are left as they were |
| ObagentUpgrade.SubmittedStep | plugins/obagent/1.3.0/upgrade.py:46-51 | each server's step changes that server only |
| ObagentUpgrade.SubmittedView | plugins/obagent/1.3.0/upgrade.py:42-51 | after submission, a server sees each of its generated settings, and each generated global setting it does not override |
| ObagentUpgrade.UpgradeKeepsPorts | plugins/obagent/1.3.0/upgrade.py:89-151 | after the upgrade, a server that set an old port key sees the new key with the old key's value, unless it sets the new key itself |
| ObagentUpgrade.Upgrade | plugins/obagent/1.3.0/upgrade.py:55-160 | The upgrade steps: <br>• If the stop step fails, nothing changes and there are no warnings. <br>• Otherwise the renamed and merged ports are submitted, and one warning is issued per converted key. <br>• If start, connect and display all succeed, the upgrade context's index becomes the number of repositories and the return is true. <br>• Otherwise no return is set |
| Errno.NewTemplate | _errno.py:42-45 | the template text is `OBD-<code>: ` followed by the message |
| Errno.Pad4RoundTrip | _errno.py:45 | `%04d` of a non-negative code is digits that read back as the code, exactly four of them for codes below 10000 |
| Errno.Pad4Negative | _errno.py:45 | `%04d` of a negative code is a minus sign and the digits of its magnitude, four characters at least |
| Errno.Format | _errno.py:47-51 | formatting keeps the code |
| Errno.FormatKeepsPrefix | _errno.py:45-51 | the formatted message is the prefix followed by the rendered message |
| Errno.StrOmitsPrefix | _errno.py:36-37 | `str()` of a template is the bare message; `str()` of the error it formats to is the rendered, prefixed text |
| Errno.NewSuggestionTemplate | _errno.py:78-81 | `fix_eval` is always a list: a list is kept, and anything else is wrapped as a one-element list |
| Errno.FormatSuggestion | _errno.py:83-88 | `auto_fix` and `fix_eval` come from the keywords when given, otherwise from the template |
| Errno.SuggestionDefaults | _errno.py:78-88 | without keywords, a formatted suggestion has the template's `auto_fix` and its list of fixes |
| Errno.NewCheckStatus | _errno.py:97-100 | a new status is WAIT, with no error and no suggestions |
| Takeover.BuildTakeoverConfig | plugins/oceanbase/4.2.2.0/create_takeover_base_config.py:32-56 | the step-by-step assembly gives the configuration `TakeoverConfig` |
| Takeover.CreateTakeoverBaseConfig | plugins/oceanbase/4.2.2.0/create_takeover_base_config.py:26-58 | always returns true, with the results `('takeover_config', config)`, recorded under the plugin's name |
| Takeover.TakeoverShape | plugins/oceanbase/4.2.2.0/create_takeover_base_config.py:32-56 | The configuration's shape: <br>• `oceanbase-ce` comes first, with `servers == [host]` and global `{mysql_port, root_password}`. <br>• `user` is present exactly when some SSH option is not None. <br>• When present it comes second and holds the user section |
| Takeover.UserKeys | plugins/oceanbase/4.2.2.0/create_takeover_base_config.py:50-54 | a key is in the user section exactly when its option is not None |
| Takeover.UserLookup | plugins/oceanbase/4.2.2.0/create_takeover_base_config.py:50-54 | each configuration name holds its option's value, or is absent when the option is None |
| Takeover.SshOptionsRenamed | plugins/oceanbase/4.2.2.0/create_takeover_base_config.py:44-54 | `ssh_user`, `password`, `ssh_key_file` and `ssh_port` appear as `username`, `ssh_password`, `key_file` and `port` |
| Takeover.UserKeysAreConfigNames | plugins/oceanbase/4.2.2.0/create_takeover_base_config.py:44-49 | the user section holds no key other than the four configuration names |
| CheckInfo.TrimLeft | web/src/pages/Obdeploy/CheckInfo.tsx:42 | a suffix of the text that does not start with a blank; every dropped character is a blank |
| CheckInfo.TrimRight | web/src/pages/Obdeploy/CheckInfo.tsx:42 | a prefix of the text that does not end with a blank; every dropped character is a blank |
| CheckInfo.NumberOfNat | web/src/pages/Obdeploy/CheckInfo.tsx:42-44 | `Number()` of a decimal numeral is its value |
| CheckInfo.VersionParts | web/src/pages/Obdeploy/CheckInfo.tsx:40 | `split('.')` of `<major>.<minor>[.rest]` gives the major and the minor first |
| CheckInfo.VersionCheckMajorMinor | web/src/pages/Obdeploy/CheckInfo.tsx:39-48 | `<major>.<minor>...` passes exactly when major > 4, or major == 4 and minor >= 3 |
| CheckInfo.VersionCheckMajorOnly | web/src/pages/Obdeploy/CheckInfo.tsx:39-48 | a version without a minor part passes exactly when major > 4 |
| CheckInfo.FilterParameters | web/src/pages/Obdeploy/CheckInfo.tsx:53-67 | the in-place `splice(i--, 1)` loop computes the filter `Filtered` |
| CheckInfo.FilteredStep | web/src/pages/Obdeploy/CheckInfo.tsx:53-67 | each visited parameter is dropped, or kept after its update |
| CheckInfo.FilteredMembers | web/src/pages/Obdeploy/CheckInfo.tsx:55-66 | the survivors are exactly the updated parameters that are not adaptive, whose value exists and whose `isChanged` is set |
| CheckInfo.FilteredAppend | web/src/pages/Obdeploy/CheckInfo.tsx:53-62 | filtering keeps relative order |
| CheckInfo.FilteredClean | web/src/pages/Obdeploy/CheckInfo.tsx:56-66 | no survivor has `isChanged`, and none is adaptive |
| CheckInfo.FilterTwiceEmpty | web/src/pages/Obdeploy/CheckInfo.tsx:56-66 | filtering a filtered list drops everything, because `isChanged` is gone |
| CheckInfo.AllRemoved | web/src/pages/Obdeploy/CheckInfo.tsx:56-60 | a list where no parameter was changed filters to nothing |
| CheckInfo.RewriteParameters | web/src/pages/Obdeploy/CheckInfo.tsx:68-75 | the `forEach` computes the rewrite `RewriteAll` |
| CheckInfo.RewriteAllFails | web/src/pages/Obdeploy/CheckInfo.tsx:72 | one failing `log_maxsize` makes the whole pass fail |
| CheckInfo.LogMaxsizeMegabytes | web/src/pages/Obdeploy/CheckInfo.tsx:70-73 | `log_maxsize` of `<n>MB` becomes the Integer `n` |
| CheckInfo.SplitBeforeMB | web/src/pages/Obdeploy/CheckInfo.tsx:72 | the text before the first `MB` of `<digits>MB...` is the digits |
| CheckInfo.RewriteAllFailsIff | web/src/pages/Obdeploy/CheckInfo.tsx:69-73 | the pass fails exactly when some `log_maxsize` has a value that is not a string |
| CheckInfo.RewriteAllKeeps | web/src/pages/Obdeploy/CheckInfo.tsx:68-75 | same length; each `log_maxsize` is rewritten and every other parameter is untouched |
| CheckInfo.ScenarioAdded | web/src/pages/Obdeploy/CheckInfo.tsx:78-96 | Scenario insertion: <br>• The `scenario` parameter with value `htap` is prepended exactly when the version check passes and no parameter has key `scenario`. <br>• Otherwise the component is left as it is. <br>• After a passing check, a `scenario` is always there |
| CheckInfo.ScenarioIdempotent | web/src/pages/Obdeploy/CheckInfo.tsx:78-96 | adding the scenario twice is adding it once |
| CheckInfo.ProcessComponent | web/src/pages/Obdeploy/CheckInfo.tsx:52-76 | one component's pass computes its processing `Processed` |
| CheckInfo.ProcessedPartAdd | web/src/pages/Obdeploy/CheckInfo.tsx:52 | processing components one by one builds the processed map |
| CheckInfo.FormatConfigData | web/src/pages/Obdeploy/CheckInfo.tsx:50-98 | the whole routine computes the function `FormatConfig` |
| CheckInfo.FormatConfigFromParts | web/src/pages/Obdeploy/CheckInfo.tsx:52-96 | the result is the processed components, with the scenario applied to `oceanbase` |
| CheckInfo.FormatConfigShape | web/src/pages/Obdeploy/CheckInfo.tsx:50-98 | What a successful result holds: <br>• The same components and versions. <br>• Filtered parameters everywhere. <br>• The rewritten `log_maxsize` for the config server. <br>• The scenario rule for `oceanbase` |
| CheckInfo.FormatConfigFails | web/src/pages/Obdeploy/CheckInfo.tsx:68-89 | the routine fails exactly when there is no `oceanbase` component, or a surviving config-server `log_maxsize` is not a string |

## Left out

**Plugin discovery and loading**
- Plugin discovery:
  - `glob` over the file system is replaced by an input list of flag-file paths.
  - A version directory's name becomes a version through a function the loader is given, because the version type's own module is not part of this model.
- Dynamic loading:
  - The `exec` that synthesises a script plugin class becomes a class-name registry (`RegisterScriptClass`). Only the as-written half of the third finding uses it (`ScriptFlagFileAsWritten`). The manager's script loaders use the corrected flag file `<script>.py`.
  - The `sys.modules` lookups for the typed loaders are reduced to whether a class exists for the type.
  - `DynamicLoading` import and export become an optional module passed to the run.
  - An entry point is an abstract function from arguments to an outcome.
- AddScriptLoader: the new loader looks for `<script>.py`, the corrected reading of the third finding. The source reuses the class of a script name that differs only in underscores, so after `up_2` a loader for `up2` looks for `up_2.py`.
- ScriptLoader: builds its loaders with AddScriptLoader, so it uses the corrected flag file as well.
- GetBestScriptPlugin: searches `<script>.py` through ScriptLoader. The source, after `up_2`, searches `up_2.py` for `up2`.
- `PyScriptPlugin.__call__`: the `getattr` dispatch to the method named after the plugin, and its `NotImplementedError`, are not modelled; `Run` stands for the wrapped method.
- Plugin file data is not modelled, because it is loaded from YAML files:
  - `ParamPlugin.params` and its derived lists;
  - `InstallPlugin.file_map` and `check_value`;
  - `SnapConfigPlugin.config` and its checksum hash.
- `Plugin.__str__`: the text form of a plugin is not modelled.
- `Plugin.mirror_type`: not modelled; it only returns the plugin type.

**Running script plugins**
- `PluginContext` fields that only pass data through are not modelled: deploy name, repositories, components, clients, the cluster configuration, commands, options and stdio. The same applies to `SubIO` and the client proxy that injects stdio.
- `ConcurrentExecutor`: concurrency is not modelled.
- The wrapper's timing: the elapsed time is an abstract natural number, because wall-clock time cannot be modelled. Exception objects are a kind and a message. The stdio exception log is left out.
- Dispatch: `Raised` stands only for an entry point that raises an `Exception` subclass, which is what the `except Exception` at `_plugin.py:289` catches. A `BaseException` that is not an `Exception`, such as `KeyboardInterrupt` or `SystemExit`, propagates out of the wrapper: `result` is not set to false, and no failing return is recorded. This case is not modelled.
- Run: the same propagating `BaseException` is not modelled. Such a run records no `time` (`_plugin.py:293`), writes no `run_result` (`_plugin.py:294`) and does not call `after_do`. In the model every run records a time, writes `run_result` and calls `AfterDo`.

**Typed values and configuration items**
- `Double`: floating point is not modelled.
- `Time`: the sub-second units `ns`, `us` and `ms` are exact decimal fractions, where Python multiplies binary floats.
- Integer and digit parsing accept ASCII digits and blanks only. The Unicode digits and spaces that `str.isdigit` and `int()` also accept are left out.
- Parse: a `Time` is read as `ParseTime` and a `Boolean` as `ParseBoolean`, the corrected readings of the first two findings. So `Time('30')` is 30 seconds here, where the source rejects it. `Boolean('0')` is false here, where the source gives true. The as-written readings are `ParseTimeAsWritten` and `ParseBooleanAsWritten`.
- Bound: through Parse it uses the corrected Time and Boolean readings. A bare-digit `Time` bound is accepted here, where the source raises.
- NewConfigItem: through Bound it uses the corrected readings. A `Time` item with the minimum `'30'` is built here, where the source raises.
- TypedAs: converts with the corrected Time and Boolean readings.
- CheckValue: converts with the corrected Time and Boolean readings. `Time('30')` converts here, and `Boolean('0')` is false.
- ModifyAllowed: the `increase` and `decrease` limits convert with the corrected Time and Boolean readings.
- `ConfigItem.check_value`: the model always converts the raw value. It does not have the fast path that skips conversion when the value already has the item's type.
- Python's `==`:
  - `PyEq` models it for the `modify` limit and for equality between typed values. Booleans equal the numbers 0 and 1, so `1 == True`; lists compare item by item; dictionaries compare by keys and values, in any order.
  - Floats are not values of the model, so `1 == 1.0` does not arise.
- MergeGenerateConfigs: the obagent merge compares generated values structurally, with Dafny's `==`, where the source uses Python's `==`. So a server value `1` and another server's `True` are not a consensus here, and a dictionary-valued setting whose entries are reordered counts as a different value.

**Error codes**
- `str.format` becomes a rendering function passed in.
- The catalogue of concrete error codes and messages after line 100 of `_errno.py` is data, not logic, and is not modelled.

**Takeover**
- Takeover.CreateTakeoverBaseConfig: requires every option it reads to be defined. The source's `getattr` raises `AttributeError` for a missing option.

**obagent upgrade**
- The upgrade's collaborators become booleans for the outcome of the stop, start, connect and display plugins:
  - the plugin search;
  - `apply_param_plugin`;
  - `install_repository_to_servers`;
  - the remote `rm -f` of obsolete files;
  - the four plugin calls.
- The upgrade's secondary inputs and outputs are not modelled:
  - The connection's `cursor`, passed on to the display step.
  - `kwargs['repository_dir']`.
  - The read of `home_path`.
  - Warnings are returned as texts instead of being written to stdio.
- ObagentUpgrade.Upgrade: requires every converted port to be readable from the server's current configuration. The source raises `KeyError` there otherwise, a path this model does not take. This always holds when the configuration is as deployed, because a converted key is one that is set in it.
- The cluster configuration class is not part of this model. It is modelled with these simplifications:
  - A server's configuration is the global configuration overlaid with the server's own.
  - Configuration defaults and persistence (the `save` flag) are left out.
- WordRun: a word character is an ASCII letter, digit or `_`, and `Lower` lower-cases ASCII letters only. Python's `\w` and `str.lower` on `str` also cover Unicode letters and digits. So for `$caféx` the source looks up `caféx`, while the model looks up `caf`.
- Search: finds only references whose first name character is an ASCII word character. A reference like `$é` that Python's `re.search` finds is left as plain text here.
- Dictionary iteration order within a server's generated settings is not modelled, because they are Dafny maps. The merge treats each key on its own (`ServersStepSlot`), so the order does not change its result. The warnings keep their order.

**Web installer**
- JavaScript `Number()`:
  - It is modelled for decimal numerals, optionally signed, inside ASCII blanks. Blank text is 0.
  - Fractions, exponents, hexadecimal and `Infinity` are NaN here.
  - Unicode white space is not trimmed.
- `configServerComponentKey`, `isExist` and `changeParameterUnit` become parameters, because the files defining them are not part of this model.
- `formatConfigData`: a component whose `parameters` field is missing is not modelled; every component has a list.
- The scenario parameter's description text and its `unitDisable` field are not modelled.
- `_.cloneDeep`: components are values, so the model has no aliasing at all and the input cannot change. The clone itself is not what rules aliasing out: lodash keeps references that are shared inside its input shared in the copy, and the model does not represent such sharing.

## Findings

| source | as written | input that shows it | evidently intended | confidence | as-written member | corrected member |
|---|---|---|---|---|---|---|
| _plugin.py:461-467 | For a string of bare digits, `Time` never binds the unit name `u`. The later `UNITS.get(u.lower())` raises, so every such value is rejected as "not Time". | `Time('30')` | bare digits mean seconds: the code already chooses `UNITS['s']` on that branch, as `Capacity` does with MiB | not executed | ParamTypes.ParseTimeAsWritten, ParamTypes.TimeBareDigits | ParamTypes.ParseTime |
| _plugin.py:558-559 | A digit string is converted with `bool()` of the string itself, which is true for every non-empty string. | `Boolean('0')` is `True` | digits are read as a number, so `'0'` is false | not executed | ParamTypes.ParseBooleanAsWritten, ParamTypes.BooleanZeroString | ParamTypes.ParseBoolean |
| _plugin.py:958-962 | The synthesised class is looked up by a name built from the capitalised words of the script name. Two script names that differ only in underscores share one class, and a loader made second looks for the first script's flag file. | scripts `up_2`, then `up2` | each script loader looks for `<script>.py` | not executed | PluginLoaders.ScriptFlagFileAsWritten, PluginLoaders.ScriptClassCollision | PluginLoaders.ScriptFlagFilesDistinct |
