# sqeezz: a scoped reference registry, modelled in Dafny

sqeezz binds named values into named groups and resolves a name against
whichever group is active. The registry `_refs` maps a group name to a map
from reference name to value. Builders fill it in, and every builder writes
into the same registry. `using(name)` reads the active group `_group_name`,
which starts as `default`. `group(group_name, func)` returns a wrapper. The
wrapper saves the active group, switches to `group_name`, calls `func`,
switches back and returns what `func` returned.

The model has four modules:

- `Refs` (refs.dfy) models the registry as a value. `Lookup` is the read path and `Bind` is the write path of `add_named_ref`. The lemmas cover read-your-write, the frame, last-write-wins and merging.
- `Scope` (scope.dfy) models what a wrapped call does to the active group, as pure functions. The wrapped callable is opaque in the source. Here it is a sequence of steps. Each step is a `using(name)`, a call of another wrapper, or a `raise` of an exception of the callable's own. A body returns the list of values it resolved, in order, including whatever the nested wrappers returned. A failing `using` or a `raise` ends the body.
- `Sqeezz` (sqeezz.dfy) holds the state that changes in place. It has a `Registry` class with the two globals as fields (`refs`, `groupName`) and a `Builder` class whose `registry` field aliases the one shared registry. `Registry.Invoke` is the wrapper's `inner`. `RunBody` executes the body against the live state one step at a time (`Perform`). All three are proved equal to the `Scope` functions.
- `Scenarios` (scenarios.dfy) has client programs that use only the contracts. They come from the tests and from the configuration code.

The model states the code's behaviour where a reader might expect something else:

- The wrapper restores the saved group only after `func` returns normally, because there is no try/finally. A restore on every exit path would be the expected behaviour, but the code does not have one. When `func` raises, whichever group was active at the failing step stays active. For a failing `using`, that is the group the exception names (`Run`). An exception from a nested wrapper passes through the outer body unrestored (`NestedFailurePropagates`, `RaiseInNestedWrapperLeavesInnerGroup`). `Wrapped`, `FlatFailureLeavesGroupSwitched` and `FailureKeepsGroup` state the single-wrapper case.
- The active group is one process-wide variable, not a per-task stack of groups.
- Both lookup failures are one `KeyError`, told apart only by the missing key: the group name or the reference name. The model names the two cases `UnknownGroup` and `UnknownReference`.
- A value without `__name__` makes `add_ref` raise `AttributeError`, modelled as `NoIntrinsicName`. A failed `import_module` is modelled as `ModuleNotFound`.

## Model

| member | source | states |
|---|---|---|
| `Refs.Lookup` | sqeezz/__init__.py:39-41 | succeeds exactly when the group exists and holds the name, and then yields the bound value; otherwise fails on the missing group, or on the missing name in an existing group |
| `Refs.Bind` | sqeezz/__init__.py:22-25 | the group exists afterwards, created empty if it was absent; its names are the old ones plus the new name, which maps to the new value; every other name in the group and every other group is unchanged |
| `Refs.LookupAfterBind` | sqeezz/__init__.py:21-41 | after binding `name` to `v` in a group, `using(name)` with that group active returns exactly `v` |
| `Refs.LookupAfterBindElsewhere` | sqeezz/__init__.py:22-25 | a bind changes no other lookup; the one exception is a group the bind creates, where an unbound name now fails on the name instead of the group |
| `Refs.LastWriteWins` | sqeezz/__init__.py:25 | binding a name twice in one group equals binding only the later value |
| `Refs.RebuildMerges` | sqeezz/__init__.py:12-25 | two binds of different names into the same group commute, and both names resolve afterwards; building a group again merges into it |
| `Refs.BindKeepsBindings` | sqeezz/__init__.py:22-25 | a bind never removes a binding: every lookup that succeeded still succeeds, with the same value unless it is the rebound entry |
| `Scope.Run` | sqeezz/__init__.py:64-67 | a body that returns leaves the active group as it found it, even when it called nested wrappers; after a failing `using`, the group that lookup ran in stays active, because no enclosing wrapper restores on a raise; an exception is a lookup failure or the callable's own |
| `Scope.NestedFailurePropagates` | sqeezz/__init__.py:64-67 | an exception from a nested wrapper ends the outer body with that same exception and leaves the group the inner body left active; the rest of the outer body is skipped |
| `Scope.RaiseInNestedWrapperLeavesInnerGroup` | sqeezz/__init__.py:64-67 | a callable raising its own exception inside an inner wrapper, called from an outer wrapper, leaves the inner wrapper's group active after both calls, whatever was active before |
| `Scope.Wrapped` | sqeezz/__init__.py:60-68 | the wrapper returns or raises exactly what the body run under the wrapper's group does; after a return the saved group is active again; after a raise the group the body left active stays active |
| `Scope.RunFlatResolves` | sqeezz/__init__.py:39-41 | a body of `using` calls, all bound in the active group, returns exactly the bound values, one for each call and in order |
| `Scope.RunFlatKeepsGroup` | sqeezz/__init__.py:39-41 | `using` never changes the active group, whether it succeeds or raises |
| `Scope.FlatFailureLeavesGroupSwitched` | sqeezz/__init__.py:64-67 | when the body raises from a `using`, the wrapper raises and its group, not the saved one, is active afterwards |
| `Scope.WrappedUsesItsGroup` | sqeezz/__init__.py:64-66 | a `using` at the start of a wrapped body resolves in the wrapper's group; if it fails, the exception is that group's lookup failure and the group stays active |
| `Scope.NestedRestoresOuter` | sqeezz/__init__.py:64-68 | once a nested wrapper returns, the rest of the outer body runs under the outer group, and the inner result is kept in front |
| `Scope.RunAppend` | sqeezz/__init__.py:64-68 | running two pieces of a body in sequence: after the first piece returns, the second runs under the same group; if the first piece raises, the second never runs |
| `Scope.WrappedRestores` | sqeezz/__init__.py:64-68 | a wrapped call that returns passes the body's values through unchanged and leaves the caller's group active |
| `Sqeezz.Registry.constructor` | sqeezz/__init__.py:6-7 | the registry starts with no groups, and `default` is active |
| `Sqeezz.Registry.Using` | sqeezz/__init__.py:39-41 | reads the active group only: returns the value bound there to the name, fails on a never-built group or a missing name, and changes nothing |
| `Sqeezz.Registry.Invoke` | sqeezz/__init__.py:60-68 | the save/switch/call/restore sequence on the live state gives the outcome and final active group that `Wrapped` specifies, and never changes the registry |
| `Sqeezz.Registry.RunBody` | sqeezz/__init__.py:66 | executing a body against the live state gives the outcome and final active group that `Run` specifies, and never changes the registry |
| `Sqeezz.Registry.Perform` | sqeezz/__init__.py:64-67 | one step of a body on the live state: a `using`, a `raise` or a nested wrapper call; after a return the active group is unchanged and the rest of the body continues as `Run` specifies; after a raise the state is exactly what `Run` gives |
| `Sqeezz.Builder.constructor` | sqeezz/__init__.py:12-14 | a builder records its group name and aliases the one shared registry |
| `Sqeezz.Builder.AddNamedRef` | sqeezz/__init__.py:21-27 | the shared registry becomes `Bind` of the old one for this builder's group, and the same builder is returned for chaining |
| `Sqeezz.Builder.AddRef` | sqeezz/__init__.py:16-19 | with an intrinsic name, has exactly the effect of `AddNamedRef` under that name and returns the same builder; without one, fails and changes nothing |
| `Sqeezz.Builder.LazyAddRef` | sqeezz/__init__.py:29-32 | binds the imported module under the identifier string itself and returns the same builder; a failed import raises and changes nothing |
| `Sqeezz.NewBuilder` | sqeezz/__init__.py:35-36 | a fresh builder for the given group (`default` when none is given) over the shared registry |
| `Scenarios.TwoGroups` | test_async_sqeezz.py:281-287 | two builders fill `group_a` and `group_b` with exactly their own `value` and `multiplier` bindings |
| `Scenarios.SameBodyTwoGroups` | test_async_sqeezz.py:289-298 | the test's body wrapped for each group, with the two calls run one after the other (not under `gather`), resolves `"A", 2` and `"B", 3` respectively, and `default` is active again afterwards |
| `Scenarios.NestedGroups` | sqeezz/__init__.py:64-67 | a `group_a` wrapper calling a `group_b` wrapper sees `"A"`, then `"B"` inside the inner call, then `2` from `group_a` again |
| `Scenarios.FailureKeepsGroup` | sqeezz/__init__.py:64-67 | a `using` of an unbound name inside a wrapper raises on that name, and the wrapper's group is left active |
| `Scenarios.RebuildDefault` | config.py:57-88 | three builders of `default` (lazy module, named function, named mock) merge into one group; an unbound name fails on the name and a never-built group fails on the group |

## Left out

- Asynchronous interleaving: `async_inner` (sqeezz/__init__.py:47-55) is modelled by the same sequential save/switch/restore as `inner`. Isolation between tasks that interleave at an `await` is not modelled or claimed. With a single shared variable, the two final restores under `asyncio.gather` can leave the other task's group active. In the two-group test (test_async_sqeezz.py:300-308), `group_a` stays active afterwards, not `default`.
- Exceptions caught inside a body (`try`/`except` around a nested wrapper) are not modelled: a body here ends at the first exception.
- Scope.Run: its clause "a body that returns leaves the active group as it found it" holds only because bodies here cannot catch exceptions. In the source, a body that catches a nested wrapper's exception returns normally with the inner group still active, and its later `using` calls resolve in that inner group.
- Bodies that build groups, and arguments passed through the wrapper, are not modelled: a body only calls `using` and other wrappers, and its return value is the list of values it resolved.
- `import_module` is a foreign call. It is the parameter `importModule`, which yields a value or nothing, and its module caching is not modelled.
- `ref.__name__` is the parameter `nameOf`, which yields a name or nothing.
- Python reflection (`wraps`, `__signature__`, `iscoroutinefunction`) is not modelled. It only copies metadata and selects the async or the sync wrapper, which behave identically when run sequentially.
- A group switcher (per-call group selection) and a scoped-lookup handle are not part of the code, so they are not part of this model.
- Clearing the registry and resetting the active group from outside, as the test set-up does, is not an operation of the core.
- main.py and setup.py are not part of this model.
