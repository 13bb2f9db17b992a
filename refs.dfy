/** The registry as a value: a two-level map from group name to
    (reference name to bound value), with the single read path (lookup)
    and the single write path (bind) that every builder uses. */
module Refs {

  /** The group that is active before any wrapper has switched it. */
  const DefaultGroup: string := "default"

  /** Group name -> (reference name -> value). */
  type Table<V> = map<string, map<string, V>>

  /** The failures the core raises, and any exception a wrapped callable
      raises itself (`BodyException`). Both lookup failures are one KeyError
      in the source, told apart only by the missing key: the group name, or
      the reference name inside an existing group. */
  datatype Error =
    | UnknownGroup(group: string)
    | UnknownReference(group: string, name: string)
    | NoIntrinsicName
    | ModuleNotFound(moduleName: string)
    | BodyException(message: string)

  datatype Option<T> = None | Some(value: T)

  datatype Result<T> = Success(value: T) | Failure(error: Error)

  /** `_refs[group][name]`: fails when the group, or the name inside it, is absent. */
  function Lookup<V>(refs: Table<V>, group: string, name: string): (r: Result<V>)
    ensures r.Success? <==> group in refs && name in refs[group]
    ensures r.Success? ==> r.value == refs[group][name]
    ensures r.Failure? && group !in refs ==> r.error == UnknownGroup(group)
    ensures r.Failure? && group in refs ==> r.error == UnknownReference(group, name)
  {
    if group !in refs then Failure(UnknownGroup(group))
    else if name !in refs[group] then Failure(UnknownReference(group, name))
    else Success(refs[group][name])
  }

  /** The effect of `add_named_ref`: create the group as an empty map when
      it is missing, then set (or overwrite) one entry in it. */
  function Bind<V>(refs: Table<V>, group: string, name: string, value: V): (r: Table<V>)
    ensures r.Keys == refs.Keys + {group}
    ensures group in refs ==> r[group].Keys == refs[group].Keys + {name}
    ensures group !in refs ==> r[group].Keys == {name}
    ensures r[group][name] == value
    ensures forall n :: n in r[group] && n != name ==> r[group][n] == refs[group][n]
    ensures forall g :: g in refs && g != group ==> r[g] == refs[g]
  {
    var members := if group in refs then refs[group] else map[];
    refs[group := members[name := value]]
  }

  /** A lookup right after a bind of the same group and name yields exactly the bound value. */
  lemma LookupAfterBind<V>(refs: Table<V>, group: string, name: string, value: V)
    ensures Lookup(Bind(refs, group, name, value), group, name) == Success(value)
  {
  }

  /** A bind changes no other lookup, except that a lookup in a group the
      bind has just created now fails for the missing name instead of the
      missing group. */
  lemma LookupAfterBindElsewhere<V>(refs: Table<V>, group: string, name: string, value: V,
                                    group': string, name': string)
    requires group' != group || name' != name
    ensures group' != group || group in refs ==>
      Lookup(Bind(refs, group, name, value), group', name') == Lookup(refs, group', name')
    ensures group' == group && group !in refs ==>
      Lookup(Bind(refs, group, name, value), group', name') == Failure(UnknownReference(group, name'))
  {
  }

  /** Binding a name twice in one group keeps only the later value. */
  lemma {:induction false} LastWriteWins<V>(refs: Table<V>, group: string, name: string, first: V, second: V)
    ensures Bind(Bind(refs, group, name, first), group, name, second) == Bind(refs, group, name, second)
  {
    var once := Bind(refs, group, name, second);
    var twice := Bind(Bind(refs, group, name, first), group, name, second);
    assert twice.Keys == once.Keys;
    assert twice[group] == once[group];
  }

  /** Building the same group again merges into it: two binds of different
      names in one group commute, and both names stay resolvable. */
  lemma {:induction false} RebuildMerges<V>(refs: Table<V>, group: string, name1: string, value1: V,
                                            name2: string, value2: V)
    requires name1 != name2
    ensures Bind(Bind(refs, group, name1, value1), group, name2, value2)
         == Bind(Bind(refs, group, name2, value2), group, name1, value1)
    ensures Lookup(Bind(Bind(refs, group, name1, value1), group, name2, value2), group, name1) == Success(value1)
    ensures Lookup(Bind(Bind(refs, group, name1, value1), group, name2, value2), group, name2) == Success(value2)
  {
    var left := Bind(Bind(refs, group, name1, value1), group, name2, value2);
    var right := Bind(Bind(refs, group, name2, value2), group, name1, value1);
    assert left.Keys == right.Keys;
    assert left[group] == right[group];
  }

  /** A bind never removes anything: every lookup that succeeded before
      still succeeds, with the same value unless it is the rebound entry. */
  lemma BindKeepsBindings<V>(refs: Table<V>, group: string, name: string, value: V,
                             group': string, name': string)
    requires Lookup(refs, group', name').Success?
    ensures Lookup(Bind(refs, group, name, value), group', name').Success?
    ensures group' != group || name' != name ==>
      Lookup(Bind(refs, group, name, value), group', name') == Lookup(refs, group', name')
  {
  }
}
