/**
 * The handler registry of `src/registry.rs`: the handlers collected at
 * link time, in the order the collector yields them, searched by exact name.
 */
module Registry {
  import opened Wrappers
  import opened Types

  datatype Handler = Handler(name: string, func: TaskFn)

  /** `all_names`: the names in registration order, duplicates kept. */
  function AllNames(handlers: seq<Handler>): (names: seq<string>)
    ensures |names| == |handlers|
    ensures forall i :: 0 <= i < |handlers| ==> names[i] == handlers[i].name
  {
    if |handlers| == 0 then [] else [handlers[0].name] + AllNames(handlers[1..])
  }

  /**
   * The handler `find` returns: none exactly when no handler carries the
   * name (which one is returned is `FirstRegistrationWins`).
   */
  function Lookup(handlers: seq<Handler>, name: string): (r: Option<TaskFn>)
    ensures r.None? <==> name !in AllNames(handlers)
  {
    if |handlers| == 0 then None
    else if handlers[0].name == name then Some(handlers[0].func)
    else Lookup(handlers[1..], name)
  }

  /** `find`: walk the collected handlers, return the first whose name matches. */
  method Find(handlers: seq<Handler>, name: string) returns (r: Option<TaskFn>)
    ensures r == Lookup(handlers, name)
  {
    for i := 0 to |handlers|
      invariant Lookup(handlers[i..], name) == Lookup(handlers, name)
    {
      assert handlers[i..][1..] == handlers[i + 1..];
      if handlers[i].name == name {
        return Some(handlers[i].func);
      }
    }
    return None;
  }

  /** A handler is found for its name unless an earlier one has the same name. */
  lemma {:induction false} FirstRegistrationWins(handlers: seq<Handler>, i: nat)
    requires i < |handlers| && handlers[i].name !in AllNames(handlers[..i])
    ensures Lookup(handlers, handlers[i].name) == Some(handlers[i].func)
  {
    if i > 0 {
      assert handlers[0].name == AllNames(handlers[..i])[0];
      assert handlers[1..][i - 1] == handlers[i];
      assert AllNames(handlers[..i]) == [handlers[0].name] + AllNames(handlers[1..][..i - 1]) by {
        assert handlers[..i][1..] == handlers[1..][..i - 1];
      }
      FirstRegistrationWins(handlers[1..], i - 1);
    }
  }

  /** Registering one more handler never changes what an existing name finds. */
  lemma {:induction false} RegisterLater(handlers: seq<Handler>, h: Handler, name: string)
    ensures Lookup(handlers, name).Some? ==> Lookup(handlers + [h], name) == Lookup(handlers, name)
    ensures Lookup(handlers, name).None? ==>
      Lookup(handlers + [h], name) == if h.name == name then Some(h.func) else None
  {
    if |handlers| > 0 {
      assert (handlers + [h])[1..] == handlers[1..] + [h];
      RegisterLater(handlers[1..], h, name);
    }
  }

  /** Two handlers `h1` and `h2`: each is found under its name, other names find nothing. */
  lemma TwoHandlers(f1: TaskFn, f2: TaskFn)
    ensures Lookup([Handler("h1", f1), Handler("h2", f2)], "h1") == Some(f1)
    ensures Lookup([Handler("h1", f1), Handler("h2", f2)], "h2") == Some(f2)
    ensures Lookup([Handler("h1", f1), Handler("h2", f2)], "missing").None?
    ensures {"h1", "h2"} <= set n | n in AllNames([Handler("h1", f1), Handler("h2", f2)])
  {
    var names := AllNames([Handler("h1", f1), Handler("h2", f2)]);
    assert names[0] == "h1" && names[1] == "h2";
  }
}
