/** `ToolRegistry`: the table of named tools that nodes call. A Python dict
    keeps its keys in first-insertion order, so the table is a map together
    with the order in which its names were first registered. */
module Tools {
  import opened Values

  /** Every name appears once in `names`, and the names are exactly the keys. */
  ghost predicate Ordered(tools: map<string, Tool>, names: seq<string>) {
    && (forall i, j :: 0 <= i < j < |names| ==> names[i] != names[j])
    && (forall n :: n in tools <==> n in names)
  }

  /** The message of the `ValueError` that `get` raises for an unknown name. */
  function NotFound(name: string): string {
    "Tool '" + name + "' not found in registry"
  }

  class ToolRegistry {
    var tools: map<string, Tool>
    var names: seq<string>

    ghost predicate Valid()
      reads this
    {
      Ordered(tools, names)
    }

    /** A new registry is empty. */
    constructor ()
      ensures Valid()
      ensures tools == map[] && names == []
    {
      tools := map[];
      names := [];
    }

    /** `register`: binds `name` to `f`, replacing an earlier binding; every
        other binding stays, and a new name goes at the end of the order. */
    method Register(name: string, f: Tool)
      requires Valid()
      modifies this
      ensures Valid()
      ensures tools == old(tools)[name := f]
      ensures name in old(tools) ==> names == old(names)
      ensures name !in old(tools) ==> names == old(names) + [name]
    {
      if name !in tools {
        names := names + [name];
      }
      tools := tools[name := f];
    }

    /** `get`: the tool bound to `name`, or the `ValueError` for an unknown
        name. */
    method Get(name: string) returns (r: Result<Tool>)
      ensures name in tools ==> r == Ok(tools[name])
      ensures name !in tools ==> r == Err(NotFound(name))
    {
      if name !in tools {
        return Err(NotFound(name));
      }
      return Ok(tools[name]);
    }

    /** `list_tools`: every registered name once, in first-registration order. */
    method ListTools() returns (r: seq<string>)
      requires Valid()
      ensures forall n :: n in r <==> n in tools
      ensures forall i, j :: 0 <= i < j < |r| ==> r[i] != r[j]
      ensures r == names
    {
      r := names;
    }
  }

  /** After `register(name, f)`, `get(name)` gives `f`, and `get` of any other
      name gives what it gave before. */
  method RegisterThenGet(reg: ToolRegistry, name: string, f: Tool, other: string)
    returns (got: Result<Tool>, before: Result<Tool>, after: Result<Tool>)
    requires reg.Valid() && other != name
    modifies reg
    ensures got == Ok(f)
    ensures before == after
  {
    before := reg.Get(other);
    reg.Register(name, f);
    got := reg.Get(name);
    after := reg.Get(other);
  }
}
