/**
 * The logging framework's mapped diagnostic context (MDC), modelled as one
 * key-value map owned by a single context object.
 */
module Mdc {
  import opened Wrappers

  /** Map lookup with absence as None, as a Java Map.get returns null. */
  function Lookup(m: map<string, string>, key: string): (r: Option<string>)
    ensures r.Some? <==> key in m
    ensures r.Some? ==> r.value == m[key]
  {
    if key in m then Some(m[key]) else None
  }

  class MdcContext {
    var entries: map<string, string>

    constructor ()
      ensures entries == map[]
    {
      entries := map[];
    }

    /** MDC.get: the value under key, or null; reads only. */
    function Get(key: string): (r: Option<string>)
      reads this
      ensures r.Some? <==> key in entries
      ensures r.Some? ==> r.value == entries[key]
    {
      Lookup(entries, key)
    }

    /** MDC.put: binds key to value, overwriting any earlier binding. */
    method Put(key: string, value: string)
      modifies this
      ensures entries == old(entries)[key := value]
    {
      entries := entries[key := value];
    }

    /** MDC.remove: drops key, if present, and leaves every other entry alone. */
    method Remove(key: string)
      modifies this
      ensures entries == old(entries) - {key}
    {
      entries := entries - {key};
    }
  }
}
