/**
  A JavaScript header object (`Object<string, string>`) as an ordered,
  string-keyed mapping. A JavaScript object keeps its property names unique
  and in insertion order: assigning to an existing name overwrites the value
  where it stands, assigning to a new name appends it. `Put` is that
  assignment; `HeaderMap` is the mutable object that `makeRes` updates in place.
*/
module Headers {
  import opened Wrappers

  /** A header value as the code stores it: a string, a number (`JS_VER`), or a list (repeated upstream headers). */
  datatype HeaderValue = Str(s: string) | Num(n: int) | List(items: seq<string>)

  datatype Header = Header(name: string, value: HeaderValue)

  /** The property names, in the order the object enumerates them. */
  function Names(hs: seq<Header>): seq<string>
  {
    if hs == [] then [] else [hs[0].name] + Names(hs[1..])
  }

  /** Reading `headers[name]`: the value stored under `name`, or None when the property is absent. */
  function Get(hs: seq<Header>, name: string): Option<HeaderValue>
  {
    if hs == [] then None
    else if hs[0].name == name then Some(hs[0].value)
    else Get(hs[1..], name)
  }

  /** No property name occurs twice: no later property shares a name with an earlier one. */
  predicate Unique(hs: seq<Header>)
  {
    hs == [] || (Get(hs[1..], hs[0].name).None? && Unique(hs[1..]))
  }

  /** The enumerated names are exactly the names that read a value. */
  lemma {:induction false} NamesArePresent(hs: seq<Header>, name: string)
    ensures name in Names(hs) <==> Get(hs, name).Some?
  {
    if hs != [] {
      NamesArePresent(hs[1..], name);
    }
  }

  /**
    Assigning `headers[name] = value`: afterwards `name` reads `value`, every
    other name reads what it read before, an existing name keeps its position
    and a new one is appended, and unique names stay unique.
  */
  function Put(hs: seq<Header>, name: string, value: HeaderValue): (r: seq<Header>)
    ensures Get(r, name) == Some(value)
    ensures forall other :: other != name ==> Get(r, other) == Get(hs, other)
    ensures Names(r) == if Get(hs, name).Some? then Names(hs) else Names(hs) + [name]
    ensures Unique(hs) ==> Unique(r)
  {
    if hs == [] then [Header(name, value)]
    else if hs[0].name == name then
      var r := [Header(name, value)] + hs[1..];
      assert r[1..] == hs[1..];
      r
    else
      var tail := Put(hs[1..], name, value);
      var r := [hs[0]] + tail;
      assert r[0] == hs[0] && r[1..] == tail;
      r
  }

  /** Assigning the value a name already holds leaves the object as it was. */
  lemma {:induction false} PutUnchanged(hs: seq<Header>, name: string, value: HeaderValue)
    requires Get(hs, name) == Some(value)
    ensures Put(hs, name, value) == hs
  {
    if hs != [] && hs[0].name != name {
      PutUnchanged(hs[1..], name, value);
    }
  }

  /** Assigning a name the object does not have appends exactly one property at the end. */
  lemma {:induction false} PutAppends(hs: seq<Header>, name: string, value: HeaderValue)
    requires Get(hs, name).None?
    ensures Put(hs, name, value) == hs + [Header(name, value)]
  {
    if hs != [] {
      PutAppends(hs[1..], name, value);
      assert [hs[0]] + (hs[1..] + [Header(name, value)]) == hs + [Header(name, value)];
    }
  }

  /** The mutable header object that a caller hands over and `makeRes` writes into. */
  class HeaderMap {
    var entries: seq<Header>

    predicate Valid()
      reads this
    {
      Unique(entries)
    }

    /** A fresh empty object, `{}`. */
    constructor ()
      ensures Valid() && entries == []
    {
      entries := [];
    }

    /** An object literal written out property by property. */
    constructor FromLiteral(hs: seq<Header>)
      requires Unique(hs)
      ensures Valid() && entries == hs
    {
      entries := hs;
    }

    /** `this[name] = value`. */
    method Set(name: string, value: HeaderValue)
      requires Valid()
      modifies this
      ensures Valid()
      ensures entries == Put(old(entries), name, value)
    {
      entries := Put(entries, name, value);
    }
  }
}
