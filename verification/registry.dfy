/** `FrameRegistry`: maps each engine frame handle to exactly one wrapper
    object. The registry is created with the extra positional and keyword
    arguments every wrapper is constructed with; `wrap(handle)` constructs a
    wrapper from `(handle, registry, *args, **kwargs)` the first time it sees
    a handle and returns that same wrapper on every later call; `wrap(None)`
    is `None`; `clear()` forgets every wrapper. Handles and wrappers are
    compared by identity, which Dafny's object references express directly. */
module Registry {
  import opened Values

  /** An engine-owned frame handle; only its identity matters. */
  class Handle {
    constructor ()
    {
    }
  }

  /** A wrapper, recording the arguments it was constructed with: the handle,
      the registry, then the registry's extra positional and keyword arguments. */
  class Wrapper {
    const handle: Handle
    const registry: FrameRegistry
    const args: seq<Value>
    const kwargs: map<string, Value>

    constructor (handle: Handle, registry: FrameRegistry, args: seq<Value>, kwargs: map<string, Value>)
      ensures this.handle == handle && this.registry == registry
      ensures this.args == args && this.kwargs == kwargs
    {
      this.handle := handle;
      this.registry := registry;
      this.args := args;
      this.kwargs := kwargs;
    }
  }

  class FrameRegistry {
    /** The wrapper of every handle seen since the last `clear()`. */
    var entries: map<Handle, Wrapper>
    /** The extra arguments given when the registry was created. */
    const args: seq<Value>
    const kwargs: map<string, Value>

    /** `w` is what this registry constructs for `h`. */
    predicate Built(w: Wrapper, h: Handle)
    {
      && w.handle == h
      && w.registry == this
      && w.args == args
      && w.kwargs == kwargs
    }

    /** Every stored wrapper was constructed by this registry for its own key. */
    ghost predicate Valid()
      reads this
    {
      forall h :: h in entries ==> Built(entries[h], h)
    }

    constructor (args: seq<Value>, kwargs: map<string, Value>)
      ensures Valid() && entries == map[]
      ensures this.args == args && this.kwargs == kwargs
    {
      entries := map[];
      this.args := args;
      this.kwargs := kwargs;
    }

    /** `wrap(handle)`. */
    method Wrap(h: Handle?) returns (w: Wrapper?)
      requires Valid()
      modifies this
      ensures Valid()
      ensures h == null <==> w == null
      ensures h == null ==> entries == old(entries)
      ensures h != null && h in old(entries) ==> w == old(entries)[h] && entries == old(entries)
      ensures h != null && h !in old(entries) ==> w != null && fresh(w) && entries == old(entries)[h := w]
      ensures h != null ==> w != null && h in entries && entries[h] == w && Built(w, h)
    {
      if h == null {
        return null;
      }
      if h in entries {
        return entries[h];
      }
      var x := new Wrapper(h, this, args, kwargs);
      entries := entries[h := x];
      return x;
    }

    /** `clear()`. */
    method Clear()
      modifies this
      ensures Valid() && entries == map[]
    {
      entries := map[];
    }
  }

  /** Distinct handles never share a wrapper. */
  lemma OneHandlePerWrapper(r: FrameRegistry, h1: Handle, h2: Handle)
    requires r.Valid()
    requires h1 in r.entries && h2 in r.entries && r.entries[h1] == r.entries[h2]
    ensures h1 == h2
  {
    assert r.Built(r.entries[h1], h1) && r.Built(r.entries[h2], h2);
  }

  // ---- The registry tests, each as a method that builds its own registry ----

  /** Wrapping a handle constructs a wrapper whose first argument is the
      handle itself, whose second is the registry itself, and whose remaining
      arguments are the registry's extra arguments, in order. */
  method WrapRecordsArguments(args: seq<Value>, kwargs: map<string, Value>) returns (r: FrameRegistry, o: Handle, x: Wrapper)
    ensures x.handle == o && x.registry == r
    ensures x.args == args && x.kwargs == kwargs
  {
    r := new FrameRegistry(args, kwargs);
    o := new Handle();
    var w := r.Wrap(o);
    x := w;
  }

  /** Wrapping `None` gives `None` and constructs nothing. */
  method WrapNone(args: seq<Value>, kwargs: map<string, Value>) returns (r: FrameRegistry, x: Wrapper?)
    ensures x == null
    ensures r.entries == map[]
  {
    r := new FrameRegistry(args, kwargs);
    x := r.Wrap(null);
  }

  /** Wrapping the same handle twice gives the same wrapper. */
  method WrapTwice(args: seq<Value>, kwargs: map<string, Value>) returns (one: Wrapper, two: Wrapper)
    ensures one == two
  {
    var r := new FrameRegistry(args, kwargs);
    var o := new Handle();
    var w1 := r.Wrap(o);
    var w2 := r.Wrap(o);
    one, two := w1, w2;
  }

  /** After `clear()`, wrapping the same handle gives a new wrapper. */
  method WrapAfterClear(args: seq<Value>, kwargs: map<string, Value>) returns (one: Wrapper, two: Wrapper)
    ensures one != two
    ensures one.handle == two.handle
  {
    var r := new FrameRegistry(args, kwargs);
    var o := new Handle();
    var w1 := r.Wrap(o);
    r.Clear();
    var w2 := r.Wrap(o);
    one, two := w1, w2;
  }
}
