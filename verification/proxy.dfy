/** `proxy_factory(type, underlying_getter)` of specter/util.py: given a class
    and a way to find, from the object that holds the proxies, the underlying
    object they delegate to, build for a member name either a method that
    forwards calls, or a property whose getter, setter and deleter forward to
    the class's own property.

    Python objects are references: the underlying object is found by
    reference (`Ref`) in a heap of object states, so that every holder whose
    getter locates the same reference sees the same underlying object, as the
    holder class in the proxy tests does through `lambda _: u`. */
module Proxy {
  import opened Wrappers
  import opened Values
  import Patch

  /** The identity of a live Python object. */
  type Ref = nat

  /** The states of the live objects proxies can reach. */
  type Heap<S> = map<Ref, S>

  /** One member of a class, as `getattr(type, name)` finds it: a plain method,
      or a property with a getter and an optional setter and deleter. A method,
      setter or deleter reports its return value or the exception it raised,
      together with the state it leaves the object in, whether it raised or not. */
  datatype Member<!S> =
    | Method(call: (S, Args) -> (Result<Value, string>, S))
    | Property(fget: S -> Result<Value, string>,
               fset: Option<(S, Value) -> (Outcome<string>, S)>,
               fdel: Option<S -> (Outcome<string>, S)>)

  /** A class, as far as `getattr` on it goes: its members by name. */
  type Class<!S> = map<string, Member<S>>

  /** The exceptions an access through a proxy ends with. */
  datatype Error =
    | NoAttribute(name: string)         // `getattr(type, name)` found nothing
    | ReadonlyAttribute(field: string)  // assigning `fset`/`fdel` of a built `property`
    | CannotSet                         // assignment through a property without setter
    | CannotDelete                      // `del` through a property without deleter
    | Raised(message: string)           // the underlying setter or deleter raised

  /** A built proxy: the member it delegates to (`proxy_to`) and the
      `underlying_getter` it uses to find the object to delegate to. */
  datatype Built<!H, !S> = Built(target: Member<S>, locate: H -> Ref)

  /** The proxy built for `name` as written. The property branch creates the
      property with its getter only and then assigns the setter and the deleter
      onto it; in CPython `fset` and `fdel` of a `property` are read-only
      members, so each of those assignments raises `AttributeError`. */
  function ProxyFactoryAsWritten<H, S>(cls: Class<S>, locate: H -> Ref, name: string): (r: Result<Built<H, S>, Error>)
    ensures name !in cls ==> r == Failure(NoAttribute(name))
    ensures name in cls && cls[name].Method? ==> r.Success? && r.value.target == cls[name]
    ensures name in cls && cls[name].Property? ==>
      (r.Success? <==> cls[name].fset.None? && cls[name].fdel.None?)
    ensures r.Success? ==> r == ProxyFactory(cls, locate, name)
  {
    if name !in cls then Failure(NoAttribute(name))
    else match cls[name]
      case Method(_) => Success(Built(cls[name], locate))
      case Property(fget, fset, fdel) =>
        if fset.Some? then Failure(ReadonlyAttribute("fset"))
        else if fdel.Some? then Failure(ReadonlyAttribute("fdel"))
        else Success(Built(Property(fget, None, None), locate))
  }

  /** The proxy built for `name` as the proxy tests expect: it delegates to
      the class's own member `name`, through the given getter. A property
      proxy therefore has a setter exactly when the underlying property has
      one, and a deleter exactly when it has one. */
  function ProxyFactory<H, S>(cls: Class<S>, locate: H -> Ref, name: string): (r: Result<Built<H, S>, Error>)
    ensures r.Success? <==> name in cls
    ensures r.Failure? ==> r.error == NoAttribute(name)
    ensures r.Success? ==> r.value.target == cls[name] && r.value.locate == locate
    ensures r.Success? ==> (r.value.target.Method? <==> cls[name].Method?)
    ensures r.Success? && cls[name].Property? ==>
      && (r.value.target.fset.Some? <==> cls[name].fset.Some?)
      && (r.value.target.fdel.Some? <==> cls[name].fdel.Some?)
  {
    if name !in cls then Failure(NoAttribute(name))
    else Success(Built(cls[name], locate))
  }

  /** Calling a method proxy on `self` calls the underlying method on the
      object `self` locates, with the same arguments, and returns what it
      returns, value or exception; that object takes the state the method
      leaves and no other object changes. */
  function Call<H, S>(p: Built<H, S>, self: H, heap: Heap<S>, args: Args): (r: (Result<Value, string>, Heap<S>))
    requires p.target.Method?
    requires p.locate(self) in heap
    ensures r.0 == p.target.call(heap[p.locate(self)], args).0
    ensures p.locate(self) in r.1 && r.1[p.locate(self)] == p.target.call(heap[p.locate(self)], args).1
    ensures r.1 - {p.locate(self)} == heap - {p.locate(self)}
  {
    var u := p.locate(self);
    var (out, s) := p.target.call(heap[u], args);
    (out, heap[u := s])
  }

  /** Reading a property proxy on `self` reads the underlying property of the
      object `self` locates. */
  function Get<H, S>(p: Built<H, S>, self: H, heap: Heap<S>): (r: Result<Value, string>)
    requires p.target.Property?
    requires p.locate(self) in heap
    ensures r == p.target.fget(heap[p.locate(self)])
  {
    p.target.fget(heap[p.locate(self)])
  }

  /** Assigning through a property proxy runs the underlying setter on the
      object `self` locates. Without an underlying setter the assignment
      fails with `CannotSet` and nothing changes; a setter that raises makes
      the assignment fail with its exception. Either way the located object
      takes the state the setter leaves, and no other object changes. */
  function Set<H, S>(p: Built<H, S>, self: H, heap: Heap<S>, v: Value): (r: (Outcome<Error>, Heap<S>))
    requires p.target.Property?
    requires p.locate(self) in heap
    ensures r.0 == Fail(CannotSet) <==> p.target.fset.None?
    ensures p.target.fset.None? ==> r.1 == heap
    ensures p.target.fset.Some? ==>
      var (out, s) := p.target.fset.value(heap[p.locate(self)], v);
      && (r.0.Pass? <==> out.Pass?)
      && (out.Fail? ==> r.0 == Fail(Raised(out.error)))
      && p.locate(self) in r.1 && r.1[p.locate(self)] == s
    ensures r.1 - {p.locate(self)} == heap - {p.locate(self)}
  {
    var u := p.locate(self);
    match p.target.fset
    case None => (Fail(CannotSet), heap)
    case Some(fset) =>
      var (out, s) := fset(heap[u], v);
      (if out.Pass? then Pass else Fail(Raised(out.error)), heap[u := s])
  }

  /** Deleting through a property proxy runs the underlying deleter on the
      object `self` locates. Without an underlying deleter the deletion fails
      with `CannotDelete` and nothing changes; a deleter that raises makes the
      deletion fail with its exception. Either way the located object takes
      the state the deleter leaves, and no other object changes. */
  function Delete<H, S>(p: Built<H, S>, self: H, heap: Heap<S>): (r: (Outcome<Error>, Heap<S>))
    requires p.target.Property?
    requires p.locate(self) in heap
    ensures r.0 == Fail(CannotDelete) <==> p.target.fdel.None?
    ensures p.target.fdel.None? ==> r.1 == heap
    ensures p.target.fdel.Some? ==>
      var (out, s) := p.target.fdel.value(heap[p.locate(self)]);
      && (r.0.Pass? <==> out.Pass?)
      && (out.Fail? ==> r.0 == Fail(Raised(out.error)))
      && p.locate(self) in r.1 && r.1[p.locate(self)] == s
    ensures r.1 - {p.locate(self)} == heap - {p.locate(self)}
  {
    var u := p.locate(self);
    match p.target.fdel
    case None => (Fail(CannotDelete), heap)
    case Some(fdel) =>
      var (out, s) := fdel(heap[u]);
      (if out.Pass? then Pass else Fail(Raised(out.error)), heap[u := s])
  }

  // ---- What a proxy built by the factory does, for every class ----

  /** A method proxy returns what the class's own method returns on the
      located object with the same arguments, and leaves that object in the
      state the method leaves it. */
  lemma FactoryCallForwards<H, S>(cls: Class<S>, locate: H -> Ref, name: string, self: H, heap: Heap<S>, args: Args)
    requires name in cls && cls[name].Method?
    requires locate(self) in heap
    ensures ProxyFactory(cls, locate, name).Success?
    ensures var r := Call(ProxyFactory(cls, locate, name).value, self, heap, args);
      && r.0 == cls[name].call(heap[locate(self)], args).0
      && r.1 == heap[locate(self) := cls[name].call(heap[locate(self)], args).1]
  {
  }

  /** A property proxy reads the class's own getter on the located object. */
  lemma FactoryGetForwards<H, S>(cls: Class<S>, locate: H -> Ref, name: string, self: H, heap: Heap<S>)
    requires name in cls && cls[name].Property?
    requires locate(self) in heap
    ensures ProxyFactory(cls, locate, name).Success?
    ensures Get(ProxyFactory(cls, locate, name).value, self, heap) == cls[name].fget(heap[locate(self)])
  {
  }

  /** Assigning through a property proxy runs the class's own setter on the
      located object, when the class has one. */
  lemma FactorySetForwards<H, S>(cls: Class<S>, locate: H -> Ref, name: string, self: H, heap: Heap<S>, v: Value)
    requires name in cls && cls[name].Property? && cls[name].fset.Some?
    requires locate(self) in heap
    ensures ProxyFactory(cls, locate, name).Success?
    ensures var r := Set(ProxyFactory(cls, locate, name).value, self, heap, v);
      && (r.0.Pass? <==> cls[name].fset.value(heap[locate(self)], v).0.Pass?)
      && r.1 == heap[locate(self) := cls[name].fset.value(heap[locate(self)], v).1]
  {
  }

  /** Deleting through a property proxy runs the class's own deleter on the
      located object, when the class has one. */
  lemma FactoryDeleteForwards<H, S>(cls: Class<S>, locate: H -> Ref, name: string, self: H, heap: Heap<S>)
    requires name in cls && cls[name].Property? && cls[name].fdel.Some?
    requires locate(self) in heap
    ensures ProxyFactory(cls, locate, name).Success?
    ensures var r := Delete(ProxyFactory(cls, locate, name).value, self, heap);
      && (r.0.Pass? <==> cls[name].fdel.value(heap[locate(self)]).0.Pass?)
      && r.1 == heap[locate(self) := cls[name].fdel.value(heap[locate(self)]).1]
  {
  }

  // ---- Reads after writes ----

  /** Writing through a proxy on one holder is seen through a proxy on any
      other holder that locates the same underlying object, provided the
      underlying setter completes and its property reads back what it wrote. */
  lemma SetIsSharedThroughUnderlying<H, S>(p: Built<H, S>, a: H, b: H, heap: Heap<S>, v: Value)
    requires p.target.Property? && p.target.fset.Some?
    requires p.locate(a) in heap && p.locate(a) == p.locate(b)
    requires p.target.fset.value(heap[p.locate(a)], v).0.Pass?
    requires p.target.fget(p.target.fset.value(heap[p.locate(a)], v).1) == Success(v)
    ensures Set(p, a, heap, v).0.Pass?
    ensures Get(p, b, Set(p, a, heap, v).1) == Success(v)
  {
  }

  /** Reading after a deletion through a proxy yields the underlying getter
      applied to the state the underlying deleter leaves. */
  lemma GetAfterDelete<H, S>(p: Built<H, S>, self: H, heap: Heap<S>)
    requires p.target.Property? && p.target.fdel.Some?
    requires p.locate(self) in heap
    ensures Get(p, self, Delete(p, self, heap).1) == p.target.fget(p.target.fdel.value(heap[p.locate(self)]).1)
  {
  }

  /** What a property proxy reads depends only on the object its holder
      locates: holders locating the same object read the same value, and
      writes to any other object leave the read unchanged. */
  lemma GetDependsOnlyOnLocated<H, S>(p: Built<H, S>, a: H, b: H, heap: Heap<S>, other: Ref, s: S)
    requires p.target.Property?
    requires p.locate(a) in heap && p.locate(a) == p.locate(b)
    requires other != p.locate(a)
    ensures Get(p, a, heap) == Get(p, b, heap)
    ensures Get(p, a, heap[other := s]) == Get(p, a, heap)
  {
  }

  // ---- The class the proxy tests delegate to ----

  /** The attribute store of an instance of the tests' underlying class. */
  type Instance = Patch.Attrs<Value>

  /** How a call binds the single parameter `arg` of `func(self, arg)`: one
      positional argument, or the keyword `arg` alone; anything else is a
      `TypeError`. */
  function BindArg(a: Args): (r: Option<Value>)
  {
    if |a.positional| == 1 && |a.keyword| == 0 then Some(a.positional[0])
    else if |a.positional| == 0 && a.keyword.Keys == {"arg"} then Some(a.keyword["arg"])
    else None
  }

  /** `func(self, arg)`: returns `arg + 1`; raises when the arguments do not
      bind `arg` or `arg` is not an integer. */
  function UnderlyingFunc(s: Instance, a: Args): (r: (Result<Value, string>, Instance))
  {
    match BindArg(a)
    case Some(Int(i)) => (Success(Int(i + 1)), s)
    case _ => (Failure("TypeError"), s)
  }

  /** The getter of `prop`: the value of attribute `x`. */
  function PropGet(s: Instance): (r: Result<Value, string>)
  {
    if "x" in s then Success(s["x"]) else Failure("AttributeError")
  }

  /** The setter of `prop`: sets `x`. */
  function PropSet(s: Instance, v: Value): (r: (Outcome<string>, Instance))
  {
    (Pass, s["x" := v])
  }

  /** The deleter of `prop`: resets `x` to 1. */
  function PropDel(s: Instance): (r: (Outcome<string>, Instance))
  {
    (Pass, s["x" := Int(1)])
  }

  /** The underlying class: a method `func` and a property `prop` with setter and deleter. */
  function UnderlyingClass(): (c: Class<Instance>)
  {
    map["func" := Method(UnderlyingFunc),
        "prop" := Property(PropGet, Some(PropSet), Some(PropDel))]
  }

  /** The single underlying object `u` every holder delegates to. */
  const U: Ref := 0

  /** The heap right after the underlying object is created: `x == 1`. */
  function FreshHeap(): (h: Heap<Instance>)
  {
    map[U := map["x" := Int(1)]]
  }

  /** The holder's `underlying_getter`, `lambda _: u`. */
  function LocateU<H>(self: H): (r: Ref)
  {
    U
  }

  /** As written, building the `prop` proxy raises, so the proxy tests'
      holder class cannot even be defined. */
  lemma PropertyProxyAsWrittenFails<H>()
    ensures ProxyFactoryAsWritten(UnderlyingClass(), LocateU<H>, "prop") == Failure(ReadonlyAttribute("fset"))
  {
  }

  /** The four proxy tests against the proxies as the tests expect them,
      with `func` also called by keyword. */
  lemma ProxyTests<H>(c: H)
    ensures var f := ProxyFactory(UnderlyingClass(), LocateU<H>, "func");
      && f.Success? && f.value.target.Method?
      && Call(f.value, c, FreshHeap(), Positional([Int(1)])).0 == Success(Int(2))
      && Call(f.value, c, FreshHeap(), Args([], map["arg" := Int(1)])).0 == Success(Int(2))
    ensures var p := ProxyFactory(UnderlyingClass(), LocateU<H>, "prop");
      && p.Success? && p.value.target.Property?
      && Get(p.value, c, FreshHeap()) == Success(Int(1))
      && Set(p.value, c, FreshHeap(), Int(2)).0.Pass?
      && Get(p.value, c, Set(p.value, c, FreshHeap(), Int(2)).1) == Success(Int(2))
      && Delete(p.value, c, Set(p.value, c, FreshHeap(), Int(2)).1).0.Pass?
      && Get(p.value, c, Delete(p.value, c, Set(p.value, c, FreshHeap(), Int(2)).1).1) == Success(Int(1))
  {
  }
}
