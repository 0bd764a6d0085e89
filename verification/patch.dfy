/** The `patch(obj, attr, value)` context manager of specter/util.py: save the
    attribute if the object has one, set it to `value`, run the body of the
    `with` block, and on normal completion put the saved value back.

    An object is modelled by its attribute store, a finite map from attribute
    name to value; `hasattr` is key membership, `getattr` is lookup, `setattr`
    is map update. The body of the `with` block is a function of the store it
    starts from, which either completes normally or raises, in both cases
    leaving some store behind. */
module Patch {
  import opened Wrappers

  /** The attributes of one Python object. */
  type Attrs<V> = map<string, V>

  /** What the scope remembers between entering and leaving: the attribute
      name and, when the object had that attribute, its value. */
  datatype Saved<V> = Saved(attr: string, prior: Option<V>)

  /** The store the body runs on, and what leaving the scope will need. */
  datatype Entered<V> = Entered(store: Attrs<V>, saved: Saved<V>)

  /** How the body of the `with` block ended, and the store it left. */
  datatype Ending<V> = Normal(store: Attrs<V>) | Raised(store: Attrs<V>)

  /** True when `a` and `b` agree on every attribute except `attr`, both on
      which attributes exist and on their values. */
  predicate SameExcept<V(==)>(a: Attrs<V>, b: Attrs<V>, attr: string)
  {
    a - {attr} == b - {attr}
  }

  /** Entering the scope: record whether `attr` exists and its value, then set it. */
  function Enter<V(==)>(obj: Attrs<V>, attr: string, value: V): (r: Entered<V>)
    ensures attr in r.store && r.store[attr] == value
    ensures SameExcept(obj, r.store, attr)
    ensures r.saved.attr == attr
    ensures r.saved.prior.Some? <==> attr in obj
    ensures r.saved.prior.Some? ==> r.saved.prior.value == obj[attr]
  {
    var prior := if attr in obj then Some(obj[attr]) else None;
    Entered(obj[attr := value], Saved(attr, prior))
  }

  /** Leaving the scope normally, as written: the saved value is written back
      when there was one; an attribute that did not exist before is left as it is. */
  function Exit<V(==)>(store: Attrs<V>, saved: Saved<V>): (r: Attrs<V>)
    ensures SameExcept(store, r, saved.attr)
    ensures saved.prior.Some? ==> saved.attr in r && r[saved.attr] == saved.prior.value
    ensures saved.prior.None? ==> (saved.attr in r <==> saved.attr in store)
    ensures saved.prior.None? && saved.attr in store ==> r[saved.attr] == store[saved.attr]
  {
    match saved.prior
    case Some(prior) => store[saved.attr := prior]
    case None => store
  }

  /** The whole `with patch(obj, attr, value): body` statement as written.
      Restoration runs only when the body completes normally: there is no
      `try`/`finally` around the `yield`, so an exception propagates out of
      the scope with the patched store in place. */
  function With<V(==)>(obj: Attrs<V>, attr: string, value: V, body: Attrs<V> -> Ending<V>): (r: Ending<V>)
    ensures r.Normal? <==> body(Enter(obj, attr, value).store).Normal?
    ensures SameExcept(r.store, body(Enter(obj, attr, value).store).store, attr)
    ensures r.Normal? && attr in obj ==> attr in r.store && r.store[attr] == obj[attr]
    ensures r.Normal? && attr !in obj ==> r == body(Enter(obj, attr, value).store)
    ensures r.Raised? ==> r == body(Enter(obj, attr, value).store)
  {
    var e := Enter(obj, attr, value);
    match body(e.store)
    case Normal(s) => Normal(Exit(s, e.saved))
    case Raised(s) => Raised(s)
  }

  /** The body that does nothing: `with patch(...): pass`. */
  function EmptyBody<V(==)>(s: Attrs<V>): (r: Ending<V>)
  {
    Normal(s)
  }

  /** Two stores that agree away from `attr` and also on `attr` are equal. */
  lemma SameExceptAndOnAttr<V>(a: Attrs<V>, b: Attrs<V>, attr: string)
    requires SameExcept(a, b, attr)
    requires attr in a <==> attr in b
    requires attr in a ==> a[attr] == b[attr]
    ensures a == b
  {
    forall k | k != attr
      ensures k in a <==> k in b
      ensures k in a ==> a[k] == b[k]
    {
      assert k in a <==> k in a - {attr};
      assert k in b <==> k in b - {attr};
      if k in a {
        assert a[k] == (a - {attr})[k] == (b - {attr})[k] == b[k];
      }
    }
  }

  /** A body that touches only `attr`. */
  ghost predicate TouchesOnly<V>(body: Attrs<V> -> Ending<V>, s: Attrs<V>, attr: string)
  {
    SameExcept(s, body(s).store, attr)
  }

  /** When the attribute existed, a normally completing body that touches
      only that attribute leaves the object exactly as it was found,
      whatever the body assigned to the attribute meanwhile. */
  lemma ExistingAttributeRoundTrip<V>(obj: Attrs<V>, attr: string, value: V, body: Attrs<V> -> Ending<V>)
    requires attr in obj
    requires body(Enter(obj, attr, value).store).Normal?
    requires TouchesOnly(body, Enter(obj, attr, value).store, attr)
    ensures With(obj, attr, value, body) == Normal(obj)
  {
    var e := Enter(obj, attr, value);
    var r := With(obj, attr, value, body);
    assert SameExcept(obj, r.store, attr) by {
      assert SameExcept(obj, e.store, attr);
      assert SameExcept(e.store, body(e.store).store, attr);
      assert SameExcept(body(e.store).store, r.store, attr);
    }
    SameExceptAndOnAttr(obj, r.store, attr);
  }

  /** As written, an attribute that did not exist before the scope still
      exists after it, holding the patched value; the nonexistent-attribute
      test expects `hasattr` to be false at that point. */
  lemma AbsentAttributeSurvivesExit<V>(obj: Attrs<V>, attr: string, value: V)
    requires attr !in obj
    ensures With(obj, attr, value, EmptyBody).Normal?
    ensures attr in With(obj, attr, value, EmptyBody).store
    ensures With(obj, attr, value, EmptyBody).store[attr] == value
  {
  }

  /** The nonexistent-attribute test, stated against the model: after the scope the
      object has `nonexisting == 3` instead of no such attribute. */
  lemma NonexistentAttributeTest()
    ensures With(map["val" := 1], "nonexisting", 3, EmptyBody) == Normal(map["val" := 1, "nonexisting" := 3])
  {
  }

  /** As written, a body that raises leaves the patched value in place even
      when the attribute had a value to restore. */
  lemma RaisedBodySkipsRestore<V>(obj: Attrs<V>, attr: string, value: V, prior: V)
    requires attr in obj && obj[attr] == prior && prior != value
    ensures var r := With(obj, attr, value, (s: Attrs<V>) => Raised(s));
      r.Raised? && attr in r.store && r.store[attr] == value && r.store[attr] != prior
  {
  }

  /** Leaving the scope as the nonexistent-attribute test expects: restore
      the saved value, or delete the attribute when there was none. */
  function ExitRestoring<V(==)>(store: Attrs<V>, saved: Saved<V>): (r: Attrs<V>)
    ensures SameExcept(store, r, saved.attr)
    ensures saved.prior.Some? ==> saved.attr in r && r[saved.attr] == saved.prior.value
    ensures saved.prior.None? ==> saved.attr !in r
  {
    match saved.prior
    case Some(prior) => store[saved.attr := prior]
    case None => store - {saved.attr}
  }

  /** The scope with guaranteed restoration: the restore step runs on both
      normal completion and an exception, as a `try`/`finally` around the
      `yield` would, and an attribute that did not exist is removed again. */
  function WithRestoring<V(==)>(obj: Attrs<V>, attr: string, value: V, body: Attrs<V> -> Ending<V>): (r: Ending<V>)
    ensures r.Normal? <==> body(Enter(obj, attr, value).store).Normal?
    ensures SameExcept(r.store, body(Enter(obj, attr, value).store).store, attr)
    ensures attr in obj ==> attr in r.store && r.store[attr] == obj[attr]
    ensures attr !in obj ==> attr !in r.store
  {
    var e := Enter(obj, attr, value);
    match body(e.store)
    case Normal(s) => Normal(ExitRestoring(s, e.saved))
    case Raised(s) => Raised(ExitRestoring(s, e.saved))
  }

  /** With guaranteed restoration, a body that touches only the patched
      attribute leaves the object exactly as it was found, whether the
      attribute existed or not and whether the body raised or not. */
  lemma RestoringRoundTrip<V>(obj: Attrs<V>, attr: string, value: V, body: Attrs<V> -> Ending<V>)
    requires TouchesOnly(body, Enter(obj, attr, value).store, attr)
    ensures WithRestoring(obj, attr, value, body).store == obj
  {
    var e := Enter(obj, attr, value);
    var r := WithRestoring(obj, attr, value, body);
    assert SameExcept(obj, r.store, attr) by {
      assert SameExcept(obj, e.store, attr);
      assert SameExcept(e.store, body(e.store).store, attr);
      assert SameExcept(body(e.store).store, r.store, attr);
    }
    SameExceptAndOnAttr(obj, r.store, attr);
  }

  /** The nonexistent-attribute test passes against the restoring scope. */
  lemma NonexistentAttributeTestRestoring()
    ensures WithRestoring(map["val" := 1], "nonexisting", 3, EmptyBody) == Normal(map["val" := 1])
  {
  }
}
