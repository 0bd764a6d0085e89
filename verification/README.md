# Specter.py: scoped attribute patching, delegating proxies and the frame registry

Specter.py drives an embedded WebKit browser from Python. Most of it is Qt
plumbing; this project models the three pieces of plain sequential logic
under it and proves their properties in Dafny 4.11:

- `patch(obj, attr, value)` (module `Patch`, `patch.dfy`): a context manager
  that saves an attribute, sets it for the duration of a `with` block, and
  restores it afterwards. An object is its attribute store, a
  `map<string, V>`. Entering and leaving the scope are pure functions over
  that map. The body of the `with` block is a function of the store that
  either completes normally or raises.
- `proxy_factory(type, underlying_getter)` (module `Proxy`, `proxy.dfy`):
  builds, for a member name of a class, a method or property that forwards to
  the same member of an underlying object. Python objects are references, so
  underlying objects live in a heap `map<Ref, S>`. The getter maps the object
  holding the proxies to a reference in that heap.
- `FrameRegistry` (module `Registry`, `registry.dfy`): gives each engine frame
  handle exactly one wrapper object. It is a Dafny class holding a
  `map<Handle, Wrapper>`. Every wrapper is a freshly allocated object that
  records its constructor arguments: the handle, the registry, and the
  registry's extra positional and keyword arguments. The registry's source is
  not part of this model. Its behaviour follows the assertions of
  `specter/tests/test_registry.py`.

Shared pieces: `Wrappers` (`wrappers.dfy`) holds `Option` and `Result`.
`Values` (`values.dfy`) holds the Python values and call arguments that flow
through the model.

## Model

| member | source | states |
|---|---|---|
| Patch.Enter | specter/util.py:46-53 | After entering, the attribute holds the patched value whether or not it existed. Every other attribute is unchanged, both in presence and in value. The saved state records a prior value exactly when `hasattr` was true, and that value is the attribute's old one. |
| Patch.Exit | specter/util.py:56-57 | On leaving, a saved prior value is written back. An attribute that did not exist before is left as the body left it, neither removed nor changed. No other attribute is touched. |
| Patch.With | specter/util.py:45-57 | The whole `with` statement as written. The scope completes normally exactly when the body does. Away from the patched attribute, the result is what the body left. If the attribute existed, normal completion restores its old value, overwriting anything the body assigned. If it did not exist, the result is exactly the body's store. If the body raises, the patched store propagates unrestored. |
| Patch.ExistingAttributeRoundTrip | specter/tests/test_util.py:60-64 | If the attribute existed and the body completes normally touching only that attribute, the object after the scope equals the object before it. |
| Patch.AbsentAttributeSurvivesExit | specter/util.py:47-57 | As written, an attribute that did not exist before the scope still exists after an empty body, holding the patched value. |
| Patch.NonexistentAttributeTest | specter/tests/test_util.py:66-70 | In the nonexistent-attribute test, the object after the scope as written has `nonexisting == 3`, where the test asserts `hasattr` is false. |
| Patch.RaisedBodySkipsRestore | specter/util.py:53-57 | As written, a body that raises leaves the patched value in place, even when the attribute had a different old value to restore. |
| Patch.ExitRestoring | specter/tests/test_util.py:66-70 | The corrected exit writes a saved value back, or removes the attribute when there was none. Nothing else changes. |
| Patch.WithRestoring | specter/tests/test_util.py:60-70 | The corrected scope restores on both normal completion and an exception. Afterwards the attribute holds its old value if it existed and is absent otherwise. Away from the attribute the body's effects stay. |
| Patch.RestoringRoundTrip | specter/tests/test_util.py:60-70 | With the corrected scope, a body touching only the patched attribute leaves the object exactly as it was. This holds whether or not the attribute existed and whether or not the body raised. |
| Patch.NonexistentAttributeTestRestoring | specter/tests/test_util.py:66-70 | The nonexistent-attribute test holds for the corrected scope: the object afterwards has no `nonexisting` attribute. |
| Proxy.ProxyFactoryAsWritten | specter/util.py:14-40 | A name missing from the class fails with `AttributeError`. A method gives a method proxy for that method. A property gives a proxy exactly when it has neither setter nor deleter. Assigning `fset`/`fdel` onto the built property raises. Whenever it succeeds it agrees with the corrected factory. |
| Proxy.ProxyFactory | specter/util.py:5-42 | Succeeds exactly when the class has the name, and otherwise fails with `NoAttribute(name)`. The built proxy delegates to the class's own member `name` through the given getter. A property proxy therefore has a setter exactly when the underlying property has one, and a deleter exactly when it has one. |
| Proxy.Call | specter/util.py:35-38 | Calling a method proxy returns what the underlying method returns, value or exception, when applied to the located object with the same arguments. The located object takes the state the method leaves. |
| Proxy.Get | specter/util.py:18-21 | Reading a property proxy yields the underlying getter applied to the located object. |
| Proxy.Set | specter/util.py:23-27 | Assignment through a property proxy without an underlying setter fails with `CannotSet` and changes nothing. With a setter, it completes exactly when the setter completes, fails with the setter's exception otherwise, and in both cases leaves the located object in the state the setter leaves. |
| Proxy.Delete | specter/util.py:29-33 | Deletion through a property proxy without an underlying deleter fails with `CannotDelete` and changes nothing. With a deleter, it completes exactly when the deleter completes, fails with the deleter's exception otherwise, and in both cases leaves the located object in the state the deleter leaves. |
| Proxy.FactoryCallForwards | specter/util.py:35-38 | For every class, getter and method name, calling the proxy the factory builds gives the class's own method's result on the located object with the same arguments, and the heap with that object replaced by the state the method leaves. |
| Proxy.FactoryGetForwards | specter/util.py:17-21 | For every class, getter and property name, reading the proxy the factory builds gives the class's own getter applied to the located object. |
| Proxy.FactorySetForwards | specter/util.py:23-27 | For every class, getter and property with a setter, assigning through the proxy the factory builds completes exactly when the class's own setter does on the located object, and leaves the heap with that object replaced by the state the setter leaves. |
| Proxy.FactoryDeleteForwards | specter/util.py:29-33 | For every class, getter and property with a deleter, deleting through the proxy the factory builds completes exactly when the class's own deleter does on the located object, and leaves the heap with that object replaced by the state the deleter leaves. |
| Proxy.GetAfterDelete | specter/tests/test_util.py:49-52 | For every property with a deleter, reading after a deletion through the proxy yields the underlying getter applied to the state the underlying deleter leaves; the deleter test is the case where that state has `x == 1`. |
| Proxy.SetIsSharedThroughUnderlying | specter/tests/test_util.py:29-37 | Take two holders whose getter locates the same underlying object, as `lambda _: u` does. A value written through one holder's proxy is read back through the other's, provided the underlying setter completes and the getter reads back what it wrote. |
| Proxy.GetDependsOnlyOnLocated | specter/util.py:18-20 | What a property proxy reads depends only on the object the holder locates. Two holders locating the same object read the same value, and a write to any other object does not change the read. |
| Proxy.PropertyProxyAsWrittenFails | specter/util.py:21-27 | As written, building the proxy for the test class's `prop`, which has a setter, fails with the read-only attribute error. |
| Proxy.ProxyTests | specter/tests/test_util.py:39-52 | With the corrected factory: `func(1) == 2`, and `func(arg=1) == 2`. `prop` reads 1. After `prop = 2` it reads 2. After `del prop` it reads 1 again. |
| Registry.FrameRegistry.Wrap | specter/tests/test_registry.py:21-48 | `wrap(None)` is `None` and changes nothing. A handle seen before returns its stored wrapper and changes nothing. A new handle gets a freshly constructed wrapper, stored under it. The wrapper always records the handle, the registry and the registry's extra arguments. |
| Registry.FrameRegistry.Clear | specter/tests/test_registry.py:50-57 | `clear()` leaves the registry empty and valid. |
| Registry.OneHandlePerWrapper | specter/tests/test_registry.py:42-48 | In a valid registry, two handles that share a wrapper are the same handle. |
| Registry.WrapRecordsArguments | specter/tests/test_registry.py:17-36 | A wrapped handle's wrapper has the handle itself as first argument and the registry itself as second. It then has the registry's extra positional arguments in order, and exactly its keyword arguments. These are empty when none were given. |
| Registry.WrapNone | specter/tests/test_registry.py:38-40 | Wrapping `None` gives `None` and leaves the registry empty. |
| Registry.WrapTwice | specter/tests/test_registry.py:42-48 | Wrapping the same handle twice returns the identical wrapper. |
| Registry.WrapAfterClear | specter/tests/test_registry.py:50-57 | After `clear()`, wrapping the same handle again returns a wrapper distinct from the earlier one, for the same handle. |

## Findings

| source | as written | input that shows it | evidently intended | confidence | as-written member | corrected member |
|---|---|---|---|---|---|---|
| specter/util.py:47-57 | leaving the scope restores only an attribute that existed; one that did not is left set | `patch(obj, 'nonexisting', 3)` with an empty body, on an object without `nonexisting` | the attribute is removed again, as the nonexistent-attribute test asserts | high; not executed | Patch.AbsentAttributeSurvivesExit | Patch.WithRestoring |
| specter/util.py:53-57 | the restore after `yield` is not in a `finally`, so it is skipped when the body raises | `patch(obj, 'val', 2)` on `val == 1` with a body that raises: `val` is still 2 afterwards | the saved state is restored on every exit from the scope | medium; not executed | Patch.RaisedBodySkipsRestore | Patch.WithRestoring |
| specter/util.py:21-33 | the proxy property is built with its getter only, and then `fset`/`fdel` are assigned onto it. These are read-only members of a CPython `property`, so the assignment raises `AttributeError` | `proxy_factory(Underlying, lambda _: u)('prop')` for a property with a setter | a proxy property built with the setter and deleter the underlying property has, `property(fget, fset, fdel)` | high; not executed | Proxy.PropertyProxyAsWrittenFails | Proxy.ProxyFactory |

## Left out

- `Specter` and `SpecterWebPage` in `specter/specter.py` are left out. They cover the Qt application singleton, the WebKit settings, showing the web view and the page-load callbacks, and all of it is calls into Qt.
- `Specter.open` is left out. Choosing the HTTP method looks up an attribute of a Qt enum. Its error path also raises a name the module never defines.
- `Specter.sleep` is left out because it depends on wall-clock time and Qt's event pump.
- `specter/signals.py` is left out. It only declares named signals, and their dispatch belongs to the blinker library, which is not part of this model.
- `specter/exceptions.py` is left out because it is an exception hierarchy with no behaviour.
- The registry's weak keys are not modelled. An entry disappearing when its frame is garbage-collected depends on the collector. The model keeps entries until `clear()`.
- The registry's wrapper class is a parameter in the tests. The model fixes one `Wrapper` class that records its constructor arguments, as the tests' dummy class does.
- Per-call constructor arguments to `wrap` are not modelled. The tests give extra arguments only when creating the registry.
- The implementation of `FrameRegistry` is not part of this model. Its behaviour is taken from its tests.
- `Patch`: `hasattr`/`getattr` also see class attributes, and `setattr` always writes an instance attribute. The model does not separate class from instance attributes.
- `Patch`: a `getattr`/`setattr` that raises, such as a property or `__setattr__` override, is not modelled.
- `Proxy`: `functools.wraps` and copying the property's docstring only affect metadata, so they are left out.
- `Proxy`: the getter, setter and deleter proxies forward `*args`/`**kwargs`, but attribute access never passes any, so they are not modelled.
- `Proxy`: a class attribute that is neither a function nor a property, which the method branch would wrap, is not modelled.
- Proxy.Call: a method sees and changes only the object the proxy locates. A Python method can change any object it reaches; that is not modelled, so "no other object changes" holds by construction of the model.
- Proxy.Set: a setter sees and changes only the object the proxy locates, for the same reason as `Proxy.Call`.
- Proxy.Delete: a deleter sees and changes only the object the proxy locates, for the same reason as `Proxy.Call`.
- Proxy.Get: a getter is a function of the located object's state. A getter that raises is modelled; a getter that changes state is not.
- `Proxy`: an `underlying_getter` that raises is not modelled. The getter is a total function to a live object.
- The navigation, frames, forms, events, selectors, redirection, open, signals, SSL and Qt-message tests are left out. They are end-to-end browser scenarios.
- `setup.py` and the test runner are left out because they are packaging.
