# RubyConstant: the record behind one Ruby constant

This project models `RubyConstant` from TruffleRuby, the record a Ruby module
keeps for each of its named constants, and proves properties of the model in
Dafny (`ruby_constant.dfy`, module `Constants`).

A constant records the module that declared it, a value, and four flags:
private, deprecated, autoload and undefined. Its fields, except the lazily
created autoload lock (left out below), never change after construction. Making a constant private or public, marking it deprecated, and
turning a failed autoload into an undefined constant each build a new record,
except that a transition that would change nothing returns the very same
record.

The model keeps that shape:

- `RubyConstant<O, S>` is a class whose fields are all `const`. `O` stands for
  the identities of Ruby heap objects (modules, strings and other
  `DynamicObject`s) and `S` for the opaque source section.
- The untyped `value` slot is the datatype `Value`: Java null, a Ruby object, or
  some other boxed Java value. Only a Ruby object is seen by the object-graph
  walk.
- The plain getters of the Java class (`getDeclaringModule`, `isPrivate`,
  `isDeprecated`, `getSourceSection`, `isUndefined`, `isAutoload`) are the
  class's `const` fields themselves.
- `Fields()` gathers all fields into one value, so each transition can state
  which field it changes and that all others carry over.
- `Payload()` is the three-way view of the value slot: real value, pending
  autoload or undefined. `Valid()` is the invariant that every constant
  obeys: never both autoload and undefined, and null once undefined. The public
  constructor establishes it and every transition preserves it.
- The transitions are methods. Each returns `this` for a no-op (stated as
  `r == this`) and otherwise a `fresh` object.
- `IsVisibleTo` keeps the source's two loops. It walks the lexical scopes up to
  the root scope, then walks the ancestors. It is proved equal to the
  declarative rule `VisibleTo`.
- `GetAdjacentObjects` adds to a caller-owned set in place. That set is the
  class `ObjectSet`, standing for `java.util.Set`.

The lexical scope argument is `Option<seq<O>>`. `None` is a null scope.
`Some(chain)` lists the live module of each scope from the one the lookup
starts in out to the root scope, which comes last. With this form, the
source's assertion that the starting scope belongs to the looked-up module
becomes the precondition `ScopeOf`. The Java loop reassigns `lexicalScope` and
stops at the root scope, so the test `lexicalScope != null` after it reads
"a scope was supplied at all". The model's local `scope` keeps the same
behaviour.

The runtime context appears only through what it supplies: the root scope is
the end of the chain, and the Object class is the parameter `objectClass`.
`isRubyClass(module)` and the module's ancestor list are also parameters.

A pending autoload's feature path is a Ruby string, which is itself a
`DynamicObject`, so `GetAdjacentObjects` reports it
(RubyConstant.java:144-146, 178-179).

## Model

| member | source | states |
|---|---|---|
| `Constants.RubyConstant.constructor` | src/main/java/org/truffleruby/language/RubyConstant.java:37-39 | the public constructor stores the given fields with `undefined` false, so the result is valid: its payload is a pending autoload when `autoload` holds and the given value otherwise |
| `Constants.RubyConstant.Derived` | src/main/java/org/truffleruby/language/RubyConstant.java:41-50 | the private constructor stores exactly the seven given fields |
| `Constants.RubyConstant.HasValue` | src/main/java/org/truffleruby/language/RubyConstant.java:56-58 | true exactly when the payload is a real value; so never for a pending autoload or an undefined constant |
| `Constants.RubyConstant.GetValue` | src/main/java/org/truffleruby/language/RubyConstant.java:60-63 | callable only when neither autoload nor undefined; the constant then has a value, and the result is the real value its payload holds |
| `Constants.RubyConstant.GetAutoloadPath` | src/main/java/org/truffleruby/language/RubyConstant.java:142-147 | callable only on an autoload constant whose slot holds a Ruby object; the result is the feature path its pending payload holds, and the constant has no value |
| `Constants.RubyConstant.WithPrivate` | src/main/java/org/truffleruby/language/RubyConstant.java:77-83 | the same instance when the flag already has the requested value, otherwise a fresh constant; either way the privacy flag is the requested one, all other fields are unchanged, and validity is kept |
| `Constants.RubyConstant.WithDeprecated` | src/main/java/org/truffleruby/language/RubyConstant.java:85-91 | the same instance when already deprecated, otherwise a fresh constant; either way it is deprecated, all other fields are unchanged, and validity is kept |
| `Constants.RubyConstant.Undefined` | src/main/java/org/truffleruby/language/RubyConstant.java:93-96 | callable only on an autoload constant; a fresh constant with a null value, not autoload, undefined, with no value and an undefined payload, valid whatever the input; declaring module, privacy, deprecation and source section carry over |
| `Constants.RubyConstant.WithDeprecatedTwice` | src/main/java/org/truffleruby/language/RubyConstant.java:85-91 | deprecating twice gives back the object the first deprecation gave, which is deprecated and otherwise equal to the original; an already deprecated constant comes back as itself |
| `Constants.RubyConstant.PrivacyRoundTrip` | src/main/java/org/truffleruby/language/RubyConstant.java:77-83 | setting the privacy flag and then restoring the old one gives back every original field; when the first call is a no-op, both calls return the original instance |
| `Constants.RubyConstant.IsVisibleTo` | src/main/java/org/truffleruby/language/RubyConstant.java:99-132 | for a scope that belongs to the looked-up module, the result holds exactly when `VisibleTo` does: the constant is public; or its declaring module is the live module of a supplied scope below the root; or the looked-up module is a class with the declaring module among its ancestors and is not the declaring module itself; or a scope was supplied and the declaring module is Object. Consequences stated too: a public constant is always visible; a declaring module sees its own private constant from a scope below the root; with no scope it does not, since a module is not its own ancestor here; an unrelated module does not see it |
| `Constants.RubyConstant.GetAdjacentObjects` | src/main/java/org/truffleruby/language/RubyConstant.java:177-181 | adds the value to the caller's set when it is a Ruby object and otherwise leaves the set unchanged; nothing else is added or removed; an autoload's feature path is added; a valid undefined constant adds nothing |

## Left out

- Autoload locking (`autoloadLock`, `getAutoloadLock`, `startAutoLoad`, `stopAutoLoad`, `isAutoloading`, `isAutoloadingThread`): it is blocking, reentrant locking across threads built on `java.util.concurrent.locks.ReentrantLock` and `synchronized`, a concurrency primitive outside this model. The only observable fact tied to the transitions is that the private constructor never copies the lock, so every derived constant starts with none.
- Runtime type assertions (`isRubyModule` on the declaring and looked-up modules, `isRubyString` on the feature path): modules and strings are opaque identities here. `GetAutoloadPath` keeps, of the `isRubyString` assertion at line 145, only that the slot holds a Ruby object; that is stronger than the cast at line 146, which would also let null through.
- The runtime context, lexical scope objects, module fields and the ancestor computation: replaced by the parameters described above. The chain's ending at the root scope is taken as given, as the Java loop relies on it.
- `SourceSection` is an opaque type parameter. It is only stored and copied.
- `@TruffleBoundary` and `volatile`: compiler and memory-model concerns with no effect on results.
