/** The record a Ruby module keeps for one named constant: the module that
    declared it, its value, and the flags private, deprecated, autoload and
    undefined. Apart from a lazily created autoload lock, which this model
    leaves out, the record never changes after construction; privacy,
    deprecation and the "undefined after a failed autoload" state are
    obtained by building a new record, or by returning the same record when
    nothing would change. */
module Constants {

  datatype Option<T> = None | Some(value: T)

  /** What the untyped `value` slot of a constant can hold: Java null, a
      Ruby heap object (a DynamicObject, identified by O), or any other Java
      object, such as a boxed integer, float or boolean, identified by an
      opaque code. Only the second kind is traced by the object graph. */
  datatype Value<O> = Null | Dynamic(obj: O) | Boxed(code: int)

  /** All fields of a constant as one value, so that a transition can say
      which field it changes and that all others stay as they were. */
  datatype ConstantFields<O, S> = ConstantFields(
    declaringModule: O,
    value: Value<O>,
    isPrivate: bool,
    isDeprecated: bool,
    autoload: bool,
    undefined: bool,
    sourceSection: S)

  /** The three mutually exclusive states of a constant's payload: a real
      value, an autoload still to run (the slot holds the feature path), or
      undefined (the autoload ran and did not define the name). */
  datatype ConstantPayload<O> =
    | RealValue(v: Value<O>)
    | AutoloadPending(feature: Value<O>)
    | NoValue

  /** java.util.Set<DynamicObject> as the object-graph walker passes it in:
      a set that callees add to in place. */
  class ObjectSet<O(==)> {
    var elements: set<O>

    method Add(o: O)
      modifies this
      ensures elements == old(elements) + {o}
    {
      elements := elements + {o};
    }
  }

  class RubyConstant<O(==), S> {
    const declaringModule: O
    const value: Value<O>
    const isPrivate: bool
    const isDeprecated: bool
    const autoload: bool
    const undefined: bool
    const sourceSection: S

    /** Holds of every constant built by the public constructor and the
        three transitions: never both autoload and undefined, and an
        undefined constant holds null. */
    ghost predicate Valid() {
      !(autoload && undefined) && (undefined ==> value == Null)
    }

    function Fields(): ConstantFields<O, S> {
      ConstantFields(declaringModule, value, isPrivate, isDeprecated, autoload, undefined, sourceSection)
    }

    /** The payload this constant's flags select. The autoload flag is read
        first, as getAutoloadPath does; for a valid constant the order does
        not matter. */
    ghost function Payload(): ConstantPayload<O> {
      if autoload then AutoloadPending(value)
      else if undefined then NoValue
      else RealValue(value)
    }

    /** The public constructor: a constant with a value or a pending
        autoload, never an undefined one. */
    constructor (declaringModule: O, value: Value<O>, isPrivate: bool, autoload: bool,
                 isDeprecated: bool, sourceSection: S)
      ensures Fields() == ConstantFields(declaringModule, value, isPrivate, isDeprecated,
                                         autoload, false, sourceSection)
      ensures Valid() && !undefined
      ensures autoload ==> Payload() == AutoloadPending(value)
      ensures !autoload ==> Payload() == RealValue(value)
    {
      this.declaringModule := declaringModule;
      this.value := value;
      this.isPrivate := isPrivate;
      this.isDeprecated := isDeprecated;
      this.autoload := autoload;
      this.undefined := false;
      this.sourceSection := sourceSection;
    }

    /** The constructor the transitions use, which also sets `undefined`. */
    constructor Derived(declaringModule: O, value: Value<O>, isPrivate: bool, autoload: bool,
                        undefined: bool, isDeprecated: bool, sourceSection: S)
      ensures Fields() == ConstantFields(declaringModule, value, isPrivate, isDeprecated,
                                         autoload, undefined, sourceSection)
    {
      this.declaringModule := declaringModule;
      this.value := value;
      this.isPrivate := isPrivate;
      this.isDeprecated := isDeprecated;
      this.autoload := autoload;
      this.undefined := undefined;
      this.sourceSection := sourceSection;
    }

    /** A constant has a value exactly when its payload is a real value:
        never while an autoload is pending and never once undefined. */
    function HasValue(): (r: bool)
      ensures r <==> Payload().RealValue?
      ensures r ==> Payload() == RealValue(value)
    {
      !autoload && !undefined
    }

    /** Only a constant with a value may be read; what is read is that
        value. */
    function GetValue(): (r: Value<O>)
      requires !autoload && !undefined
      ensures HasValue() && Payload() == RealValue(r)
    {
      value
    }

    /** Only an autoload constant has a feature path; the path is the Ruby
        string kept in the value slot. */
    function GetAutoloadPath(): (r: O)
      requires autoload
      requires value.Dynamic?
      ensures Payload() == AutoloadPending(Dynamic(r))
      ensures !HasValue()
    {
      value.obj
    }

    /** The same constant when the flag is already `isPrivate'`, otherwise a
        new constant that differs in the privacy flag alone. */
    method WithPrivate(isPrivate': bool) returns (r: RubyConstant<O, S>)
      ensures isPrivate' == isPrivate ==> r == this
      ensures isPrivate' != isPrivate ==> fresh(r)
      ensures r.Fields() == Fields().(isPrivate := isPrivate')
      ensures r.Valid() <==> Valid()
    {
      if isPrivate' == isPrivate {
        r := this;
      } else {
        r := new RubyConstant.Derived(declaringModule, value, isPrivate', autoload, undefined,
                                      isDeprecated, sourceSection);
      }
    }

    /** The same constant when already deprecated, otherwise a new constant
        that differs in being deprecated and in nothing else. */
    method WithDeprecated() returns (r: RubyConstant<O, S>)
      ensures isDeprecated ==> r == this
      ensures !isDeprecated ==> fresh(r)
      ensures r.Fields() == Fields().(isDeprecated := true)
      ensures r.Valid() <==> Valid()
    {
      if isDeprecated {
        r := this;
      } else {
        r := new RubyConstant.Derived(declaringModule, value, isPrivate, autoload, undefined,
                                      true, sourceSection);
      }
    }

    /** The state an autoload constant enters when loading its file did not
        define it: no value, no longer autoload, undefined. Declaring
        module, privacy, deprecation and source section carry over. */
    method Undefined() returns (r: RubyConstant<O, S>)
      requires autoload
      ensures fresh(r)
      ensures r.Fields() == Fields().(value := Null, autoload := false, undefined := true)
      ensures r.Valid() && r.Payload() == NoValue && !r.HasValue()
    {
      r := new RubyConstant.Derived(declaringModule, Null, isPrivate, false, true,
                                    isDeprecated, sourceSection);
    }

    /** Deprecating a constant twice gives back the result of deprecating it
        once, and that result is deprecated. */
    method WithDeprecatedTwice() returns (once: RubyConstant<O, S>, twice: RubyConstant<O, S>)
      ensures twice == once && twice.isDeprecated
      ensures twice.Fields() == Fields().(isDeprecated := true)
      ensures isDeprecated ==> once == this
    {
      once := WithDeprecated();
      twice := once.WithDeprecated();
    }

    /** Setting the privacy flag and then setting it back restores every
        field; when the first call changes nothing, both return this very
        constant. */
    method PrivacyRoundTrip(isPrivate': bool) returns (set': RubyConstant<O, S>, restored: RubyConstant<O, S>)
      ensures set'.isPrivate == isPrivate'
      ensures restored.Fields() == Fields()
      ensures isPrivate' == isPrivate ==> set' == this && restored == this
    {
      set' := WithPrivate(isPrivate');
      restored := set'.WithPrivate(isPrivate);
    }

    /** Whether this constant may be seen from a lookup made in
        `lookupModule`, optionally from a lexical scope.

        `lexicalScope`, when present, lists the live modules of the scopes
        from the one the lookup starts in out to the root scope, which comes
        last. `ancestors` is the ancestor list of `lookupModule`, consulted only
        when `isRubyClass` says that `lookupModule` is a class, and `objectClass`
        is the core library's Object class. */
    ghost predicate VisibleTo(lexicalScope: Option<seq<O>>, lookupModule: O, isRubyClass: bool,
                              ancestors: seq<O>, objectClass: O)
    {
      || !isPrivate
      || (lexicalScope.Some? &&
          exists i :: 0 <= i < |lexicalScope.value| - 1 && lexicalScope.value[i] == declaringModule)
      || (isRubyClass && declaringModule != lookupModule && declaringModule in ancestors)
      || (lexicalScope.Some? && declaringModule == objectClass)
    }

    /** A lexical scope, when given, belongs to the module the lookup is made
        in: the chain is not empty and starts with `lookupModule`. That the
        chain ends with the root scope is how the chain is represented, not
        something this predicate checks. */
    predicate ScopeOf(lexicalScope: Option<seq<O>>, lookupModule: O) {
      lexicalScope.Some? ==> |lexicalScope.value| > 0 && lexicalScope.value[0] == lookupModule
    }

    method IsVisibleTo(lexicalScope: Option<seq<O>>, lookupModule: O, isRubyClass: bool,
                       ancestors: seq<O>, objectClass: O) returns (visible: bool)
      requires ScopeOf(lexicalScope, lookupModule)
      ensures visible <==> VisibleTo(lexicalScope, lookupModule, isRubyClass, ancestors, objectClass)
      // a public constant is visible from everywhere
      ensures !isPrivate ==> visible
      // the declaring module sees its own private constants from any scope
      // nested in it below the root
      ensures lexicalScope.Some? && |lexicalScope.value| > 1 && lookupModule == declaringModule ==> visible
      // a module is not its own ancestor for this purpose
      ensures isPrivate && lexicalScope.None? && lookupModule == declaringModule ==> !visible
      // a module unrelated to the declaring one, by nesting, ancestry or
      // Object, does not see a private constant
      ensures isPrivate && declaringModule !in ancestors && declaringModule != objectClass &&
              (lexicalScope.Some? ==> declaringModule !in lexicalScope.value[..|lexicalScope.value| - 1])
              ==> !visible
    {
      if !isPrivate {
        return true;
      }

      // Walk the lexical scopes out to, but not into, the root scope.
      var scope := lexicalScope;
      if scope.Some? {
        while |scope.value| > 1
          invariant scope.Some? && 0 < |scope.value| <= |lexicalScope.value|
          invariant scope.value == lexicalScope.value[|lexicalScope.value| - |scope.value|..]
          invariant forall i :: 0 <= i < |lexicalScope.value| - |scope.value| ==>
                      lexicalScope.value[i] != declaringModule
          decreases |scope.value|
        {
          if scope.value[0] == declaringModule {
            return true;
          }
          scope := Some(scope.value[1..]);
        }
      }

      // Walk the ancestors, skipping the module itself.
      if isRubyClass {
        for i := 0 to |ancestors|
          invariant forall j :: 0 <= j < i ==> ancestors[j] == lookupModule || ancestors[j] != declaringModule
        {
          var included := ancestors[i];
          if included != lookupModule && included == declaringModule {
            return true;
          }
        }
      }

      // The walk leaves the root scope in `scope`, so this asks whether a
      // lexical scope was supplied at all.
      if scope.Some? && objectClass == declaringModule {
        return true;
      }

      return false;
    }

    /** Reports the constant's outgoing reference to the object-graph walker
        by adding the value to `adjacent` when it is a Ruby object; this
        includes an autoload's feature path, while an undefined constant
        holds null and adds nothing. */
    method GetAdjacentObjects(adjacent: ObjectSet<O>)
      modifies adjacent
      ensures value.Dynamic? ==> adjacent.elements == old(adjacent.elements) + {value.obj}
      ensures !value.Dynamic? ==> adjacent.elements == old(adjacent.elements)
      ensures autoload && value.Dynamic? ==> GetAutoloadPath() in adjacent.elements
      ensures Valid() && undefined ==> adjacent.elements == old(adjacent.elements)
    {
      if value.Dynamic? {
        adjacent.Add(value.obj);
      }
    }
  }
}
