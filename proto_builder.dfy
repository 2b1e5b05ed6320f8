/**
 * XHRWrapperProtoBuilder (src/XHRWrapperProtoBuilder.js): turns lists of member names into
 * members of the wrapper prototype, using the factory's closures. Methods are written by plain
 * assignment, properties by `Object.defineProperty` with a getter and an optional setter.
 */
module ProtoBuilders {
  import opened JsValues
  import PropMethodFactories

  /** Which setter an accessor built by a factory has. */
  datatype SetterKind = NoSetter | PropertySetter | EventSetter

  /**
   * A member of the prototype: a data property, or an accessor property whose getter is the
   * factory's `createPropGetter(name)` and whose setter, if any, is its `createPropSetter(name)`
   * or `createEvtPropSetter(name)`.
   */
  datatype Member =
    | DataMember(value: Value)
    | Accessor(factory: Factory, name: string, setter: SetterKind)

  /** The setter closure of an accessor. */
  function SetterOf(m: Member): Option<Closure>
    requires m.Accessor?
  {
    match m.setter
    case NoSetter => None
    case PropertySetter => Some(PropSetter(m.factory, m.name))
    case EventSetter => Some(EvtPropSetter(m.factory, m.name))
  }

  /** The prototype being built: its members by name. */
  class Prototype {
    var members: map<string, Member>

    constructor ()
      ensures members == map[]
    {
      members := map[];
    }
  }

  /** The four `build*` members of the builder. */
  datatype BuildKind = Methods | EventProperties | ReadWriteProperties | ReadOnlyProperties

  /** The member a `build*` call gives to one listed name. */
  function MemberFor(kind: BuildKind, f: Factory, name: string): Member {
    match kind
    case Methods => DataMember(ClosureFn(MethodFn(f, name)))
    case EventProperties => Accessor(f, name, EventSetter)
    case ReadWriteProperties => Accessor(f, name, PropertySetter)
    case ReadOnlyProperties => Accessor(f, name, NoSetter)
  }

  predicate IsAccessor(m: map<string, Member>, name: string) {
    name in m && m[name].Accessor?
  }

  predicate HasSetter(m: map<string, Member>, name: string) {
    IsAccessor(m, name) && !m[name].setter.NoSetter?
  }

  /** The members after some writes, and the error that stopped them, if any. */
  datatype Built = Built(members: map<string, Member>, error: Option<JsError>)

  /**
   * The error a factory setter throws when it runs with the prototype itself as `this`: the
   * prototype has no `impl`, so the native primitives fail on `undefined`, and the abstract
   * primitives fail first.
   */
  function SetterError(f: Factory): JsError {
    if f.kind == AbstractBase && !f.debug then NotImplemented else TypeError
  }

  /**
   * `proto[name] = value`. An accessor with a setter runs the setter on the prototype (which
   * throws); an accessor without one ignores the assignment; otherwise the data property is set.
   */
  function AssignMember(m: map<string, Member>, name: string, value: Value): (r: Built)
    ensures r.error.Some? <==> HasSetter(m, name)
    ensures IsAccessor(m, name) ==> r.members == m
    ensures !IsAccessor(m, name) ==> r.members == m[name := DataMember(value)]
    ensures forall n :: n != name ==> (n in r.members <==> n in m) && (n in m ==> r.members[n] == m[n])
  {
    if IsAccessor(m, name) then
      if m[name].setter.NoSetter? then Built(m, None) else Built(m, Some(SetterError(m[name].factory)))
    else Built(m[name := DataMember(value)], None)
  }

  /**
   * `Object.defineProperty(proto, name, {get, set})`. Such a property is not configurable, so
   * defining an accessor over an existing one throws (the factory's closures are fresh
   * functions, never the ones already installed); a data property is replaced.
   */
  function DefineAccessor(m: map<string, Member>, name: string, accessor: Member): (r: Built)
    ensures r.error.Some? <==> IsAccessor(m, name)
    ensures r.error.Some? ==> r.error == Some(TypeError) && r.members == m
    ensures r.error.None? ==> r.members == m[name := accessor]
  {
    if IsAccessor(m, name) then Built(m, Some(TypeError)) else Built(m[name := accessor], None)
  }

  /** One iteration of a `build*` loop. */
  function Step(kind: BuildKind, f: Factory, m: map<string, Member>, name: string): Built {
    if kind == Methods then AssignMember(m, name, ClosureFn(MethodFn(f, name)))
    else DefineAccessor(m, name, MemberFor(kind, f, name))
  }

  /** A whole `build*` call: the loop over the names, stopped by the first throw. */
  function BuildSpec(kind: BuildKind, f: Factory, m: map<string, Member>, names: seq<string>): Built
    decreases |names|
  {
    if names == [] then Built(m, None)
    else
      var p := BuildSpec(kind, f, m, names[..|names| - 1]);
      if p.error.Some? then p else Step(kind, f, p.members, names[|names| - 1])
  }

  /** The builder: a factory and the prototype it fills. */
  class ProtoBuilder {
    const factory: Factory
    const proto: Prototype

    constructor (factory: Factory, proto: Prototype)
      ensures this.factory == factory && this.proto == proto
    {
      this.factory := factory;
      this.proto := proto;
    }

    /** The loop shared by the four `build*` members; on success it returns the builder, for chaining. */
    method Build(kind: BuildKind, names: seq<string>) returns (r: Result<ProtoBuilder>)
      modifies proto
      ensures var b := BuildSpec(kind, factory, old(proto.members), names);
        && proto.members == b.members
        && (b.error.None? ==> r == Ok(this))
        && (b.error.Some? ==> r == Err(b.error.value))
    {
      var i := 0;
      while i < |names|
        invariant 0 <= i <= |names|
        invariant BuildSpec(kind, factory, old(proto.members), names[..i]) == Built(proto.members, None)
      {
        var s := Step(kind, factory, proto.members, names[i]);
        assert names[..i + 1][..i] == names[..i];
        proto.members := s.members;
        if s.error.Some? {
          BuildStopsAtError(kind, factory, old(proto.members), names, i + 1);
          return Err(s.error.value);
        }
        i := i + 1;
      }
      assert names[..|names|] == names;
      r := Ok(this);
    }

    /** `buildMethods(names...)`. */
    method BuildMethods(names: seq<string>) returns (r: Result<ProtoBuilder>)
      modifies proto
      ensures var b := BuildSpec(Methods, factory, old(proto.members), names);
        proto.members == b.members && r == (if b.error.None? then Ok(this) else Err(b.error.value))
    {
      r := Build(Methods, names);
    }

    /** `buildEventProperties(names...)`. */
    method BuildEventProperties(names: seq<string>) returns (r: Result<ProtoBuilder>)
      modifies proto
      ensures var b := BuildSpec(EventProperties, factory, old(proto.members), names);
        proto.members == b.members && r == (if b.error.None? then Ok(this) else Err(b.error.value))
    {
      r := Build(EventProperties, names);
    }

    /** `buildReadWriteProperties(names...)`. */
    method BuildReadWriteProperties(names: seq<string>) returns (r: Result<ProtoBuilder>)
      modifies proto
      ensures var b := BuildSpec(ReadWriteProperties, factory, old(proto.members), names);
        proto.members == b.members && r == (if b.error.None? then Ok(this) else Err(b.error.value))
    {
      r := Build(ReadWriteProperties, names);
    }

    /** `buildReadOnlyProperties(names...)`. */
    method BuildReadOnlyProperties(names: seq<string>) returns (r: Result<ProtoBuilder>)
      modifies proto
      ensures var b := BuildSpec(ReadOnlyProperties, factory, old(proto.members), names);
        proto.members == b.members && r == (if b.error.None? then Ok(this) else Err(b.error.value))
    {
      r := Build(ReadOnlyProperties, names);
    }
  }

  // ---------------------------------------------------------------- properties

  /** Once the loop has thrown, the rest of the names are not looked at. */
  lemma {:induction false} BuildStopsAtError(kind: BuildKind, f: Factory, m: map<string, Member>, names: seq<string>, k: nat)
    requires k <= |names| && BuildSpec(kind, f, m, names[..k]).error.Some?
    ensures BuildSpec(kind, f, m, names) == BuildSpec(kind, f, m, names[..k])
    decreases |names|
  {
    if k == |names| {
      assert names[..k] == names;
    } else {
      var front := names[..|names| - 1];
      assert front[..k] == names[..k];
      BuildStopsAtError(kind, f, m, front, k);
    }
  }

  /** A `build*` call never touches a name it was not given, whether or not it throws. */
  lemma {:induction false} BuildLeavesOthers(kind: BuildKind, f: Factory, m: map<string, Member>, names: seq<string>)
    ensures var r := BuildSpec(kind, f, m, names);
      forall n :: n !in names ==> (n in r.members <==> n in m) && (n in m ==> r.members[n] == m[n])
    decreases |names|
  {
    if names != [] {
      var front := names[..|names| - 1];
      BuildLeavesOthers(kind, f, m, front);
    }
  }

  /**
   * The property builders succeed exactly when the names are distinct and none of them is
   * already an accessor; then every listed name has the kind's getter and setter.
   */
  lemma {:induction false} DefinePropertiesIff(kind: BuildKind, f: Factory, m: map<string, Member>, names: seq<string>)
    requires kind != Methods
    ensures var r := BuildSpec(kind, f, m, names);
      && (r.error.None? <==> Distinct(names) && forall i :: 0 <= i < |names| ==> !IsAccessor(m, names[i]))
      && (r.error.None? ==> forall n :: n in names ==> n in r.members && r.members[n] == MemberFor(kind, f, n))
      && (r.error.Some? ==> r.error == Some(TypeError))
    decreases |names|
  {
    if names != [] {
      var front, x := names[..|names| - 1], names[|names| - 1];
      assert names == front + [x];
      DefinePropertiesIff(kind, f, m, front);
      BuildLeavesOthers(kind, f, m, front);
      var p := BuildSpec(kind, f, m, front);
      if p.error.None? {
        if x in front {
          var i :| 0 <= i < |front| && front[i] == x;
          assert names[i] == names[|names| - 1];
        } else {
          assert Distinct(names) <==> Distinct(front);
        }
      } else {
        assert !(Distinct(front) && forall i :: 0 <= i < |front| ==> !IsAccessor(m, front[i]));
      }
    }
  }

  /**
   * `buildMethods` throws exactly when a listed name is already an accessor with a setter; on
   * success every listed name that was not an accessor holds the factory's method, and an
   * accessor without setter is left as it was (the assignment is ignored).
   */
  lemma {:induction false} BuildMethodsIff(f: Factory, m: map<string, Member>, names: seq<string>)
    ensures var r := BuildSpec(Methods, f, m, names);
      && (r.error.None? <==> forall i :: 0 <= i < |names| ==> !HasSetter(m, names[i]))
      && (r.error.None? ==> forall n :: n in names && !IsAccessor(m, n) ==> n in r.members && r.members[n] == MemberFor(Methods, f, n))
      && (r.error.None? ==> forall n :: n in names && IsAccessor(m, n) ==> n in r.members && r.members[n] == m[n])
      && (r.error.Some? ==> exists i :: 0 <= i < |names| && HasSetter(m, names[i]) && r.error == Some(SetterError(m[names[i]].factory)))
    decreases |names|
  {
    if names != [] {
      var front, x := names[..|names| - 1], names[|names| - 1];
      assert names == front + [x];
      BuildMethodsIff(f, m, front);
      BuildLeavesOthers(Methods, f, m, front);
      var p := BuildSpec(Methods, f, m, front);
      if p.error.None? {
        // An accessor of the result is an accessor of `m`: assignments only write data members.
        assert IsAccessor(p.members, x) ==> IsAccessor(m, x) && p.members[x] == m[x];
      } else {
        var i :| 0 <= i < |front| && HasSetter(m, front[i]) && p.error == Some(SetterError(m[front[i]].factory));
        assert names[i] == front[i];
      }
    }
  }

  /** The members a `build*` call gives its names. */
  function GroupTable(kind: BuildKind, f: Factory, names: seq<string>): map<string, Member> {
    map n | n in names :: MemberFor(kind, f, n)
  }

  /**
   * Building a group of distinct names none of which is a member yet never throws, and adds
   * exactly the group's members.
   */
  lemma BuildFreshGroup(kind: BuildKind, f: Factory, m: map<string, Member>, names: seq<string>)
    requires Distinct(names) && forall n :: n in names ==> n !in m
    ensures BuildSpec(kind, f, m, names) == Built(m + GroupTable(kind, f, names), None)
  {
    var r := BuildSpec(kind, f, m, names);
    if kind == Methods {
      BuildMethodsIff(f, m, names);
    } else {
      DefinePropertiesIff(kind, f, m, names);
    }
    BuildLeavesOthers(kind, f, m, names);
    SameMembers(m, GroupTable(kind, f, names), names, r.members);
  }

  /** Extensionality for the members after a build: old members off the group, group members on it. */
  lemma SameMembers(m: map<string, Member>, g: map<string, Member>, names: seq<string>, r: map<string, Member>)
    requires g.Keys == set n | n in names
    requires forall n :: n in names ==> n in r && r[n] == g[n]
    requires forall n :: n !in names ==> (n in r <==> n in m) && (n in m ==> r[n] == m[n])
    ensures r == m + g
  {
  }

  /**
   * The error `SetterError` names is the one the factory setters throw when their `this` has
   * no implementation object, whatever the wrapper identity and delegates.
   */
  lemma SetterOnPrototypeThrows(m: Member, wrapper: ObjectId, eventDelegate: map<string, Value>, value: Value)
    requires m.Accessor? && !m.setter.NoSetter?
    ensures m.setter.PropertySetter? ==>
      PropMethodFactories.SetterBody(SetterOf(m).value, PropMethodFactories.Missing, value).error == Some(SetterError(m.factory))
    ensures m.setter.EventSetter? ==>
      PropMethodFactories.EvtSetterBody(SetterOf(m).value, wrapper, eventDelegate, PropMethodFactories.Missing, value).error
        == Some(SetterError(m.factory))
  {
  }
}
