/**
 * Mapping a parameter map onto a bean (ParameterBeanMapperUtils.mapParametersToBean)
 * for the bean shape of TestBean: a String, an int and a second String
 * property, and a nested bean, created by the constructor, with one boolean
 * property. A key names a property ("stringProperty"), a dotted key reaches
 * the nested bean ("nestedBean.booleanProperty"), and a key that names no
 * property is ignored. The mapping walks the map entry by entry and calls
 * the matching setter.
 */
module ParameterBeanMapper {
  import opened JavaLang

  /** The writable properties of TestBean, the nested one included. */
  datatype Property = StringProperty | IntProperty | UnusedProperty | NestedBooleanProperty

  /** The parameter key that names a property. */
  function Name(p: Property): string
  {
    match p
    case StringProperty => "stringProperty"
    case IntProperty => "intProperty"
    case UnusedProperty => "unusedProperty"
    case NestedBooleanProperty => "nestedBean.booleanProperty"
  }

  /** The property a key names, if any. */
  function PropertyNamed(key: string): (p: Option<Property>)
    ensures p.Some? ==> Name(p.value) == key
    ensures forall q :: Name(q) == key ==> p == Some(q)
  {
    if key == "stringProperty" then Some(StringProperty)
    else if key == "intProperty" then Some(IntProperty)
    else if key == "unusedProperty" then Some(UnusedProperty)
    else if key == "nestedBean.booleanProperty" then Some(NestedBooleanProperty)
    else None
  }

  /** Whether a value can be assigned to a property: a String or null to a String, an Integer to an int, a Boolean to a boolean. */
  predicate Accepts(p: Property, v: Object)
  {
    match p
    case StringProperty => v.JString? || v.JNull?
    case UnusedProperty => v.JString? || v.JNull?
    case IntProperty => v.JInteger?
    case NestedBooleanProperty => v.JBoolean?
  }

  /** Every entry whose key names a property holds a value that property accepts. */
  predicate Assignable(parameters: map<string, Object>)
  {
    forall k :: k in parameters && PropertyNamed(k).Some? ==> Accepts(PropertyNamed(k).value, parameters[k])
  }

  /** The values of the bean's properties. */
  datatype BeanState = BeanState(stringProperty: Nullable<string>, intProperty: int32, unusedProperty: Nullable<string>, nestedBooleanProperty: bool)

  /** The state `new TestBean()` leaves: null strings, 0 and false. */
  function DefaultState(): BeanState
  {
    BeanState(Null, 0, Null, false)
  }

  /** A property's value, boxed as a map value would be. */
  function Get(s: BeanState, p: Property): Object
  {
    match p
    case StringProperty => if s.stringProperty.NonNull? then JString(s.stringProperty.value) else JNull
    case UnusedProperty => if s.unusedProperty.NonNull? then JString(s.unusedProperty.value) else JNull
    case IntProperty => JInteger(s.intProperty)
    case NestedBooleanProperty => JBoolean(s.nestedBooleanProperty)
  }

  function AsString(v: Object): Nullable<string>
  {
    if v.JString? then NonNull(v.s) else Null
  }

  /** The state after assigning `v` to `p`. */
  function Assign(s: BeanState, p: Property, v: Object): BeanState
  {
    match p
    case StringProperty => s.(stringProperty := AsString(v))
    case UnusedProperty => s.(unusedProperty := AsString(v))
    case IntProperty => s.(intProperty := if v.JInteger? then v.i else 0)
    case NestedBooleanProperty => s.(nestedBooleanProperty := v.JBoolean? && v.b)
  }

  /** The state after the entries whose keys are in `done` have been assigned, starting from the default. */
  function MappedSoFar(parameters: map<string, Object>, done: set<string>): BeanState
    requires done <= parameters.Keys
  {
    BeanState(
      if Name(StringProperty) in done then AsString(parameters[Name(StringProperty)]) else Null,
      if Name(IntProperty) in done && parameters[Name(IntProperty)].JInteger? then parameters[Name(IntProperty)].i else 0,
      if Name(UnusedProperty) in done then AsString(parameters[Name(UnusedProperty)]) else Null,
      Name(NestedBooleanProperty) in done && parameters[Name(NestedBooleanProperty)].JBoolean? && parameters[Name(NestedBooleanProperty)].b)
  }

  /** A type mismatch between a value and the property its key names. */
  datatype MappingError = TypeMismatch

  /**
   * The outcome of mapping a parameter map onto a new bean: every property
   * whose name is a key takes that key's value, every other property keeps
   * its default, and keys that name no property change nothing. A value of
   * the wrong type for its property makes the mapping fail.
   */
  function Mapped(parameters: map<string, Object>): (r: Result<BeanState, MappingError>)
    ensures r.Success? <==> Assignable(parameters)
    ensures r.Success? ==> forall p :: Get(r.value, p) == if Name(p) in parameters then parameters[Name(p)] else Get(DefaultState(), p)
  {
    if Assignable(parameters) then
      assert forall p :: Name(p) in parameters ==> Accepts(p, parameters[Name(p)]) by {
        forall p | Name(p) in parameters ensures Accepts(p, parameters[Name(p)]) {
          assert PropertyNamed(Name(p)) == Some(p);
        }
      }
      Success(MappedSoFar(parameters, parameters.Keys))
    else Failure(TypeMismatch)
  }

  /** A key that names no property is ignored: adding it changes neither success nor the bean. */
  lemma UnknownKeyIgnored(parameters: map<string, Object>, key: string, v: Object)
    requires PropertyNamed(key).None?
    ensures Mapped(parameters[key := v]) == Mapped(parameters)
  {
    var extended := parameters[key := v];
    forall p ensures Name(p) != key {
      assert PropertyNamed(Name(p)) == Some(p);
    }
    assert Assignable(extended) <==> Assignable(parameters) by {
      forall k | k in extended && k != key ensures k in parameters && extended[k] == parameters[k] {
      }
    }
  }

  /**
   * The mapping the bean mapper test exercises: a String, an int, a key
   * naming nothing and a dotted key into the nested bean; the unused
   * property stays null.
   */
  lemma TestBeanExample()
    ensures Mapped(map["stringProperty" := JString("value1"), "intProperty" := JInteger(2),
                       "extraProperty" := JString("extra"), "nestedBean.booleanProperty" := JBoolean(true)])
         == Success(BeanState(NonNull("value1"), 2, Null, true))
  {
    var base := map["stringProperty" := JString("value1"), "intProperty" := JInteger(2), "nestedBean.booleanProperty" := JBoolean(true)];
    UnknownKeyIgnored(base, "extraProperty", JString("extra"));
    assert base["extraProperty" := JString("extra")]
        == map["stringProperty" := JString("value1"), "intProperty" := JInteger(2),
               "extraProperty" := JString("extra"), "nestedBean.booleanProperty" := JBoolean(true)];
    var r := Mapped(base);
    assert Assignable(base) by {
      forall k | k in base && PropertyNamed(k).Some? ensures Accepts(PropertyNamed(k).value, base[k]) {
      }
    }
    assert Get(r.value, StringProperty) == JString("value1");
    assert Get(r.value, IntProperty) == JInteger(2);
    assert Get(r.value, NestedBooleanProperty) == JBoolean(true);
    assert "unusedProperty" !in base;
    assert Get(r.value, UnusedProperty) == JNull;
  }

  /** The nested bean: one boolean property. */
  class NestedBean {
    var booleanProperty: bool

    constructor ()
      ensures !booleanProperty
    {
      booleanProperty := false;
    }

    method SetBooleanProperty(b: bool)
      modifies this
      ensures booleanProperty == b
    {
      booleanProperty := b;
    }
  }

  /** The bean: three properties of its own and the nested bean its constructor creates. */
  class TestBean {
    var stringProperty: Nullable<string>
    var intProperty: int32
    var unusedProperty: Nullable<string>
    const nestedBean: NestedBean

    /** The property values, the nested one included. */
    function State(): BeanState
      reads this, nestedBean
    {
      BeanState(stringProperty, intProperty, unusedProperty, nestedBean.booleanProperty)
    }

    constructor ()
      ensures fresh(nestedBean)
      ensures State() == DefaultState()
    {
      stringProperty := Null;
      intProperty := 0;
      unusedProperty := Null;
      nestedBean := new NestedBean();
    }

    method SetStringProperty(s: Nullable<string>)
      modifies this
      ensures stringProperty == s && intProperty == old(intProperty) && unusedProperty == old(unusedProperty)
    {
      stringProperty := s;
    }

    method SetIntProperty(i: int32)
      modifies this
      ensures intProperty == i && stringProperty == old(stringProperty) && unusedProperty == old(unusedProperty)
    {
      intProperty := i;
    }

    method SetUnusedProperty(s: Nullable<string>)
      modifies this
      ensures unusedProperty == s && stringProperty == old(stringProperty) && intProperty == old(intProperty)
    {
      unusedProperty := s;
    }
  }

  /** Calls the setter of property `p` with a value it accepts, reaching the nested bean for the dotted property. */
  method SetProperty(bean: TestBean, p: Property, v: Object)
    requires Accepts(p, v)
    modifies bean, bean.nestedBean
    ensures bean.State() == Assign(old(bean.State()), p, v)
  {
    match p {
      case StringProperty => bean.SetStringProperty(AsString(v));
      case IntProperty => bean.SetIntProperty(v.i);
      case UnusedProperty => bean.SetUnusedProperty(AsString(v));
      case NestedBooleanProperty => bean.nestedBean.SetBooleanProperty(v.b);
    }
  }

  /**
   * mapParametersToBean(parameters, TestBean.class): a new bean, then one
   * setter call per entry whose key names a property, in whatever order the
   * map yields its entries.
   */
  method MapParametersToBean(parameters: map<string, Object>) returns (r: Result<TestBean, MappingError>)
    ensures r.Success? <==> Mapped(parameters).Success?
    ensures r.Success? ==> fresh(r.value) && fresh(r.value.nestedBean) && r.value.State() == Mapped(parameters).value
  {
    var bean := new TestBean();
    var remaining := parameters.Keys;
    while remaining != {}
      invariant remaining <= parameters.Keys
      invariant fresh(bean) && fresh(bean.nestedBean)
      invariant forall k :: k in parameters && k !in remaining && PropertyNamed(k).Some? ==> Accepts(PropertyNamed(k).value, parameters[k])
      invariant bean.State() == MappedSoFar(parameters, parameters.Keys - remaining)
      decreases remaining
    {
      var key :| key in remaining;
      ghost var done := parameters.Keys - remaining;
      remaining := remaining - {key};
      var property := PropertyNamed(key);
      if property.Some? {
        if !Accepts(property.value, parameters[key]) {
          assert !Assignable(parameters);
          return Failure(TypeMismatch);
        }
        SetProperty(bean, property.value, parameters[key]);
      }
      assert parameters.Keys - remaining == done + {key};
    }
    assert parameters.Keys - remaining == parameters.Keys;
    return Success(bean);
  }
}
