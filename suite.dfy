/** The parameter suite entry points a plug-in calls (`OfxParameterSuiteV1`):
    definition and lookup of parameters, the two property-set getters, value
    get/set, and the time, keyframe and edit entry points, which are not
    implemented and always report kOfxStatErrUnsupported. */
module ParameterSuite {
  import opened OfxTypes
  import opened Parameter
  import opened ParameterSet

  /** What `*propertySet = &param->properties` stores when the out pointer is
      not NULL; None when the caller passed NULL and nothing is written. */
  function PropertyOut(wanted: bool, p: Param): (h: Option<PropertySetHandle>)
    ensures h.Some? <==> wanted
    ensures h.Some? ==> h.value.ParamProperties? && h.value.owner == p
  {
    if wanted then Some(ParamProperties(p)) else None
  }

  /** The slots of a record just defined with type `t`: those init_parameter
      leaves, with a one-byte empty string in slot 0 for a String parameter. */
  function DefinedSlots(t: ParamType): (slots: seq<Slot>)
    ensures |slots| == ValueSlots
    ensures OwnsText(slots[0]) <==> t == TypeString
    ensures forall s :: 1 <= s < ValueSlots ==> slots[s] == InitialState().slots[s]
  {
    if t == TypeString then InitialState().slots[0 := AsChar(Some(CBuffer("", 1)))] else InitialState().slots
  }

  /** Slots that parameter_set_type leaves when retyping a freshly initialised
      (Double) record to `t` are the defined slots of `t`. */
  lemma RetypedInitialSlots(t: ParamType, v: seq<Slot>)
    requires |v| == ValueSlots
    requires t == TypeDouble ==> v == InitialState().slots
    requires t == TypeString ==> v[0] == AsChar(Some(CBuffer("", 1)))
    requires t != TypeString ==> v[0] == InitialState().slots[0]
    requires forall s :: 1 <= s < ValueSlots ==> v[s] == InitialState().slots[s]
    ensures v == DefinedSlots(t)
  {
  }

  /** paramDefine: refuse a name that is already defined; otherwise register a
      new parameter under that name with the parsed type. */
  method ParamDefine(paramSet: ParamSet, paramType: string, name: string, wantPropertySet: bool)
    returns (st: Status, propertySet: Option<PropertySetHandle>)
    requires paramSet.Valid() && paramSet.Named()
    requires Lookup(paramSet.Names(), name) == -1 ==> paramSet.numParameters < INT_MAX
    modifies paramSet
    ensures paramSet.Valid() && paramSet.Named()
    ensures st == StatOK || st == StatErrExists
    ensures st == StatErrExists <==> old(Lookup(paramSet.Names(), name)) != -1
    ensures st == StatErrExists ==>
              propertySet == None && unchanged(paramSet) &&
              forall k :: 0 <= k < |paramSet.Entries| ==> unchanged(paramSet.Entries[k])
    ensures st == StatOK ==>
              var i := old(paramSet.numParameters);
              paramSet.numParameters == i + 1 &&
              paramSet.Entries[..i] == old(paramSet.Entries) &&
              fresh(paramSet.Entries[i]) &&
              paramSet.Entries[i].name == Some(CStringBuffer(name)) &&
              paramSet.Entries[i].ptype == ParseParamType(paramType) &&
              paramSet.Entries[i].props == EmptyProperties &&
              paramSet.Entries[i].value == DefinedSlots(ParseParamType(paramType)) &&
              propertySet == PropertyOut(wantPropertySet, paramSet.Entries[i]) &&
              paramSet.Names() == old(paramSet.Names()) + [Some(name)]
    ensures old(UniqueNames(paramSet.Names())) ==> UniqueNames(paramSet.Names())
    ensures paramSet.effectProperties == old(paramSet.effectProperties)
  {
    var i := paramSet.Find(name);
    if -1 != i {
      return StatErrExists, None;
    }
    i := DefineAbsent(paramSet, paramType, name);
    propertySet := PropertyOut(wantPropertySet, paramSet.parameters[i]);
    st := StatOK;
  }

  /** The definition branch of paramDefine, for a name not yet defined: ensure_parameter
      appends a record under `name`, then parameter_set_type gives it the parsed type. */
  method DefineAbsent(paramSet: ParamSet, paramType: string, name: string) returns (i: int)
    requires paramSet.Valid() && paramSet.Named()
    requires Lookup(paramSet.Names(), name) == -1 && paramSet.numParameters < INT_MAX
    modifies paramSet
    ensures paramSet.Valid() && paramSet.Named()
    ensures i == old(paramSet.numParameters) && paramSet.numParameters == i + 1
    ensures paramSet.Entries[..i] == old(paramSet.Entries)
    ensures fresh(paramSet.Entries[i])
    ensures paramSet.Entries[i].name == Some(CStringBuffer(name))
    ensures paramSet.Entries[i].ptype == ParseParamType(paramType)
    ensures paramSet.Entries[i].props == EmptyProperties
    ensures paramSet.Entries[i].value == DefinedSlots(ParseParamType(paramType))
    ensures paramSet.Names() == old(paramSet.Names()) + [Some(name)]
    ensures old(UniqueNames(paramSet.Names())) ==> UniqueNames(paramSet.Names())
    ensures paramSet.effectProperties == old(paramSet.effectProperties)
  {
    ghost var names := paramSet.Names();
    i := paramSet.Ensure(name);
    if UniqueNames(names) {
      AppendAbsentKeepsUnique(names, name);
    }
    var t := ParseParamType(paramType);
    paramSet.Retype(i, t);
    RetypedInitialSlots(t, paramSet.Entries[i].value);
  }

  /** paramGetHandle: the record registered under `name`, or kOfxStatErrUnknown
      when there is none, in which case nothing is written. */
  method ParamGetHandle(paramSet: ParamSet, name: string, wantPropertySet: bool)
    returns (st: Status, param: Option<Param>, propertySet: Option<PropertySetHandle>)
    requires paramSet.Valid() && paramSet.Named()
    ensures st == StatOK || st == StatErrUnknown
    ensures st == StatErrUnknown <==> Lookup(paramSet.Names(), name) == -1
    ensures st == StatErrUnknown ==> param == None && propertySet == None
    ensures st == StatOK ==>
              var i := Lookup(paramSet.Names(), name);
              param == Some(paramSet.Entries[i]) && paramSet.Entries[i].name.value.text == name &&
              propertySet == PropertyOut(wantPropertySet, paramSet.Entries[i])
  {
    var i := paramSet.Find(name);
    if -1 == i {
      return StatErrUnknown, None, None;
    }
    param := Some(paramSet.parameters[i]);
    propertySet := PropertyOut(wantPropertySet, paramSet.parameters[i]);
    st := StatOK;
  }

  /** paramSetGetPropertySet: the effect's property set the registry links to. */
  method ParamSetGetPropertySet(paramSet: ParamSet) returns (st: Status, propHandle: PropertySetHandle)
    ensures st == StatOK && propHandle == paramSet.effectProperties
  {
    propHandle := paramSet.effectProperties;
    st := StatOK;
  }

  /** paramGetPropertySet: the property bag embedded in the record. */
  method ParamGetPropertySet(param: Param) returns (st: Status, propHandle: PropertySetHandle)
    ensures st == StatOK && propHandle.ParamProperties? && propHandle.owner == param
  {
    propHandle := ParamProperties(param);
    st := StatOK;
  }

  /** The arguments paramSetValue reads with `va_arg` for a parameter of type `t`:
      one per component, of the parameter's type; none for String and Unknown. */
  predicate ArgsSupplied(t: ParamType, args: seq<Value>)
  {
    Marshalled(t) ==>
      |args| >= ParamTypeDimensions(t) &&
      forall i :: 0 <= i < ParamTypeDimensions(t) ==> ArgMatches(t, args[i])
  }

  /** paramGetValue: what is written through each of the `dimensions` out
      pointers, read from the slots of the record; nothing for String and Unknown. */
  method ParamGetValue(paramHandle: Param) returns (st: Status, outs: seq<Fetched>)
    requires |paramHandle.value| == ValueSlots
    ensures st == StatOK
    ensures |outs| == ParamTypeDimensions(paramHandle.ptype)
    ensures forall i :: 0 <= i < |outs| ==> outs[i] == ReadSlot(paramHandle.ptype, paramHandle.value[i])
    ensures !Marshalled(paramHandle.ptype) ==> forall i :: 0 <= i < |outs| ==> outs[i] == NotWritten
  {
    var dimensions := ParamTypeDimensions(paramHandle.ptype);
    outs := [];
    for i := 0 to dimensions
      invariant |outs| == i
      invariant forall k :: 0 <= k < i ==> outs[k] == ReadSlot(paramHandle.ptype, paramHandle.value[k])
    {
      outs := outs + [ReadSlot(paramHandle.ptype, paramHandle.value[i])];
    }
    st := StatOK;
  }

  /** paramSetValue: store one argument per component into the slots, as the
      union member of the parameter's type; String and Unknown are left as they are. */
  method ParamSetValue(paramHandle: Param, args: seq<Value>) returns (st: Status)
    requires paramHandle.Valid()
    requires ArgsSupplied(paramHandle.ptype, args)
    modifies paramHandle
    ensures st == StatOK
    ensures paramHandle.Valid()
    ensures paramHandle.name == old(paramHandle.name) && paramHandle.ptype == old(paramHandle.ptype)
    ensures paramHandle.props == old(paramHandle.props)
    ensures |paramHandle.value| == ValueSlots
    ensures !Marshalled(paramHandle.ptype) ==> paramHandle.value == old(paramHandle.value)
    ensures Marshalled(paramHandle.ptype) ==>
              forall i :: 0 <= i < ValueSlots ==>
                paramHandle.value[i] ==
                  if i < ParamTypeDimensions(paramHandle.ptype)
                  then StoreSlot(paramHandle.ptype, old(paramHandle.value[i]), args[i])
                  else old(paramHandle.value[i])
  {
    var dimensions := ParamTypeDimensions(paramHandle.ptype);
    for i := 0 to dimensions
      invariant paramHandle.Valid()
      invariant paramHandle.name == old(paramHandle.name) && paramHandle.ptype == old(paramHandle.ptype)
      invariant paramHandle.props == old(paramHandle.props)
      invariant !Marshalled(paramHandle.ptype) ==> paramHandle.value == old(paramHandle.value)
      invariant Marshalled(paramHandle.ptype) ==>
                  forall k :: 0 <= k < ValueSlots ==>
                    paramHandle.value[k] ==
                      if k < i then StoreSlot(paramHandle.ptype, old(paramHandle.value[k]), args[k])
                      else old(paramHandle.value[k])
    {
      if Marshalled(paramHandle.ptype) {
        paramHandle.value := paramHandle.value[i := StoreSlot(paramHandle.ptype, paramHandle.value[i], args[i])];
      }
    }
    st := StatOK;
  }

  /** A Double or Int value set with paramSetValue is what paramGetValue then
      returns; for String and Unknown neither call touches the record. */
  method SetThenGet(paramHandle: Param, v: Value) returns (outs: seq<Fetched>)
    requires paramHandle.Valid()
    requires ArgMatches(paramHandle.ptype, v)
    modifies paramHandle
    ensures Marshalled(old(paramHandle.ptype)) ==> outs == [Written(v)]
    ensures !Marshalled(old(paramHandle.ptype)) ==> outs == [NotWritten] && paramHandle.State() == old(paramHandle.State())
  {
    var _ := ParamSetValue(paramHandle, [v]);
    var st;
    st, outs := ParamGetValue(paramHandle);
    if Marshalled(paramHandle.ptype) {
      ReadAfterStore(paramHandle.ptype, old(paramHandle.value[0]), v);
    }
  }

  // The entry points below ignore their arguments (times are OfxTime doubles,
  // modelled as reals) and report that they are not supported.

  function ParamGetValueAtTime(paramHandle: Param?, time: real): Status { StatErrUnsupported }
  function ParamGetDerivative(paramHandle: Param?, time: real): Status { StatErrUnsupported }
  function ParamGetIntegral(paramHandle: Param?, time1: real, time2: real): Status { StatErrUnsupported }
  function ParamSetValueAtTime(paramHandle: Param?, time: real): Status { StatErrUnsupported }
  function ParamGetNumKeys(paramHandle: Param?): Status { StatErrUnsupported }
  function ParamGetKeyTime(paramHandle: Param?, nthKey: nat): Status { StatErrUnsupported }
  function ParamGetKeyIndex(paramHandle: Param?, time: real, direction: int): Status { StatErrUnsupported }
  function ParamDeleteKey(paramHandle: Param?, time: real): Status { StatErrUnsupported }
  function ParamDeleteAllKeys(paramHandle: Param?): Status { StatErrUnsupported }
  function ParamCopy(paramTo: Param?, paramFrom: Param?, dstOffset: real, frameRange: Option<(real, real)>): Status { StatErrUnsupported }
  function ParamEditBegin(paramSet: ParamSet?, name: string): Status { StatErrUnsupported }
  function ParamEditEnd(paramSet: ParamSet?): Status { StatErrUnsupported }

  /** Every time, keyframe and edit entry point reports kOfxStatErrUnsupported
      (OfxStatus 5), whatever its arguments. */
  lemma UnimplementedEntryPointsUnsupported(p: Param?, q: Param?, s: ParamSet?, t: real, u: real, n: nat, d: int,
                                            name: string, range: Option<(real, real)>)
    ensures ParamGetValueAtTime(p, t) == StatErrUnsupported
    ensures ParamGetDerivative(p, t) == StatErrUnsupported
    ensures ParamGetIntegral(p, t, u) == StatErrUnsupported
    ensures ParamSetValueAtTime(p, t) == StatErrUnsupported
    ensures ParamGetNumKeys(p) == StatErrUnsupported
    ensures ParamGetKeyTime(p, n) == StatErrUnsupported
    ensures ParamGetKeyIndex(p, t, d) == StatErrUnsupported
    ensures ParamDeleteKey(p, t) == StatErrUnsupported
    ensures ParamDeleteAllKeys(p) == StatErrUnsupported
    ensures ParamCopy(p, q, t, range) == StatErrUnsupported
    ensures ParamEditBegin(s, name) == StatErrUnsupported
    ensures ParamEditEnd(s) == StatErrUnsupported
    ensures StatErrUnsupported.Code() == 5
  {
  }
}
