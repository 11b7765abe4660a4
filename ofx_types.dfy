/** Values shared by the parameter records, the registry and the suite entry
    points of the Open Mesh Effect host: OpenFX status codes, parameter type
    tags, C string buffers and the four-slot value union. */
module OfxTypes {

  datatype Option<T> = None | Some(value: T)

  /** The C `int` range; `num_parameters` and integer parameter values are C ints. */
  const INT_MAX: int := 0x7fff_ffff
  newtype int32 = x: int | -0x8000_0000 <= x <= 0x7fff_ffff

  /** The OfxStatus codes this suite returns, with their OpenFX ofxCore.h values. */
  datatype Status = StatOK | StatErrUnknown | StatErrUnsupported | StatErrExists
  {
    function Code(): int
    {
      match this
      case StatOK => 0
      case StatErrUnknown => 3
      case StatErrUnsupported => 5
      case StatErrExists => 6
    }
  }

  /** The host's parameter type tag (PARAM_TYPE_DOUBLE, _INT, _STRING, _UNKNOWN). */
  datatype ParamType = TypeDouble | TypeInt | TypeString | TypeUnknown

  /** The OpenFX type names a plug-in passes to paramDefine (ofxParam.h). */
  const OfxParamTypeDouble: string := "OfxParamTypeDouble"
  const OfxParamTypeInteger: string := "OfxParamTypeInteger"
  const OfxParamTypeString: string := "OfxParamTypeString"

  /** parse_parameter_type: exact string comparison against the three known names. */
  function ParseParamType(s: string): (t: ParamType)
    ensures t == TypeDouble <==> s == OfxParamTypeDouble
    ensures t == TypeInt <==> s == OfxParamTypeInteger
    ensures t == TypeString <==> s == OfxParamTypeString
    ensures t == TypeUnknown <==> s !in {OfxParamTypeDouble, OfxParamTypeInteger, OfxParamTypeString}
  {
    if s == OfxParamTypeDouble then TypeDouble
    else if s == OfxParamTypeInteger then TypeInt
    else if s == OfxParamTypeString then TypeString
    else TypeUnknown
  }

  /** The OpenFX name of a known type; the inverse of ParseParamType. */
  function TypeName(t: ParamType): (s: string)
    requires t != TypeUnknown
  {
    match t
    case TypeDouble => OfxParamTypeDouble
    case TypeInt => OfxParamTypeInteger
    case TypeString => OfxParamTypeString
  }

  lemma ParseTypeNameRoundTrip(t: ParamType)
    requires t != TypeUnknown
    ensures ParseParamType(TypeName(t)) == t
  {
  }

  /** Number of value slots of a parameter record (`value[4]`). */
  const ValueSlots: nat := 4

  /** parameter_type_dimensions: every type uses one component, which fits the slots. */
  function ParamTypeDimensions(t: ParamType): (n: nat)
    ensures n == 1
    ensures n <= ValueSlots
  {
    match t
    case TypeDouble => 1
    case TypeInt => 1
    case TypeString => 1
    case TypeUnknown => 1
  }

  /** A heap char buffer of `size` bytes holding the NUL-terminated string `text`
      (its characters before the terminator). */
  datatype CBuffer = CBuffer(text: string, size: int)
  {
    /** The text and its terminator fit in the buffer. */
    predicate Holds()
    {
      |text| < size
    }
  }

  /** The name buffer as deep_copy_parameter and ensure_parameter allocate it: `strlen(name)` bytes,
      then `strcpy` writes the name and its terminator into it. */
  function NameBufferAsWritten(s: string): (b: CBuffer)
    ensures b.text == s
    ensures !b.Holds()
  {
    CBuffer(s, |s|)
  }

  /** The name buffer with room for the terminator, `strlen(name) + 1` bytes:
      the smallest buffer that holds the name. */
  function CStringBuffer(s: string): (b: CBuffer)
    ensures b.text == s && b.Holds()
    ensures forall size :: size < b.size ==> !CBuffer(s, size).Holds()
  {
    CBuffer(s, |s| + 1)
  }

  /** One slot of the C union `{ double as_double; int as_int; char *as_char; }`.
      The constructor records which member was written last; `Indeterminate` is
      a slot that was never written (init_parameter leaves `value` untouched). */
  datatype Slot =
    | Indeterminate
    | AsDouble(d: real)
    | AsInt(i: int32)
    | AsChar(ptr: Option<CBuffer>)   // None is a NULL pointer

  /** The slot holds a pointer to a buffer that the parameter owns. */
  predicate OwnsText(s: Slot)
  {
    s.AsChar? && s.ptr.Some?
  }

  /** A value passed through the variadic get/set calls. */
  datatype Value = DoubleValue(d: real) | IntValue(i: int32)

  /** What paramGetValue does with one caller-supplied out pointer. */
  datatype Fetched =
    | NotWritten               // the type has no get path (String, Unknown)
    | Written(v: Value)        // the slot held a value of the parameter's type
    | WrittenUnspecified       // the slot held another union member; its bits are reinterpreted

  /** The argument `va_arg` reads for a parameter of type `t` has that type. */
  predicate ArgMatches(t: ParamType, v: Value)
  {
    (t == TypeDouble ==> v.DoubleValue?) && (t == TypeInt ==> v.IntValue?)
  }

  /** The types paramGetValue and paramSetValue marshal. */
  predicate Marshalled(t: ParamType)
  {
    t == TypeDouble || t == TypeInt
  }

  /** paramGetValue's read of one slot for a parameter of type `t`. */
  function ReadSlot(t: ParamType, s: Slot): (f: Fetched)
    ensures !Marshalled(t) <==> f == NotWritten
    ensures f.Written? ==> ArgMatches(t, f.v)
  {
    match t
    case TypeDouble => if s.AsDouble? then Written(DoubleValue(s.d)) else WrittenUnspecified
    case TypeInt => if s.AsInt? then Written(IntValue(s.i)) else WrittenUnspecified
    case _ => NotWritten
  }

  /** paramSetValue's write of one argument into a slot for a parameter of type `t`. */
  function StoreSlot(t: ParamType, s: Slot, v: Value): (r: Slot)
    requires ArgMatches(t, v)
    ensures !Marshalled(t) ==> r == s
    ensures Marshalled(t) ==> !OwnsText(r)
  {
    match t
    case TypeDouble => AsDouble(v.d)
    case TypeInt => AsInt(v.i)
    case _ => s
  }

  /** Setting a Double or Int value and reading it back yields that value. */
  lemma ReadAfterStore(t: ParamType, s: Slot, v: Value)
    requires Marshalled(t) && ArgMatches(t, v)
    ensures ReadSlot(t, StoreSlot(t, s, v)) == Written(v)
  {
  }
}
