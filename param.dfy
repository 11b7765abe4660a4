/** The parameter record `OfxParamStruct`: a name, a type tag, four value slots
    and a property bag, with its initialisation, its type state machine and its
    deep copy. */
module Parameter {
  import opened OfxTypes

  /** The property bag (properties.h) is a foreign collaborator; the model keeps
      only its contents as a value, so that copying it is a value copy. */
  datatype PropertyBag = PropertyBag(entries: map<string, seq<string>>)

  /** What init_properties produces. */
  const EmptyProperties: PropertyBag := PropertyBag(map[])

  /** The abstract state of one record: what its fields hold. */
  datatype ParamState = ParamState(name: Option<CBuffer>, ptype: ParamType, slots: seq<Slot>, props: PropertyBag)

  /** The record invariant: slot 0 owns a text buffer exactly when the type is
      String, no other slot owns heap memory, and every buffer holds its text. */
  predicate WellFormed(s: ParamState)
  {
    |s.slots| == ValueSlots &&
    (s.ptype == TypeString <==> OwnsText(s.slots[0])) &&
    (OwnsText(s.slots[0]) ==> s.slots[0].ptr.value.Holds()) &&
    !OwnsText(s.slots[1]) && !OwnsText(s.slots[2]) && !OwnsText(s.slots[3]) &&
    (s.name.Some? ==> s.name.value.Holds())
  }

  /** The state of a record that was just allocated and passed to init_parameter. */
  function InitialState(): (s: ParamState)
    ensures WellFormed(s)
    ensures s.ptype == TypeDouble && s.name == None && s.props == EmptyProperties
    ensures forall i :: 0 <= i < |s.slots| ==> !OwnsText(s.slots[i])
  {
    ParamState(None, TypeDouble, [Indeterminate, Indeterminate, Indeterminate, Indeterminate], EmptyProperties)
  }

  /** The state deep_copy_parameter gives the destination: a name buffer of its
      own, the same type and slots, and for a String parameter a text buffer of
      exactly `strlen + 1` bytes holding the source's text. Buffers are values,
      so only their size and contents are recorded. */
  function CopyOf(s: ParamState): ParamState
    requires WellFormed(s)
  {
    ParamState(
      if s.name.Some? then Some(CStringBuffer(s.name.value.text)) else None,
      s.ptype,
      if s.ptype == TypeString
      then [AsChar(Some(CStringBuffer(s.slots[0].ptr.value.text)))] + s.slots[1..]
      else s.slots,
      s.props)
  }

  /** `d` is what deep_copy_parameter makes of the well-formed state `s`. */
  predicate CopiedFrom(d: ParamState, s: ParamState)
  {
    WellFormed(s) && d == CopyOf(s)
  }

  /** Two slots carry the same value: equal, or both owning buffers with the same text. */
  predicate SameSlotContent(a: Slot, b: Slot)
  {
    a == b || (OwnsText(a) && OwnsText(b) && a.ptr.value.text == b.ptr.value.text)
  }

  /** Two states carry the same content, whatever the sizes of their buffers. */
  predicate SameContent(a: ParamState, b: ParamState)
  {
    (a.name.Some? <==> b.name.Some?) &&
    (a.name.Some? ==> a.name.value.text == b.name.value.text) &&
    a.ptype == b.ptype && a.props == b.props &&
    |a.slots| == |b.slots| &&
    (forall i :: 0 <= i < |a.slots| ==> SameSlotContent(a.slots[i], b.slots[i]))
  }

  /** A deep copy keeps the invariant and carries the same name, type, slot
      values (string contents included) and properties as its source. */
  lemma CopyOfPreservesContent(s: ParamState)
    requires WellFormed(s)
    ensures WellFormed(CopyOf(s))
    ensures SameContent(CopyOf(s), s)
  {
  }

  /** A handle to a property set (`OfxPropertySetHandle`): NULL, the bag embedded
      in a parameter record (`&param->properties`), or a bag the model does not
      see (the effect's own properties), known only by its address. */
  datatype PropertySetHandle =
    | NullPropertySet
    | ParamProperties(owner: Param)
    | ForeignProperties(address: nat)

  class Param {
    var name: Option<CBuffer>   // None is a NULL name
    var ptype: ParamType
    var value: seq<Slot>        // the inline `value[4]` member, updated slot by slot
    var props: PropertyBag

    function State(): ParamState
      reads this
    {
      ParamState(name, ptype, value, props)
    }

    ghost predicate Valid()
      reads this
    {
      WellFormed(State())
    }

    /** `malloc_array(sizeof(OfxParamStruct), 1, ...)` followed by init_parameter. */
    constructor ()
      ensures State() == InitialState()
      ensures Valid()
    {
      name := None;
      ptype := TypeDouble;
      props := EmptyProperties;
      value := [Indeterminate, Indeterminate, Indeterminate, Indeterminate];
    }

    /** parameter_realloc_string: release any buffer in slot 0 and put a
        `size`-byte buffer holding the empty string there. Slot 0 must hold a
        pointer (the code reads `as_char`), and the buffer must have room for the
        terminator it writes. */
    method ReallocString(size: int)
      requires |value| == ValueSlots && value[0].AsChar?
      requires size >= 1
      modifies this
      ensures value == old(value)[0 := AsChar(Some(CBuffer("", size)))]
      ensures value[0].ptr.value.Holds()
      ensures name == old(name) && ptype == old(ptype) && props == old(props)
    {
      value := value[0 := AsChar(Some(CBuffer("", size)))];
    }

    /** parameter_set_type: no-op on an unchanged type; otherwise leaving String
        releases the text buffer, and entering String allocates a one-byte empty
        string. */
    method SetType(t: ParamType)
      requires Valid()
      modifies this
      ensures Valid()
      ensures ptype == t
      ensures OwnsText(value[0]) <==> t == TypeString
      ensures old(ptype) == t ==> value == old(value)
      ensures old(ptype) != t && t == TypeString ==> value[0] == AsChar(Some(CBuffer("", 1)))
      ensures old(ptype) == TypeString && t != TypeString ==> value[0] == AsChar(None)
      ensures old(ptype) != TypeString && t != TypeString ==> value[0] == old(value[0])
      ensures forall i :: 1 <= i < ValueSlots ==> value[i] == old(value[i])
      ensures name == old(name) && props == old(props)
    {
      if ptype == t {
        return;
      }
      if ptype == TypeString {
        value := value[0 := AsChar(None)];
      }
      ptype := t;
      if ptype == TypeString {
        value := value[0 := AsChar(None)];
        ReallocString(1);
      }
    }

    /** Flipping a String parameter to Int and back releases the old text and
        leaves slot 0 holding a one-byte empty string, whatever it held before. */
    method FlipStringThroughInt()
      requires Valid() && ptype == TypeString
      modifies this
      ensures Valid() && ptype == TypeString
      ensures value[0] == AsChar(Some(CBuffer("", 1)))
      ensures forall i :: 1 <= i < ValueSlots ==> value[i] == old(value[i])
      ensures name == old(name) && props == old(props)
    {
      SetType(TypeInt);
      SetType(TypeString);
    }

    /** deep_copy_parameter: this record becomes an independent copy of `src`. */
    method CopyFrom(src: Param)
      requires src.Valid()
      requires src != this
      modifies this
      ensures State() == CopyOf(src.State())
      ensures Valid()
    {
      name := src.name;
      if name.Some? {
        name := Some(CStringBuffer(src.name.value.text));
      }
      ptype := src.ptype;
      value := src.value;
      if ptype == TypeString {
        var text := src.value[0].ptr.value.text;
        var n := |text|;
        value := value[0 := AsChar(None)];
        ReallocString(n + 1);
        value := value[0 := AsChar(Some(CBuffer(text, value[0].ptr.value.size)))];   // strcpy
      }
      props := src.props;
      assert value == CopyOf(src.State()).slots;
      CopyOfPreservesContent(src.State());
    }
  }
}
