# Open Mesh Effect host: parameter registry

This project models the host side of the OpenFX Parameter Suite (`OfxParameterSuiteV1`) as the Open Mesh Effect host implements it in `intern/openmesheffect/host/intern/parameters.c`. It proves properties of that model in Dafny.

What is modelled:

- **Parameter record** (`OfxParamStruct`), `param.dfy`. The class `Parameter.Param` has:
  - a name: a C string buffer, or NULL;
  - a type tag: Double, Int, String or Unknown;
  - the four-slot value union `value[4]`;
  - a property bag.

  The record invariant `WellFormed` states four things:
  - slot 0 owns a text buffer exactly when the type is String;
  - no other slot owns heap memory;
  - every text buffer holds its text and the terminating NUL;
  - so does the name buffer, which the model allocates at the corrected size (see "Left out").

  `parameter_set_type`, `parameter_realloc_string` and `deep_copy_parameter` are methods that update the record in place. `parameter_set_type` and `deep_copy_parameter` keep this invariant. `parameter_realloc_string` is a helper of theirs: it only yields a well-formed record when the record's type is String.
- **Registry** (`OfxParamSetStruct`), `param_set.dfy`. The class `ParameterSet.ParamSet` has:
  - an exact-size array of parameter pointers (`parameters`, NULL while empty);
  - its length `numParameters`;
  - the non-owning `effectProperties` link.

  Two ghost fields record which records the array points to (`Entries`) and where each sits (`Position`). The invariant `Valid` states that:
  - the array holds exactly those records, in order;
  - no record appears twice;
  - every record is well formed.

  Each of `find_parameter`, `append_parameters`, `ensure_parameter`, `init_parameter_set`, `free_parameter_set` and `deep_copy_parameter_set` becomes a method. Each is proved against the specification function `Lookup` or against the old state of the registry.
- **Suite entry points**, `suite.dfy`:
  - `paramDefine`, `paramGetHandle` and the two property-set getters;
  - `paramGetValue` and `paramSetValue`, with the variadic arguments as an explicit sequence of typed values;
  - the twelve time, keyframe and edit entry points, which always report `kOfxStatErrUnsupported`.
- **Shared values**, `ofx_types.dfy`:
  - status codes with their OpenFX values (`kOfxStatOK` 0, `kOfxStatErrUnknown` 3, `kOfxStatErrUnsupported` 5, `kOfxStatErrExists` 6);
  - the type tags;
  - `parse_parameter_type` and `parameter_type_dimensions`;
  - C string buffers (text plus allocated size);
  - the value union.

  A union slot records which member was written last. A read of a slot last written as another member, or never written, is reported as `WrittenUnspecified`.

Two behaviours of the code are kept as written:

- A missing name in `paramGetHandle` yields `kOfxStatErrUnknown` (line 210).
- Deep copy re-initialises the destination without releasing what it held (line 154). When destination and source are the same registry, `ParamSet.DeepCopyFrom` leaves it empty, as the code does.

## Model

| member | source | states |
|---|---|---|
| OfxTypes.ParseParamType | intern/openmesheffect/host/intern/parameters.c:164-175 | the result is Double, Int or String exactly when the string equals that OpenFX type name, and Unknown exactly when it equals none of them |
| OfxTypes.ParseTypeNameRoundTrip | intern/openmesheffect/host/intern/parameters.c:164-175 | parsing the OpenFX name of a known type gives that type back |
| OfxTypes.ParamTypeDimensions | intern/openmesheffect/host/intern/parameters.c:177-186 | every type has exactly one component, which fits in the four value slots |
| OfxTypes.NameBufferAsWritten | intern/openmesheffect/host/intern/parameters.c:129-130 | a name buffer of `strlen(name)` bytes carries the name but cannot hold it with its terminator |
| OfxTypes.CStringBuffer | intern/openmesheffect/host/intern/parameters.c:88-91 | a buffer of `strlen + 1` bytes holds the string and its terminator, and no smaller buffer does |
| OfxTypes.ReadSlot | intern/openmesheffect/host/intern/parameters.c:236-247 | nothing is written exactly for String and Unknown; a value that is written has the parameter's own type |
| OfxTypes.StoreSlot | intern/openmesheffect/host/intern/parameters.c:280-295 | String and Unknown slots are left as they are; a stored Double or Int never owns heap memory |
| OfxTypes.ReadAfterStore | intern/openmesheffect/host/intern/parameters.c:235-241 | reading a slot back after storing a Double or Int value into it yields that value |
| Parameter.InitialState | intern/openmesheffect/host/intern/parameters.c:30-34 | a freshly initialised record is well formed, of type Double, unnamed and with empty properties, and owns no text |
| Parameter.CopyOfPreservesContent | intern/openmesheffect/host/intern/parameters.c:74-95 | a deep copy is well formed and has the same name, type, slot values (string contents included) and properties as its source |
| Parameter.Param.constructor | intern/openmesheffect/host/intern/parameters.c:30-34 | allocation followed by init_parameter gives the initial, well-formed state |
| Parameter.Param.ReallocString | intern/openmesheffect/host/intern/parameters.c:64-70 | slot 0 becomes a `size`-byte buffer holding the empty string; the rest of the record is unchanged |
| Parameter.Param.SetType | intern/openmesheffect/host/intern/parameters.c:46-62 | the record stays well formed and takes the new type; an unchanged type changes nothing; entering String gives slot 0 a one-byte empty string; leaving String sets slot 0 to NULL; slots 1-3, name and properties are kept |
| Parameter.Param.FlipStringThroughInt | intern/openmesheffect/host/intern/parameters.c:46-62 | switching a String parameter to Int and back leaves slot 0 holding a one-byte empty string, whatever text it held, and keeps everything else |
| Parameter.Param.CopyFrom | intern/openmesheffect/host/intern/parameters.c:74-95 | the record becomes the deep copy of the source and is well formed |
| ParameterSet.Lookup | intern/openmesheffect/host/intern/parameters.c:97-104 | the result is -1 or an index whose name equals the query |
| ParameterSet.LookupIsFirst | intern/openmesheffect/host/intern/parameters.c:97-104 | the result is -1 exactly when no name matches, and no earlier index matches |
| ParameterSet.LookupUnique | intern/openmesheffect/host/intern/parameters.c:188-202 | when names are unique, looking up a record's name finds that record's position |
| ParameterSet.AppendAbsentKeepsUnique | intern/openmesheffect/host/intern/parameters.c:192-196 | appending a name that the lookup does not find keeps the names unique |
| ParameterSet.LookupAppended | intern/openmesheffect/host/intern/parameters.c:124-133 | after appending a name that was absent, the lookup finds it at the new last position |
| ParameterSet.GrowArray | intern/openmesheffect/host/intern/parameters.c:110-118 | the new array keeps the old pointers at their positions and points to fresh, distinct, initialised records after them |
| ParameterSet.CopyRecords | intern/openmesheffect/host/intern/parameters.c:156-158 | each destination record becomes the deep copy of the source record at the same position, and all are well formed |
| ParameterSet.ParamSet.Init | intern/openmesheffect/host/intern/parameters.c:135-139 | the registry becomes empty, with a NULL array and a NULL effect link |
| ParameterSet.ParamSet.constructor | intern/openmesheffect/host/intern/parameters.c:135-139 | a new registry is empty and valid |
| ParameterSet.ParamSet.Find | intern/openmesheffect/host/intern/parameters.c:97-104 | the result is `Lookup` of the names: the first index named `query`, or -1 exactly when no record has that name (so always -1 on an empty registry) |
| ParameterSet.ParamSet.Append | intern/openmesheffect/host/intern/parameters.c:106-122 | the count grows by exactly `count`; the old records stay at their positions; each new entry is a fresh record of type Double with no name and empty properties; the registry stays valid |
| ParameterSet.ParamSet.Ensure | intern/openmesheffect/host/intern/parameters.c:124-133 | a present name returns its index and leaves the registry unchanged; an absent one appends one record carrying the name, returns its index and appends the name to the names |
| ParameterSet.ParamSet.EnsureTwice | intern/openmesheffect/host/intern/parameters.c:124-133 | two calls with the same name return the same index, which carries that name; together they add at most one record (exactly one when the name was absent), keep the old records in place and change the names exactly as one call does; a present name leaves the registry unchanged, and an absent one gets a fresh record, freshly initialised apart from its name |
| ParameterSet.ParamSet.AppendNamed | intern/openmesheffect/host/intern/parameters.c:127-131 | the registry gains one last record, named `query` and otherwise freshly initialised, which the lookup then finds |
| ParameterSet.ParamSet.Rename | intern/openmesheffect/host/intern/parameters.c:129-130 | the record at `i` gets a buffer holding `query`, and the registry stays valid |
| ParameterSet.ParamSet.Retype | intern/openmesheffect/host/intern/parameters.c:197 | setting the type of one registered record keeps the registry valid, its names and every other record; the record takes the new type and keeps its name and properties; its slots change as parameter_set_type changes them (an unchanged type keeps them, entering String puts a one-byte empty string in slot 0, leaving String sets slot 0 to NULL, otherwise slot 0 is kept, and slots 1-3 are always kept) |
| ParameterSet.ParamSet.Free | intern/openmesheffect/host/intern/parameters.c:141-151 | the registry becomes empty with a NULL array and keeps its effect link |
| ParameterSet.ParamSet.DeepCopyFrom | intern/openmesheffect/host/intern/parameters.c:153-160 | the destination gets as many records as the source, each fresh and the deep copy of the source record at the same position, and shares the effect link; a self-copy leaves the registry empty |
| ParameterSet.ParamSet.AppendCopies | intern/openmesheffect/host/intern/parameters.c:155-158 | an emptied registry gets fresh deep copies of the source records, position by position |
| ParameterSuite.PropertyOut | intern/openmesheffect/host/intern/parameters.c:198-200 | a property-set handle is written exactly when the caller asked for one, and it designates the record's own bag |
| ParameterSuite.DefinedSlots | intern/openmesheffect/host/intern/parameters.c:58-61 | a newly defined record has four slots; slot 0 owns text exactly when the type is String; slots 1-3 are left as init_parameter leaves them |
| ParameterSuite.ParamDefine | intern/openmesheffect/host/intern/parameters.c:188-202 | an existing name gives `kOfxStatErrExists` and changes neither the registry nor any record; a new name gives `kOfxStatOK` and appends one fresh record with that name, the parsed type, empty properties and the slots `DefinedSlots` gives (init_parameter's slots, with a one-byte empty string in slot 0 for String); unique names stay unique |
| ParameterSuite.DefineAbsent | intern/openmesheffect/host/intern/parameters.c:196-197 | for an absent name, one record with that name, the parsed type, empty properties and the slots `DefinedSlots` gives is appended, and the old records are kept |
| ParameterSuite.ParamGetHandle | intern/openmesheffect/host/intern/parameters.c:204-217 | `kOfxStatErrUnknown`, with nothing written, exactly when the name is absent; otherwise `kOfxStatOK` and the record at `Lookup(name)` |
| ParameterSuite.ParamSetGetPropertySet | intern/openmesheffect/host/intern/parameters.c:219-223 | returns the registry's effect property-set link |
| ParameterSuite.ParamGetPropertySet | intern/openmesheffect/host/intern/parameters.c:225-229 | returns the handle of the record's own property bag |
| ParameterSuite.ParamGetValue | intern/openmesheffect/host/intern/parameters.c:231-251 | one result per dimension, each the read of the corresponding slot; nothing is written for String and Unknown |
| ParameterSuite.ParamSetValue | intern/openmesheffect/host/intern/parameters.c:275-299 | for Double and Int, each of the first `dimensions` slots gets its argument and the other slots are kept; String and Unknown records are left untouched; the record stays well formed |
| ParameterSuite.SetThenGet | intern/openmesheffect/host/intern/parameters.c:231-299 | a Double or Int value set and then read back is that value; for String and Unknown, nothing is read and the record is unchanged |
| ParameterSuite.UnimplementedEntryPointsUnsupported | intern/openmesheffect/host/intern/parameters.c:253-373 | every time, keyframe and edit entry point returns `kOfxStatErrUnsupported` (status 5), whatever its arguments |

## Left out

- The property-bag subsystem (`init_properties`, `free_properties`, `deep_copy_property_set` from properties.h) is not part of this model. A bag is a value, and its deep copy is a value copy.
- The tracked allocator (`malloc_array`, `free_array`) is modelled by `new` for the allocation of parameter records and of the registry's pointer array; name and text buffers are values (see below). Every release is left out: old arrays, old text buffers and freed records are simply dropped. Allocation failure is not modelled.
- Parameter.Param.ReallocString and Parameter.Param.FlipStringThroughInt: name and text buffers are values (`CBuffer`: text and allocated size) with no identity, so the model cannot express that a buffer is newly allocated, or that two records share one buffer; only the new buffer's size and contents are modelled. The same holds for the separate name and text allocations of deep_copy_parameter and ensure_parameter (lines 77, 90 and 129): Parameter.Param.CopyFrom and ParameterSet.ParamSet.Rename give the destination a buffer with the right size and contents, and that the copy shares no buffer with its source holds by construction rather than by proof.
- Parameter.Param.FlipStringThroughInt: for the same reason it states that slot 0 ends as a one-byte empty string, not that this buffer is a new allocation rather than the one slot 0 held before.
- free_parameter (lines 36-44) only releases memory, so it has no counterpart.
- ParameterSet.ParamSet.Free: the loop of free_parameter_set (lines 142-145) only releases records, so the model drops all of them in one step rather than one per iteration.
- The `printf` in paramSetValue (line 284) is output and is left out.
- C variadic arguments (`va_list`) become explicit parameters:
  - paramSetValue takes a sequence of typed values;
  - paramGetValue returns what it writes through each out pointer.
- Doubles are modelled as `real`. They are only stored and returned.
- The Double/Int bits reinterpreted when the wrong union member is read are not modelled: such a read is `WrittenUnspecified`.
- Strings containing NUL characters are not distinguished from their C prefix: names and texts are modelled as the characters before the terminator.
- ParameterSet.ParamSet.Find: requires every record to be named, because the code's `strcmp` on a NULL name is undefined behaviour. Every record a suite entry point creates is named.
- ParameterSet.ParamSet.Append: `numParameters + count` must stay within the C `int` range; the model does not capture wrap-around of the count.
- ParameterSuite.ParamGetValue: the caller must pass a record with four slots.
- ParameterSuite.ParamSetValue: the caller must pass a well-formed record and, for Double and Int, arguments of the right type. Behaviour on mismatched variadic arguments is undefined in C.
- ParameterSet.ParamSet.Rename and Parameter.Param.CopyFrom: they model the name buffer at the corrected `strlen + 1` size (`CStringBuffer`), not at the `strlen` bytes the code allocates in ensure_parameter and deep_copy_parameter, so that the model does not reproduce the overflow described under Findings. The name the model stores reads the same as the code's. The record invariant's clause that the name buffer holds its terminator is therefore true of the model and not of the code.
- parameters.h and ofxCore.h are not part of this model. The type tags and status codes are taken from their use in parameters.c and from the OpenFX status values.

## Findings

| source | as written | input that shows it | evidently intended | confidence | as-written member | corrected member |
|---|---|---|---|---|---|---|
| intern/openmesheffect/host/intern/parameters.c:129-130 | the name buffer is allocated with `strlen(name)` bytes, then `strcpy` writes the name and its terminating NUL, one byte past the end (the same at lines 77-78 in deep_copy_parameter) | paramDefine with the name `"Size"`: a 4-byte buffer receives 5 bytes | allocate `strlen(name) + 1` bytes | not executed | OfxTypes.NameBufferAsWritten | OfxTypes.CStringBuffer |
