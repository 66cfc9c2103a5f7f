# Decoder output layer of libsigrokdecode, in Dafny

This project models `type_decoder.c`, the output layer that protocol decoders
call from Python. It has three parts:

- **The output registry.** `register()` appends an output descriptor to the
  instance's list of outputs. The new output's id is its position in that
  list. A Meta output must be registered with the `int` or `float` type.
- **The payload converters.** `convert_annotation`, `convert_binary`,
  `convert_meta` and `convert_packet` check an untyped Python value and build
  the typed record that a frontend callback receives. They check its shape,
  its element types, and its class index against the decoder's class tables.
- **The dispatcher.** `put(start, end, output_id, data)` looks the output up
  by position and routes the data according to the output's type:
  - annotation, binary and Meta data goes only to the session callback of
    that type;
  - Python data goes to every instance stacked on this one, then to the
    callback;
  - packet data goes to every stacked instance, then, converted, to the
    callback.

Files:

- `pyobjects.dfy` (module `PyObjects`): Python values as the file sees them,
  and the C integer types.
- `converters.dfy` (module `Converters`): the converters as pure functions from
  a `Value` to a `Result`. `Submitted` is their inverse: it gives the value a
  decoder puts for a given record. Lemmas prove that each converter accepts
  exactly the submitted form of a well-formed record.
- `decoder.dfy` (module `Decoder`): the class `DecoderInstance`.
  - `Register` appends to the `outputs` field. The invariant `Valid()` keeps
    each id equal to its position.
  - `Put` routes data, looping over the stacked instances. It returns its
    result and the ordered list of calls it made, as `Decode` and `Callback`
    events. `Put` is proved equal to the function `Dispatch`. The routing
    lemmas are stated about `Dispatch`.
  - Three client methods walk through typical uses: an annotation reaching its
    callback, two identical forwards, and a Meta type mismatch.
  - The constructor stands in for instance creation, which is done outside
    this file.

## Model

| member | source | states |
|---|---|---|
| `PyObjects.StrSeq` | type_decoder.c:86-90 | The text list converts exactly when every item is a string. The strings it gives rebuild the original list. |
| `PyObjects.StrSeqOfStrValues` | type_decoder.c:86-90 | A list built from strings converts back to those same strings. |
| `Converters.ConvertAnnotation` | type_decoder.c:38-99 | Success only for a 2-element list `[c, [str, ...]]` where `c` is at least 0 and below the number of annotation classes. The record carries that class and those texts. A tuple is always rejected. An integer class outside the table fails with UnregisteredClass. |
| `Converters.ConvertAnnotationAcceptsSubmitted` | type_decoder.c:47-98 | Every annotation whose class is declared is accepted in its submitted form and converts back to itself. |
| `Converters.ConvertBinary` | type_decoder.c:101-167 | Success only for a 2-tuple `(c, bytes)` where `c` names a binary class and the bytes are non-empty. The record's size is the byte count and its data equals the bytes. A declared class with empty bytes fails with EmptyBinary. |
| `Converters.ConvertBinaryAcceptsSubmitted` | type_decoder.c:110-166 | Every non-empty binary record of a declared class is accepted in its submitted form and converts back to itself. |
| `Converters.ConvertMeta` | type_decoder.c:169-197 | Success exactly for an integer that fits `long long` on an Int64 output, or a float on a Double output. Every other pairing is rejected, and an integer that overflows fails with Overflow. |
| `Converters.ConvertMetaAcceptsSubmitted` | type_decoder.c:174-193 | Every Meta value of the declared type is accepted as submitted. |
| `Converters.ConvertPacket` | type_decoder.c:199-321 | Success only for a list `[c, subtype, num]` with subtype Location, or `[c, subtype, num, name, value]` with subtype Field, where `c` is a declared annotation class and `num` fits a C int. A Location record has no field name or value. Any other integer subtype fails with InvalidPacketType. |
| `Converters.ConvertPacketAcceptsSubmitted` | type_decoder.c:210-320 | Every well-formed Location or Field packet is accepted in its submitted form and converts back to itself. |
| `Converters.PacketArity` | type_decoder.c:249-309 | A Location packet without exactly 3 elements, or a Field packet without exactly 5, is rejected. When its class is declared, the error reports the element count (type_decoder.c:253-256, 270-273); an undeclared class is reported first (type_decoder.c:234-237). |
| `Converters.IntegersWrapAsWritten` | type_decoder.c:72-77 | As written, `0x100000001` is accepted as annotation class 1 of a 2-class table, and the subtype and packet number wrap too. The corrected lookup and read reject these values. |
| `Converters.CIntAsWritten` | type_decoder.c:72-73 | As written, a Python int read into a C `int` keeps the low 32 bits of a `long` (same value modulo 2^32), is unchanged when it fits a C `int`, and is -1 when it does not fit a `long`. The same read happens at lines 133, 233, 247, 265 and 282. |
| `Converters.ClassAsWritten` | type_decoder.c:72-77 | As written, a class is accepted exactly when its wrapped C `int`, taken as unsigned, is below the table size, and the record keeps the wrapped number; a rejection reports that number. For a non-negative number that fits a C `int`, it agrees with the corrected lookup. |
| `Converters.PacketHeaderAsWritten` | type_decoder.c:216-247 | As written, the head of `convert_packet` dereferences a NULL item exactly for an empty list, or a one-element list whose integer class is accepted. A header it does read comes from a list of at least two integers, with the class and subtype read as wrapped C `int`s. |
| `Converters.ShortPacketDereferencesNullAsWritten` | type_decoder.c:227-247 | As written, `[]` and `[0]` reach PyLong_Check with a NULL item. The corrected converter rejects both as too short. |
| `Decoder.MetaInfoOf` | type_decoder.c:486-517 | Registration fails exactly for a Meta output whose type is missing or is neither `int` nor `float`. `int` maps to Int64 and `float` to Double. Name and description are kept, and only a Meta output gets meta information. |
| `Decoder.MetaCheckAsWritten` | type_decoder.c:486-497 | As written, the Meta type check reads `tp_name` of NULL exactly for a Meta output registered without `meta`. In every other case it raises TypeError exactly when the corrected check `MetaInfoOf` fails, and proceeds with the same Meta type otherwise. |
| `Decoder.MetaWithoutTypeDereferencesNullAsWritten` | type_decoder.c:486-497 | As written, registering a Meta output without a type reads the name of a NULL type object. The corrected check refuses it as unsupported. |
| `Decoder.Forward` | type_decoder.c:382-393 | Forwarding makes exactly one `decode(start, end, data)` call per stacked instance, in stack order. |
| `Decoder.DecoderInstance.Register` | type_decoder.c:456-523 | On a rejected Meta type, returns UnsupportedMetaType and appends nothing. Otherwise appends exactly one descriptor whose id is the old list length and returns that id. Earlier descriptors are unchanged, and `Valid()` (id equals position) is preserved. |
| `Decoder.DecoderInstance.SendDownstream` | type_decoder.c:382-393 | The loop's calls are exactly `Forward` over the stacked instances. |
| `Decoder.DecoderInstance.Put` | type_decoder.c:323-454 | Put's result and the calls it makes, in order, are exactly `Dispatch` of the instance's outputs, class tables and stack. The properties below are proved of `Dispatch`. |
| `Decoder.PutUnknownOutput` | type_decoder.c:350-354 | An output id below 0, or not below the number of registered outputs, fails with InvalidOutputId and makes no call at all. |
| `Decoder.PutCallbackOnly` | type_decoder.c:369-420 | Annotation, binary and Meta data is never forwarded. There is one callback call, carrying the converted record, exactly when the session has a callback for the type and the data converts. Otherwise there is no call. `put` returns None (type_decoder.c:453) in every case. |
| `Decoder.PutForwarding` | type_decoder.c:381-444 | Python and packet data first reach every stacked instance once, in order, with the same range and object, whether or not a callback exists. At most one callback follows, exactly when one is registered and the data converts. Python data passes unconverted. A failed packet conversion drops only the callback. `put` returns None. |
| `Decoder.PutOtherOutputType` | type_decoder.c:445-453 | An output registered with an unknown type number makes no call, and `put` returns None. |
| `Decoder.PutEmptyBinary` | type_decoder.c:401-410 | Empty binary data reaches no one, whether or not a callback is registered. |

## Left out

- Python C-API mechanics are not modelled. This covers argument parsing, finding the instance from `self`, reference counting and the type object. `put` and `register` take arguments that are already parsed and typed: `u64` sample numbers and a C `int` output id and output type.
- Allocation failures are not modelled.
- Logging is not modelled, including the `OUTPUT_TYPES` name table. `register` accepts any output type number. So the debug line of `put` (type_decoder.c:359) reads outside that table for a type outside 0 to 4. Only a log line depends on it.
- Pending Python exceptions are not modelled. After a failed `convert_meta`, an overflowing `PyLong_AsLong`, or `PyList_Size` on a tuple, `put` returns None while an exception is still set. The model reports only `put`'s own C return value, `Py_RETURN_NONE` (type_decoder.c:453), as PutOk. In CPython a C function that returns a value with an exception set makes its Python caller see a SystemError, so a Meta type mismatch (type_decoder.c:176, 414-416) would surface in the decoder as an exception; this is not modelled. Likewise, the NULL returned for an unknown output id comes without an exception set.
- The session callback list is modelled as the set of output types that have a callback. Handler identity and `cb_data` are not modelled. Callback bodies and the stacked instances' `decode()` are external and appear only as `Callback` and `Decode` events. Nested puts, and exceptions caught from `decode()`, are not modelled.
- The value of a float is not modelled. Only its type is.
- `Converters.ConvertMeta`: the Double record does not carry the number, because float values are not modelled.
- Strings are treated as opaque. `py_strseq_to_char` lives in util.c, which is not part of this model; it is modelled as "every item is a string", and its encoding step is not modelled. The ASCII encoding of packet field strings (type_decoder.c:290, 300) is not modelled either.
- `libsigrokdecode.h` is not part of this model. SRD_PACKET_LOCATION and SRD_PACKET_FIELD are taken to be 0 and 1. The output types 0 to 4 follow the order of the `OUTPUT_TYPES` table.
- For a non-Meta output, the source leaves the meta fields of the descriptor uninitialised. The model records no meta information.
- The converters and the dispatcher use the corrected integer reading and packet length check from the Findings below. The as-written behaviour is modelled by the members named there.

## Findings

| source | as written | input that shows it | evidently intended | confidence | as-written member | corrected member |
|---|---|---|---|---|---|---|
| type_decoder.c:72-73 | Class indices, the packet subtype and the packet number are read with `PyLong_AsLong` into a C `int`, keeping the low 32 bits (also at lines 133, 233, 247, 265 and 282). | `[0x100000001, ["x"]]` on an annotation output of a decoder with classes start and stop is accepted as class 1 when an annotation callback is registered. | Accept only an integer that names a declared class. Reject a number that does not fit, as `convert_meta` does. | medium (assumes a 64-bit `long`); not executed | `Converters.IntegersWrapAsWritten` | `Converters.ConvertAnnotation` |
| type_decoder.c:227-247 | `convert_packet` fetches elements 0 and 1 with no length check and passes the NULL it gets to `PyLong_Check`. | A packet put as `[]`, or as `[0]` with class 0 declared, when a packet callback is registered. | Reject a packet list shorter than two elements. | high; not executed | `Converters.ShortPacketDereferencesNullAsWritten` | `Converters.ConvertPacket` |
| type_decoder.c:486-497 | For a Meta output registered without a `meta` argument, the type pointer stays NULL and the error message reads `tp_name` through it. | `register(OUTPUT_META)` | Raise TypeError for the missing type. | high; not executed | `Decoder.MetaWithoutTypeDereferencesNullAsWritten` | `Decoder.MetaInfoOf` |
