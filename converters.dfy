/** The payload converters of the decoder output layer: each checks an untyped
    value submitted to `put()` and builds the typed record a frontend callback
    receives. A converter only reads its inputs and either fails or yields the
    record, so each is a function from a `Value` to a `Result`. */
module Converters {
  import opened PyObjects

  /** Packet subtypes, SRD_PACKET_LOCATION and SRD_PACKET_FIELD. */
  const PacketLocation: int := 0
  const PacketField: int := 1

  /** The value type a Meta output was registered with. */
  datatype MetaType = Int64 | Double

  /** A Meta value; the value of a double is not modelled. */
  datatype MetaValue = Int64Value(i: int) | DoubleValue

  /** The `data` of a record handed to a callback, one variant per output type. */
  datatype Payload =
    | AnnotationData(annClass: nat, texts: seq<string>)
    | BinaryData(binClass: nat, size: nat, bytes: seq<bv8>)
    | MetaData(value: MetaValue)
    | PacketData(annClass: nat, packetType: int, packetNum: i32,
                 fieldName: Option<string>, fieldValue: Option<string>)
    | PythonData(obj: Value)

  /** Why a converter rejected a value; each error is a distinct message of
      the source. */
  datatype ConvError =
    | NotAList
    | NotATuple
    | WrongLength(n: int)
    | NotAnInteger
    | NotAStringList
    | NotAString
    | NotBytes
    | EmptyBinary
    | UnregisteredClass(c: int)
    | InvalidPacketType(t: int)
    | MetaTypeMismatch
    | Overflow

  /** The value a protocol decoder submits to `put()` for a record with this
      data: `[class, [text, ...]]` for an annotation, `(class, bytes)` for a
      binary record, the bare number for a Meta value, `[class, subtype, num]`
      or `[class, subtype, num, name, value]` for a packet, and the object
      itself for Python output. */
  function Submitted(p: Payload): Value
  {
    match p
    case AnnotationData(c, ts) => VList([VInt(c), VList(StrValues(ts))])
    case BinaryData(c, _, bs) => VTuple([VInt(c), VBytes(bs)])
    case MetaData(Int64Value(i)) => VInt(i)
    case MetaData(DoubleValue) => VFloat
    case PacketData(c, t, n, name, val) =>
      if name.Some? && val.Some? then VList([VInt(c), VInt(t), VInt(n), VStr(name.value), VStr(val.value)])
      else VList([VInt(c), VInt(t), VInt(n)])
    case PythonData(obj) => obj
  }

  /** An annotation record whose class is declared by the decoder. */
  predicate AnnotationOk(classes: seq<string>, p: Payload)
  {
    p.AnnotationData? && p.annClass < |classes|
  }

  /** A binary record whose class is declared, holding a non-empty buffer of
      `size` bytes. */
  predicate BinaryOk(classes: seq<string>, p: Payload)
  {
    p.BinaryData? && p.binClass < |classes| && p.size == |p.bytes| && p.size > 0
  }

  /** A Meta record whose value has the output's declared type and, for an
      integer, fits a `long long`. */
  predicate MetaOk(t: MetaType, p: Payload)
  {
    p.MetaData? &&
    match t
    case Int64 => p.value.Int64Value? && IsInt64(p.value.i)
    case Double => p.value.DoubleValue?
  }

  /** A packet record with a declared annotation class that is either a
      location (no field name or value) or a field (both present). */
  predicate PacketOk(classes: seq<string>, p: Payload)
  {
    p.PacketData? && p.annClass < |classes| &&
    ((p.packetType == PacketLocation && p.fieldName.None? && p.fieldValue.None?) ||
     (p.packetType == PacketField && p.fieldName.Some? && p.fieldValue.Some?))
  }

  /** A submitted class index looked up in a class table by position. */
  function LookupClass(classes: seq<string>, c: int): Result<nat, ConvError>
  {
    if 0 <= c < |classes| then Success(c) else Failure(UnregisteredClass(c))
  }

  /** A Python int read into a C `int`, rejected when it does not fit. */
  function ReadCInt(x: int): Result<i32, ConvError>
  {
    if -0x8000_0000 <= x < 0x8000_0000 then Success(x) else Failure(Overflow)
  }

  /** convert_annotation. The first check admits a tuple, but the size is read
      with PyList_Size, which gives -1 for a tuple, so a tuple is rejected. */
  function ConvertAnnotation(classes: seq<string>, v: Value): (r: Result<Payload, ConvError>)
    ensures r.Success? ==> AnnotationOk(classes, r.value) && Submitted(r.value) == v
    ensures v.VTuple? ==> r.Failure?
    ensures v.VList? && |v.items| == 2 && v.items[0].VInt? && !(0 <= v.items[0].i < |classes|) ==>
              r == Failure(UnregisteredClass(v.items[0].i))
  {
    if !v.VList? && !v.VTuple? then Failure(NotAList)
    else if ListSize(v) != 2 then Failure(WrongLength(ListSize(v)))
    else if !v.items[0].VInt? then Failure(NotAnInteger)
    else
      match LookupClass(classes, v.items[0].i)
      case Failure(e) => Failure(e)
      case Success(c) =>
        if !v.items[1].VList? then Failure(NotAStringList)
        else
          match StrSeq(v.items[1].items)
          case None => Failure(NotAStringList)
          case Some(ts) =>
            assert v.items == [VInt(c), VList(StrValues(ts))];
            Success(AnnotationData(c, ts))
  }

  /** convert_binary. */
  function ConvertBinary(classes: seq<string>, v: Value): (r: Result<Payload, ConvError>)
    ensures r.Success? ==> BinaryOk(classes, r.value) && Submitted(r.value) == v
    ensures v.VTuple? && |v.items| == 2 && v.items[0].VInt? && !(0 <= v.items[0].i < |classes|) ==>
              r == Failure(UnregisteredClass(v.items[0].i))
    ensures v.VTuple? && |v.items| == 2 && v.items[0].VInt? && 0 <= v.items[0].i < |classes| &&
            v.items[1] == VBytes([]) ==>
              r == Failure(EmptyBinary)
  {
    if !v.VTuple? then Failure(NotATuple)
    else if |v.items| != 2 then Failure(WrongLength(|v.items|))
    else if !v.items[0].VInt? then Failure(NotAnInteger)
    else
      match LookupClass(classes, v.items[0].i)
      case Failure(e) => Failure(e)
      case Success(c) =>
        var b := v.items[1];
        if !b.VBytes? then Failure(NotBytes)
        else if |b.bytes| == 0 then Failure(EmptyBinary)
        else
          assert v.items == [VInt(c), VBytes(b.bytes)];
          Success(BinaryData(c, |b.bytes|, b.bytes))
  }

  /** convert_meta, for the type the output was registered with. */
  function ConvertMeta(t: MetaType, v: Value): (r: Result<Payload, ConvError>)
    ensures r.Success? <==> (t == Int64 && v.VInt? && IsInt64(v.i)) || (t == Double && v.VFloat?)
    ensures r.Success? ==> MetaOk(t, r.value) && Submitted(r.value) == v
    ensures t == Int64 && v.VInt? && !IsInt64(v.i) ==> r == Failure(Overflow)
  {
    match t
    case Int64 =>
      if !v.VInt? then Failure(MetaTypeMismatch)
      else if !IsInt64(v.i) then Failure(Overflow)
      else Success(MetaData(Int64Value(v.i)))
    case Double =>
      if !v.VFloat? then Failure(MetaTypeMismatch)
      else Success(MetaData(DoubleValue))
  }

  /** convert_packet. Its first two elements are read before any length
      check; here a list shorter than two is rejected (see
      PacketHeaderAsWritten for what the source does with one). */
  function ConvertPacket(classes: seq<string>, v: Value): (r: Result<Payload, ConvError>)
    ensures r.Success? ==> PacketOk(classes, r.value) && Submitted(r.value) == v
    ensures v.VList? && |v.items| >= 2 && v.items[0].VInt? && 0 <= v.items[0].i < |classes| &&
            v.items[1].VInt? && v.items[1].i != PacketLocation && v.items[1].i != PacketField ==>
              r == Failure(InvalidPacketType(v.items[1].i))
  {
    if !v.VList? then Failure(NotAList)
    else if |v.items| < 2 then Failure(WrongLength(|v.items|))
    else if !v.items[0].VInt? then Failure(NotAnInteger)
    else
      match LookupClass(classes, v.items[0].i)
      case Failure(e) => Failure(e)
      case Success(c) =>
        if !v.items[1].VInt? then Failure(NotAnInteger)
        else
          var t := v.items[1].i;
          if t == PacketLocation then
            if |v.items| != 3 then Failure(WrongLength(|v.items|))
            else if !v.items[2].VInt? then Failure(NotAnInteger)
            else
              match ReadCInt(v.items[2].i)
              case Failure(e) => Failure(e)
              case Success(n) =>
                assert v.items == [VInt(c), VInt(t), VInt(n)];
                Success(PacketData(c, t, n, None, None))
          else if t == PacketField then
            if |v.items| != 5 then Failure(WrongLength(|v.items|))
            else if !v.items[2].VInt? then Failure(NotAnInteger)
            else
              match ReadCInt(v.items[2].i)
              case Failure(e) => Failure(e)
              case Success(n) =>
                if !v.items[3].VStr? || !v.items[4].VStr? then Failure(NotAString)
                else
                  var name, val := v.items[3].s, v.items[4].s;
                  assert v.items == [VInt(c), VInt(t), VInt(n), VStr(name), VStr(val)];
                  Success(PacketData(c, t, n, Some(name), Some(val)))
          else Failure(InvalidPacketType(t))
  }

  /** An annotation is accepted exactly in the form a decoder submits it. */
  lemma ConvertAnnotationAcceptsSubmitted(classes: seq<string>, p: Payload)
    requires AnnotationOk(classes, p)
    ensures ConvertAnnotation(classes, Submitted(p)) == Success(p)
  {
    StrSeqOfStrValues(p.texts);
  }

  /** A binary record is accepted exactly in the form a decoder submits it. */
  lemma ConvertBinaryAcceptsSubmitted(classes: seq<string>, p: Payload)
    requires BinaryOk(classes, p)
    ensures ConvertBinary(classes, Submitted(p)) == Success(p)
  {
  }

  /** A Meta value of the declared type is accepted as submitted. */
  lemma ConvertMetaAcceptsSubmitted(t: MetaType, p: Payload)
    requires MetaOk(t, p)
    ensures ConvertMeta(t, Submitted(p)) == Success(p)
  {
  }

  /** A packet is accepted exactly in the form a decoder submits it. */
  lemma ConvertPacketAcceptsSubmitted(classes: seq<string>, p: Payload)
    requires PacketOk(classes, p)
    ensures ConvertPacket(classes, Submitted(p)) == Success(p)
  {
  }

  /** A packet of either subtype with the wrong number of elements is
      rejected, whatever the elements are; once its class is found to be
      declared, the error reports the element count. */
  lemma PacketArity(classes: seq<string>, v: Value)
    requires v.VList? && |v.items| >= 2 && v.items[1].VInt?
    requires v.items[1].i == PacketLocation ==> |v.items| != 3
    requires v.items[1].i == PacketField ==> |v.items| != 5
    ensures ConvertPacket(classes, v).Failure?
    ensures v.items[0].VInt? && 0 <= v.items[0].i < |classes| &&
            (v.items[1].i == PacketLocation || v.items[1].i == PacketField) ==>
              ConvertPacket(classes, v) == Failure(WrongLength(|v.items|))
  {
  }

  // The source as written, where it differs from the converters above.

  /** PyLong_AsLong followed by the assignment to a C `int`, on an LP64
      platform: a number outside `long` gives -1 (leaving OverflowError
      pending); any other keeps its low 32 bits, read as signed. */
  function CIntAsWritten(x: int): (c: i32)
    ensures IsInt64(x) ==> (c - x) % 0x1_0000_0000 == 0
    ensures -0x8000_0000 <= x < 0x8000_0000 ==> c == x
    ensures !IsInt64(x) ==> c == -1
  {
    if IsInt64(x) then
      var w := x % 0x1_0000_0000;
      if w < 0x8000_0000 then w else w - 0x1_0000_0000
    else -1
  }

  /** A class looked up as written: the C `int` is passed to
      g_slist_nth_data as a `guint`, and the record keeps the C `int`. */
  function ClassAsWritten(classes: seq<string>, x: int): (r: Result<i32, ConvError>)
    ensures r.Success? <==> CIntAsWritten(x) % 0x1_0000_0000 < |classes|
    ensures r.Success? ==> r.value == CIntAsWritten(x)
    ensures r.Failure? ==> r == Failure(UnregisteredClass(CIntAsWritten(x)))
    ensures 0 <= x < 0x8000_0000 ==>
              (r.Success? <==> LookupClass(classes, x).Success?) && (r.Success? ==> r.value == x)
  {
    var c := CIntAsWritten(x);
    if c % 0x1_0000_0000 < |classes| then Success(c) else Failure(UnregisteredClass(c))
  }

  /** Integers that do not fit a C `int` wrap around: an index past the class
      table names class 1, and a subtype or packet number is read as another. */
  lemma IntegersWrapAsWritten()
    ensures ClassAsWritten(["start", "stop"], 0x1_0000_0001) == Success(1)
    ensures LookupClass(["start", "stop"], 0x1_0000_0001).Failure?
    ensures CIntAsWritten(0x1_0000_0000 + PacketField) == PacketField
    ensures CIntAsWritten(0x1_0000_0005) == 5 && ReadCInt(0x1_0000_0005) == Failure(Overflow)
  {
  }

  /** An element read with PyList_GetItem: NULL past the end of the list. */
  datatype Item = Item(v: Value) | NullItem

  function ListGetItem(items: seq<Value>, k: nat): Item
  {
    if k < |items| then Item(items[k]) else NullItem
  }

  /** The outcome of the head of convert_packet as written. */
  datatype HeaderOutcome = HeaderRead(annClass: i32, packetType: i32) | HeaderRejected | NullDereference

  /** Lines 216-247 as written: the class and the subtype are fetched with
      PyList_GetItem and passed straight to PyLong_Check, which dereferences
      the NULL it gets for a missing element. */
  function PacketHeaderAsWritten(classes: seq<string>, v: Value): (h: HeaderOutcome)
    ensures h == NullDereference <==>
              v.VList? &&
              (|v.items| == 0 ||
               (|v.items| == 1 && v.items[0].VInt? && ClassAsWritten(classes, v.items[0].i).Success?))
    ensures h.HeaderRead? ==>
              v.VList? && |v.items| >= 2 && v.items[0].VInt? && v.items[1].VInt? &&
              ClassAsWritten(classes, v.items[0].i) == Success(h.annClass) &&
              h.packetType == CIntAsWritten(v.items[1].i)
  {
    if !v.VList? then HeaderRejected
    else
      match ListGetItem(v.items, 0)
      case NullItem => NullDereference
      case Item(first) =>
        if !first.VInt? then HeaderRejected
        else
          match ClassAsWritten(classes, first.i)
          case Failure(_) => HeaderRejected
          case Success(c) =>
            match ListGetItem(v.items, 1)
            case NullItem => NullDereference
            case Item(second) =>
              if !second.VInt? then HeaderRejected else HeaderRead(c, CIntAsWritten(second.i))
  }

  /** An empty packet list, or one holding only a valid class, makes the
      source dereference NULL; the converter above rejects both. */
  lemma ShortPacketDereferencesNullAsWritten(classes: seq<string>)
    requires |classes| > 0
    ensures PacketHeaderAsWritten(classes, VList([])) == NullDereference
    ensures PacketHeaderAsWritten(classes, VList([VInt(0)])) == NullDereference
    ensures ConvertPacket(classes, VList([])) == Failure(WrongLength(0))
    ensures ConvertPacket(classes, VList([VInt(0)])) == Failure(WrongLength(1))
  {
  }
}
