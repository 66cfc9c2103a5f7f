/** The `register()` and `put()` methods of a decoder instance: the registry of
    the instance's outputs and the dispatcher that routes what the decoder
    puts on one of them to the instances stacked on top of it and to the
    frontend callback of that output type. */
module Decoder {
  import opened PyObjects
  import opened Converters

  /** Output types (SRD_OUTPUT_*), numbered as the OUTPUT_TYPES name table. */
  const OutputAnn: int := 0
  const OutputPython: int := 1
  const OutputBinary: int := 2
  const OutputMeta: int := 3
  const OutputPacket: int := 4

  predicate IsOutputType(t: int)
  {
    OutputAnn <= t <= OutputPacket
  }

  /** The class tables of a decoder type, by position: its annotation
      classes and its binary classes. */
  datatype DecoderType = DecoderType(annotations: seq<string>, binary: seq<string>)

  /** The value type, name and description of a Meta output. */
  datatype MetaInfo = MetaInfo(metaType: MetaType, name: string, descr: string)

  /** One registered output (srd_pd_output); `meta` is present exactly for a
      Meta output. */
  datatype OutputDescriptor = OutputDescriptor(
    id: nat, outputType: i32, owner: string, protoId: string, meta: Option<MetaInfo>)

  /** The optional `meta=(type, name, description)` argument of `register()`. */
  datatype MetaArg = MetaArg(pyType: PyType, name: string, descr: string)

  datatype RegisterError = UnsupportedMetaType

  /** The record passed to a callback (srd_proto_data). */
  datatype ProtoData = ProtoData(start: u64, end: u64, pdo: OutputDescriptor, data: Payload)

  /** One effect of `put()`: a call to a stacked instance's `decode()`, or a
      call to the frontend callback registered for an output type. */
  datatype Call =
    | Decode(instance: string, start: u64, end: u64, data: Value)
    | Callback(outputType: int, pdata: ProtoData)

  datatype PutError = InvalidOutputId(id: int)

  datatype PutResult = PutOk | PutFailed(error: PutError)

  /** The meta information `register()` records for an output, or why it
      refuses to register it. */
  function MetaInfoOf(outputType: int, meta: Option<MetaArg>): (r: Result<Option<MetaInfo>, RegisterError>)
    ensures r.Failure? <==>
              outputType == OutputMeta && (meta.None? || meta.value.pyType !in {IntType, FloatType})
    ensures r.Success? ==> (r.value.Some? <==> outputType == OutputMeta)
    ensures r.Success? && r.value.Some? ==>
              r.value.value.metaType == (if meta.value.pyType == IntType then Int64 else Double) &&
              r.value.value.name == meta.value.name && r.value.value.descr == meta.value.descr
  {
    if outputType != OutputMeta then Success(None)
    else
      match meta
      case None => Failure(UnsupportedMetaType)
      case Some(m) =>
        if m.pyType == IntType then Success(Some(MetaInfo(Int64, m.name, m.descr)))
        else if m.pyType == FloatType then Success(Some(MetaInfo(Double, m.name, m.descr)))
        else Failure(UnsupportedMetaType)
  }

  /** Every Meta output carries the type it was registered with. */
  predicate MetaOutputsTyped(outputs: seq<OutputDescriptor>)
  {
    forall k :: 0 <= k < |outputs| && outputs[k].outputType == OutputMeta ==> outputs[k].meta.Some?
  }

  /** The `decode()` calls of forwarding: one per stacked instance, in stack
      order, each with the same range and the object itself. */
  function Forward(next: seq<string>, start: u64, end: u64, data: Value): (calls: seq<Call>)
    ensures |calls| == |next|
    ensures forall k :: 0 <= k < |next| ==> calls[k] == Decode(next[k], start, end, data)
  {
    if next == [] then []
    else [Decode(next[0], start, end, data)] + Forward(next[1..], start, end, data)
  }

  /** What the callback for the type of `pdo` receives, or why it is skipped. */
  function CallbackData(decoder: DecoderType, pdo: OutputDescriptor, data: Value): Result<Payload, ConvError>
    requires IsOutputType(pdo.outputType)
    requires pdo.outputType == OutputMeta ==> pdo.meta.Some?
  {
    if pdo.outputType == OutputAnn then ConvertAnnotation(decoder.annotations, data)
    else if pdo.outputType == OutputPython then Success(PythonData(data))
    else if pdo.outputType == OutputBinary then ConvertBinary(decoder.binary, data)
    else if pdo.outputType == OutputMeta then ConvertMeta(pdo.meta.value.metaType, data)
    else ConvertPacket(decoder.annotations, data)
  }

  /** The callback call of a put on `pdo`, if the session has a callback for
      its type and the data converts. */
  function Delivery(decoder: DecoderType, callbacks: set<int>, start: u64, end: u64,
                    pdo: OutputDescriptor, data: Value): seq<Call>
    requires pdo.outputType == OutputMeta ==> pdo.meta.Some?
  {
    if IsOutputType(pdo.outputType) && pdo.outputType in callbacks then
      match CallbackData(decoder, pdo, data)
      case Success(p) => [Callback(pdo.outputType, ProtoData(start, end, pdo, p))]
      case Failure(_) => []
    else []
  }

  /** What `put(start, end, outputId, data)` does on an instance with these
      outputs, class tables and stacked instances, under a session with
      callbacks for the output types in `callbacks`: its result and the calls
      it makes, in order. */
  function Dispatch(decoder: DecoderType, outputs: seq<OutputDescriptor>, next: seq<string>,
                    callbacks: set<int>, start: u64, end: u64, outputId: int, data: Value): (PutResult, seq<Call>)
    requires MetaOutputsTyped(outputs)
  {
    if !(0 <= outputId < |outputs|) then (PutFailed(InvalidOutputId(outputId)), [])
    else
      var pdo := outputs[outputId];
      var delivered := Delivery(decoder, callbacks, start, end, pdo, data);
      if pdo.outputType == OutputPython || pdo.outputType == OutputPacket then
        (PutOk, Forward(next, start, end, data) + delivered)
      else (PutOk, delivered)
  }

  /** A decoder instance (srd_decoder_inst), as far as its output layer goes. */
  class DecoderInstance {
    /** The instance id, the default protocol id of its outputs. */
    const instId: string
    /** The class tables of the instance's decoder type. */
    const decoder: DecoderType
    /** The ids of the instances stacked on this one, in stack order. */
    const next: seq<string>
    /** The registered outputs; only ever appended to. */
    var outputs: seq<OutputDescriptor>

    /** Each output's id is its position, and it belongs to this instance. */
    ghost predicate Valid()
      reads this
    {
      MetaOutputsTyped(outputs) &&
      forall k :: 0 <= k < |outputs| ==>
        outputs[k].id == k && outputs[k].owner == instId &&
        (outputs[k].meta.Some? ==> outputs[k].outputType == OutputMeta)
    }

    /** A new instance has no outputs. */
    constructor (instId: string, decoder: DecoderType, next: seq<string>)
      ensures Valid()
      ensures this.instId == instId && this.decoder == decoder && this.next == next
      ensures outputs == []
    {
      this.instId := instId;
      this.decoder := decoder;
      this.next := next;
      outputs := [];
    }

    /** Decoder_register: registers an output and returns its id, the number
      of outputs registered before it. `protoId` defaults to the instance id. */
    method Register(outputType: i32, protoId: Option<string>, meta: Option<MetaArg>)
      returns (r: Result<nat, RegisterError>)
      requires Valid()
      modifies this
      ensures Valid()
      ensures MetaInfoOf(outputType, meta).Failure? ==>
                r == Failure(UnsupportedMetaType) && outputs == old(outputs)
      ensures MetaInfoOf(outputType, meta).Success? ==>
                r == Success(|old(outputs)|) &&
                outputs == old(outputs) + [OutputDescriptor(
                  |old(outputs)|, outputType, instId,
                  if protoId.Some? then protoId.value else instId,
                  MetaInfoOf(outputType, meta).value)]
    {
      var m := MetaInfoOf(outputType, meta);
      if m.Failure? {
        return Failure(m.error);
      }
      var pdo := OutputDescriptor(|outputs|, outputType, instId,
                                  if protoId.Some? then protoId.value else instId, m.value);
      outputs := outputs + [pdo];
      r := Success(pdo.id);
    }

    /** The loop of Decoder_put that calls `decode(start, end, data)` on each
      stacked instance. */
    method SendDownstream(start: u64, end: u64, data: Value) returns (calls: seq<Call>)
      ensures calls == Forward(next, start, end, data)
    {
      calls := [];
      var i := 0;
      while i < |next|
        invariant 0 <= i <= |next|
        invariant |calls| == i
        invariant forall k :: 0 <= k < i ==> calls[k] == Decode(next[k], start, end, data)
      {
        calls := calls + [Decode(next[i], start, end, data)];
        i := i + 1;
      }
    }

    /** Decoder_put: routes `data` put on output `outputId` and reports the
      calls it made. */
    method Put(callbacks: set<int>, start: u64, end: u64, outputId: i32, data: Value)
      returns (r: PutResult, calls: seq<Call>)
      requires Valid()
      ensures (r, calls) == Dispatch(decoder, outputs, next, callbacks, start, end, outputId, data)
    {
      if !(0 <= outputId < |outputs|) {
        return PutFailed(InvalidOutputId(outputId)), [];
      }
      var pdo := outputs[outputId];
      calls := [];
      if pdo.outputType == OutputAnn {
        if OutputAnn in callbacks {
          var c := ConvertAnnotation(decoder.annotations, data);
          if c.Success? {
            calls := [Callback(OutputAnn, ProtoData(start, end, pdo, c.value))];
          }
        }
      } else if pdo.outputType == OutputPython {
        calls := SendDownstream(start, end, data);
        assert calls + [] == calls;
        if OutputPython in callbacks {
          calls := calls + [Callback(OutputPython, ProtoData(start, end, pdo, PythonData(data)))];
        }
      } else if pdo.outputType == OutputBinary {
        if OutputBinary in callbacks {
          var c := ConvertBinary(decoder.binary, data);
          if c.Success? {
            calls := [Callback(OutputBinary, ProtoData(start, end, pdo, c.value))];
          }
        }
      } else if pdo.outputType == OutputMeta {
        if OutputMeta in callbacks {
          var c := ConvertMeta(pdo.meta.value.metaType, data);
          if c.Success? {
            calls := [Callback(OutputMeta, ProtoData(start, end, pdo, c.value))];
          }
        }
      } else if pdo.outputType == OutputPacket {
        calls := SendDownstream(start, end, data);
        assert calls + [] == calls;
        if OutputPacket in callbacks {
          var c := ConvertPacket(decoder.annotations, data);
          if c.Success? {
            calls := calls + [Callback(OutputPacket, ProtoData(start, end, pdo, c.value))];
          }
        }
      }
      r := PutOk;
    }
  }

  /** A put on an output id that was never registered fails and calls
      nothing. */
  lemma PutUnknownOutput(decoder: DecoderType, outputs: seq<OutputDescriptor>, next: seq<string>,
                         callbacks: set<int>, start: u64, end: u64, outputId: int, data: Value)
    requires MetaOutputsTyped(outputs)
    requires !(0 <= outputId < |outputs|)
    ensures Dispatch(decoder, outputs, next, callbacks, start, end, outputId, data) ==
              (PutFailed(InvalidOutputId(outputId)), [])
  {
  }

  /** Annotation, binary and Meta data never goes to a stacked instance; it
      goes to the callback of its type, converted, when the session has one
      and the data converts, and otherwise nowhere. The put succeeds either
      way. */
  lemma PutCallbackOnly(decoder: DecoderType, outputs: seq<OutputDescriptor>, next: seq<string>,
                        callbacks: set<int>, start: u64, end: u64, outputId: int, data: Value)
    requires MetaOutputsTyped(outputs)
    requires 0 <= outputId < |outputs|
    requires outputs[outputId].outputType in {OutputAnn, OutputBinary, OutputMeta}
    ensures var (r, calls) := Dispatch(decoder, outputs, next, callbacks, start, end, outputId, data);
      var pdo := outputs[outputId];
      var c := CallbackData(decoder, pdo, data);
      r == PutOk &&
      (forall k :: 0 <= k < |calls| ==> calls[k].Callback?) &&
      (calls != [] <==> pdo.outputType in callbacks && c.Success?) &&
      (calls != [] ==> calls == [Callback(pdo.outputType, ProtoData(start, end, pdo, c.value))])
  {
  }

  /** Python and packet data goes first to every stacked instance, once
      each, in stack order, with the same range and object; after that to the
      callback of its type when the session has one, as is for Python output
      and converted for a packet. A packet that does not convert loses only
      the callback. The put succeeds either way. */
  lemma PutForwarding(decoder: DecoderType, outputs: seq<OutputDescriptor>, next: seq<string>,
                      callbacks: set<int>, start: u64, end: u64, outputId: int, data: Value)
    requires MetaOutputsTyped(outputs)
    requires 0 <= outputId < |outputs|
    requires outputs[outputId].outputType in {OutputPython, OutputPacket}
    ensures var (r, calls) := Dispatch(decoder, outputs, next, callbacks, start, end, outputId, data);
      var pdo := outputs[outputId];
      var c := CallbackData(decoder, pdo, data);
      r == PutOk &&
      |next| <= |calls| <= |next| + 1 &&
      (forall k :: 0 <= k < |next| ==> calls[k] == Decode(next[k], start, end, data)) &&
      (|calls| == |next| + 1 <==> pdo.outputType in callbacks && c.Success?) &&
      (|calls| == |next| + 1 ==> calls[|next|] == Callback(pdo.outputType, ProtoData(start, end, pdo, c.value))) &&
      (pdo.outputType == OutputPython ==> c == Success(PythonData(data)))
  {
  }

  /** A put on an output registered with a type outside the five known ones
      succeeds and calls nothing. */
  lemma PutOtherOutputType(decoder: DecoderType, outputs: seq<OutputDescriptor>, next: seq<string>,
                           callbacks: set<int>, start: u64, end: u64, outputId: int, data: Value)
    requires MetaOutputsTyped(outputs)
    requires 0 <= outputId < |outputs|
    requires !IsOutputType(outputs[outputId].outputType)
    ensures Dispatch(decoder, outputs, next, callbacks, start, end, outputId, data) == (PutOk, [])
  {
  }

  /** Empty binary data reaches no one, whether or not a callback is
      registered. */
  lemma PutEmptyBinary(decoder: DecoderType, outputs: seq<OutputDescriptor>, next: seq<string>,
                       callbacks: set<int>, start: u64, end: u64, outputId: int, c: int)
    requires MetaOutputsTyped(outputs)
    requires 0 <= outputId < |outputs| && outputs[outputId].outputType == OutputBinary
    ensures Dispatch(decoder, outputs, next, callbacks, start, end, outputId, VTuple([VInt(c), VBytes([])])) ==
              (PutOk, [])
  {
  }

  /** An instance with one annotation output over the classes "start" and
      "stop" and a session with an annotation callback: the callback gets the
      class and the texts put. */
  method AnnotationScenario()
  {
    var di := new DecoderInstance("uart-1", DecoderType(["start", "stop"], []), []);
    var id := di.Register(OutputAnn, None, None);
    assert id == Success(0);
    var p := AnnotationData(1, ["stop", "END"]);
    ConvertAnnotationAcceptsSubmitted(di.decoder.annotations, p);
    var r, calls := di.Put({OutputAnn}, 100, 120, 0, Submitted(p));
    assert r == PutOk;
    assert calls == [Callback(OutputAnn, ProtoData(100, 120, di.outputs[0], p))];
    r, calls := di.Put({OutputAnn}, 100, 120, 0, VList([VInt(3), VList([VStr("x")])]));
    assert r == PutOk && calls == [];
    r, calls := di.Put({OutputAnn}, 100, 120, 1, Submitted(p));
    assert r.PutFailed? && calls == [];
  }

  /** An instance with a Python output and one stacked instance: each of two
      identical puts reaches the stacked instance, with no callback. */
  method ForwardScenario()
  {
    var di := new DecoderInstance("i2c-1", DecoderType([], []), ["eeprom24xx-1"]);
    var id := di.Register(OutputPython, None, None);
    assert id == Success(0);
    var r1, calls1 := di.Put({}, 10, 20, 0, VStr("raw"));
    var r2, calls2 := di.Put({}, 10, 20, 0, VStr("raw"));
    assert calls1 == calls2 == [Decode("eeprom24xx-1", 10, 20, VStr("raw"))];
  }

  /** A Meta output registered as `int` given a float: the put succeeds and
      the Meta callback is not called; registering with another type fails. */
  method MetaScenario()
  {
    var di := new DecoderInstance("spi-1", DecoderType([], []), []);
    var bad := di.Register(OutputMeta, None, Some(MetaArg(OtherType("str"), "v", "value")));
    assert bad.Failure? && di.outputs == [];
    var id := di.Register(OutputMeta, None, Some(MetaArg(IntType, "v", "value")));
    assert id == Success(0);
    var r, calls := di.Put({OutputMeta}, 0, 0, 0, VFloat);
    assert r == PutOk && calls == [];
    r, calls := di.Put({OutputMeta}, 0, 0, 0, VInt(3));
    assert calls == [Callback(OutputMeta, ProtoData(0, 0, di.outputs[0], MetaData(Int64Value(3))))];
  }

  // The source as written, where it differs from `register()` above.

  /** The outcome of the meta type check of Decoder_register as written. */
  datatype MetaCheckOutcome = Proceeds(metaType: Option<MetaType>) | RaisesTypeError | TypeNameOfNull

  /** Lines 486-497 as written: without a `meta` argument the type object
      pointer stays NULL, and the error message reads its name through it. */
  function MetaCheckAsWritten(outputType: int, meta: Option<MetaArg>): (o: MetaCheckOutcome)
    ensures o == TypeNameOfNull <==> outputType == OutputMeta && meta.None?
    ensures o != TypeNameOfNull ==> (o.RaisesTypeError? <==> MetaInfoOf(outputType, meta).Failure?)
    ensures o.Proceeds? ==>
              MetaInfoOf(outputType, meta).Success? &&
              (o.metaType.Some? <==> MetaInfoOf(outputType, meta).value.Some?) &&
              (o.metaType.Some? ==> o.metaType.value == MetaInfoOf(outputType, meta).value.value.metaType)
  {
    if outputType != OutputMeta then Proceeds(None)
    else
      match meta
      case None => TypeNameOfNull
      case Some(m) =>
        if m.pyType == IntType then Proceeds(Some(Int64))
        else if m.pyType == FloatType then Proceeds(Some(Double))
        else RaisesTypeError
  }

  /** Registering a Meta output without its type dereferences NULL in the
      source; `register()` above refuses it as an unsupported type. */
  lemma MetaWithoutTypeDereferencesNullAsWritten()
    ensures MetaCheckAsWritten(OutputMeta, None) == TypeNameOfNull
    ensures MetaInfoOf(OutputMeta, None) == Failure(UnsupportedMetaType)
  {
  }
}
