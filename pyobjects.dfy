/** The Python objects a protocol decoder hands to `put()` and `register()`,
    reduced to what type_decoder.c looks at: the type checks it makes
    (PyLong_Check, PyFloat_Check, PyUnicode_Check, PyBytes_Check, PyList_Check,
    PyTuple_Check) and the contents it copies out. Also the C integer widths
    the file converts those objects into. */
module PyObjects {

  datatype Option<+T> = None | Some(value: T)

  datatype Result<+T, +E> = Success(value: T) | Failure(error: E)

  /** A Python object. `VInt` also stands for `bool`, which PyLong_Check
      accepts. The numeric value of a float is not modelled: only its type
      matters to the decoder output layer. */
  datatype Value =
    | VInt(i: int)
    | VFloat
    | VStr(s: string)
    | VBytes(bytes: seq<bv8>)
    | VList(items: seq<Value>)
    | VTuple(items: seq<Value>)
    | VOther(typeName: string)

  /** A type object, as passed in the `meta` argument of `register()`. The
      comparison in the source is by identity with the `int` and `float` type
      objects, so `bool` and every other type are `OtherType`. */
  datatype PyType = IntType | FloatType | OtherType(name: string)

  /** A C `int` (32 bits), a `uint64_t`. */
  type i32 = x: int | -0x8000_0000 <= x < 0x8000_0000
  type u64 = x: int | 0 <= x < 0x1_0000_0000_0000_0000

  /** The range of a C `long long` (and of `long` on LP64 platforms). */
  predicate IsInt64(x: int)
  {
    -0x8000_0000_0000_0000 <= x < 0x8000_0000_0000_0000
  }

  /** PyList_Size: the length of a list, and -1 (with SystemError raised) for
      anything that is not a list, a tuple included. */
  function ListSize(v: Value): int
  {
    if v.VList? then |v.items| else -1
  }

  /** Strings as Python list items. */
  function StrValues(ts: seq<string>): (vs: seq<Value>)
    ensures |vs| == |ts|
    ensures forall k :: 0 <= k < |ts| ==> vs[k] == VStr(ts[k])
  {
    if ts == [] then [] else [VStr(ts[0])] + StrValues(ts[1..])
  }

  /** The strings of a list whose every item is a string (the job of
      py_strseq_to_char, which util.c implements; util.c is not part of this
      model). */
  function StrSeq(vs: seq<Value>): (r: Option<seq<string>>)
    ensures r.Some? <==> forall k :: 0 <= k < |vs| ==> vs[k].VStr?
    ensures r.Some? ==> StrValues(r.value) == vs
  {
    if vs == [] then Some([])
    else if !vs[0].VStr? then None
    else
      match StrSeq(vs[1..])
      case None =>
        assert !(forall k :: 0 <= k < |vs[1..]| ==> vs[1..][k].VStr?);
        None
      case Some(rest) => Some([vs[0].s] + rest)
  }

  /** Reading strings back from the list built of them gives them back. */
  lemma {:induction false} StrSeqOfStrValues(ts: seq<string>)
    ensures StrSeq(StrValues(ts)) == Some(ts)
  {
    if ts != [] {
      StrSeqOfStrValues(ts[1..]);
      var vs := StrValues(ts);
      assert vs[0] == VStr(ts[0]) && vs[1..] == StrValues(ts[1..]);
      assert ts == [ts[0]] + ts[1..];
    }
  }
}
