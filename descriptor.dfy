/** The dataset descriptor (`dinfo`) every preparation routine fills in and
    pickles, and the files it describes (support/parse_data.py, the
    `dinfo.*` assignments and the `tofile`/`pickle.dump` calls of every
    routine). The descriptor object itself, `classes.DataInfo`, lives in
    support/classes, which is not part of this model; its initial state is
    taken to be four empty dicts, an empty `misc` dict and an empty model
    name, which is what the routines' item assignments need. */
module Descriptor {
  import opened Bytes
  import opened Tensor

  datatype Option<+T> = None | Some(value: T)

  /** The Python exceptions a preparation run can raise: opening a missing
      file, indexing past a list or array, a row of the wrong width, and
      unpickling a file that holds no pickle. */
  datatype Error = FileNotFound(path: string) | IndexError | BroadcastError | UnpicklingError

  datatype Result<+T> = Ok(value: T) | Err(error: Error)

  /** The numpy dtypes the routines record. */
  datatype DType = UInt8 | Float64

  /** One element of a written array: a byte, a real number (a float64
      without its rounding), or the number numpy parses from a text field
      (float parsing is not modelled, the text stands for its value). */
  datatype Elem = U8(b: byte) | F64(x: real) | FromText(text: string)

  /** An element can be stored in an array of the given dtype. */
  predicate Holds(t: DType, e: Elem)
  {
    match e
    case U8(_) => t == UInt8
    case F64(_) => t == Float64
    case FromText(_) => true
  }

  /** The four splits a descriptor names. */
  datatype Split = XTr | XTe | YTr | YTe

  /** One of `dinfo.X_tr`, `dinfo.X_te`, `dinfo.y_tr`, `dinfo.y_te`: either
      None, or a dict holding the keys "shape", "path", "dtype" set so far. */
  datatype Slot = Null | Dict(shape: Option<seq<nat>>, path: Option<string>, dtype: Option<DType>)
  {
    /** All three keys are present. */
    predicate Complete()
    {
      Dict? && shape.Some? && path.Some? && dtype.Some?
    }
  }

  const EmptyDict: Slot := Dict(None, None, None)

  /** Auxiliary values stored under `dinfo.misc`. */
  datatype Misc = Int(i: int) | Real(r: real) | Matrix(m: seq<seq<real>>)

  /** The state of a descriptor object, as `pickle.dump` writes it. */
  datatype Descriptor = Descriptor(
    mname: string, xTr: Slot, xTe: Slot, yTr: Slot, yTe: Slot, misc: map<string, Misc>)
  {
    function Get(w: Split): Slot
    {
      match w
      case XTr => xTr
      case XTe => xTe
      case YTr => yTr
      case YTe => yTe
    }

    function With(w: Split, s: Slot): (d: Descriptor)
      ensures d.Get(w) == s && d.mname == mname && d.misc == misc
      ensures forall v :: v != w ==> d.Get(v) == Get(v)
    {
      match w
      case XTr => this.(xTr := s)
      case XTe => this.(xTe := s)
      case YTr => this.(yTr := s)
      case YTe => this.(yTe := s)
    }
  }

  /** The descriptor object the routines fill in field by field. */
  class DataInfo {
    var mname: string
    var xTr: Slot
    var xTe: Slot
    var yTr: Slot
    var yTe: Slot
    var misc: map<string, Misc>

    function Value(): Descriptor
      reads this
    {
      Descriptor(mname, xTr, xTe, yTr, yTe, misc)
    }

    /** `classes.DataInfo()`. */
    constructor ()
      ensures Value() == Descriptor("", EmptyDict, EmptyDict, EmptyDict, EmptyDict, map[])
    {
      mname, misc := "", map[];
      xTr, xTe, yTr, yTe := EmptyDict, EmptyDict, EmptyDict, EmptyDict;
    }

    /** `dinfo.mname = name`. */
    method SetModel(name: string)
      modifies this
      ensures Value() == old(Value()).(mname := name)
    {
      mname := name;
    }

    /** `dinfo.<w>["shape"] = shape; dinfo.<w>["path"] = path;
        dinfo.<w>["dtype"] = dtype` (item assignment needs a dict). */
    method Describe(w: Split, shape: seq<nat>, path: string, dtype: DType)
      requires Value().Get(w).Dict?
      modifies this
      ensures Value() == old(Value()).With(w, Dict(Some(shape), Some(path), Some(dtype)))
    {
      var s := Value().Get(w).(shape := Some(shape));
      s := s.(path := Some(path));
      s := s.(dtype := Some(dtype));
      match w
      case XTr => xTr := s;
      case XTe => xTe := s;
      case YTr => yTr := s;
      case YTe => yTe := s;
    }

    /** `dinfo.<w> = None`: the dataset has no such split. */
    method Drop(w: Split)
      modifies this
      ensures Value() == old(Value()).With(w, Null)
    {
      match w
      case XTr => xTr := Null;
      case XTe => xTe := Null;
      case YTr => yTr := Null;
      case YTe => yTe := Null;
    }

    /** `dinfo.misc[key] = v`. */
    method SetMisc(key: string, v: Misc)
      modifies this
      ensures Value() == old(Value()).(misc := old(misc)[key := v])
    {
      misc := misc[key := v];
    }
  }

  /** A file the routines write: a headerless array, or a pickled descriptor. */
  datatype File = Raw(elems: seq<Elem>) | Pickled(desc: Descriptor)

  /** The files under the working directory, by path. */
  type Disk = map<string, File>

  function FileName(w: Split): string
  {
    match w
    case XTr => "X_tr.dat"
    case XTe => "X_te.dat"
    case YTr => "y_tr.dat"
    case YTe => "y_te.dat"
  }

  /** `os.path.join("data", dataset, "<split>.dat")`. */
  function SplitPath(ds: string, w: Split): string
  {
    "data/" + ds + "/" + FileName(w)
  }

  /** `os.path.join("data", dataset, "info.dat")`: where each routine pickles
      its descriptor and where `prep(s, skipread=True)` reads it. */
  function InfoPath(ds: string): string
  {
    "data/" + ds + "/info.dat"
  }

  /** The four split paths and the descriptor path of one dataset are five
      different files, all relative to the working directory. */
  lemma PathsDistinct(ds: string, w: Split, v: Split)
    ensures SplitPath(ds, w) == SplitPath(ds, v) <==> w == v
    ensures SplitPath(ds, w) != InfoPath(ds)
    ensures SplitPath(ds, w)[0] != '/' && InfoPath(ds)[0] != '/'
  {
    var k := |"data/" + ds + "/"|;
    assert SplitPath(ds, w)[k] == FileName(w)[0];
    assert SplitPath(ds, w)[k + 3] == FileName(w)[3];
    assert SplitPath(ds, v)[k] == FileName(v)[0];
    assert SplitPath(ds, v)[k + 3] == FileName(v)[3];
    assert InfoPath(ds)[k] == 'i';
  }

  /** Different datasets write to different files. */
  lemma SplitPathInjective(ds: string, ds': string, w: Split)
    ensures SplitPath(ds, w) == SplitPath(ds', w) <==> ds == ds'
    ensures InfoPath(ds) == InfoPath(ds') <==> ds == ds'
  {
    if SplitPath(ds, w) == SplitPath(ds', w) {
      assert ds == SplitPath(ds, w)[5 .. 5 + |ds|];
      assert ds' == SplitPath(ds', w)[5 .. 5 + |ds'|];
    }
    if InfoPath(ds) == InfoPath(ds') {
      assert ds == InfoPath(ds)[5 .. 5 + |ds|];
      assert ds' == InfoPath(ds')[5 .. 5 + |ds'|];
    }
  }

  /** An array a routine writes: its recorded shape and dtype, and the
      elements `tofile` writes. */
  datatype Array = Array(shape: seq<nat>, dtype: DType, elems: seq<Elem>)

  /** The recorded shape accounts for every element written, and every
      element is of the recorded dtype. */
  predicate WellTyped(a: Array)
  {
    |a.elems| == Product(a.shape) && forall e :: e in a.elems ==> Holds(a.dtype, e)
  }

  /** The dict a routine records for an array written to split w. */
  function Entry(ds: string, w: Split, a: Array): Slot
  {
    Dict(Some(a.shape), Some(SplitPath(ds, w)), Some(a.dtype))
  }

  /** A described split: the dict is complete, its path is the split's own
      file under data/<ds>/, and that file holds exactly as many elements as
      the shape says, each of the recorded dtype. */
  predicate EntryOk(s: Slot, ds: string, w: Split, disk: Disk)
  {
    && s.Complete()
    && s.path.value == SplitPath(ds, w)
    && s.path.value in disk
    && disk[s.path.value].Raw?
    && |disk[s.path.value].elems| == Product(s.shape.value)
    && forall e :: e in disk[s.path.value].elems ==> Holds(s.dtype.value, e)
  }

  /** Every split that is not None is described correctly. */
  predicate Describes(desc: Descriptor, ds: string, disk: Disk)
  {
    forall w: Split :: desc.Get(w) != Null ==> EntryOk(desc.Get(w), ds, w, disk)
  }

  /** The descriptor is pickled at data/<ds>/info.dat and describes the disk. */
  predicate Persisted(desc: Descriptor, ds: string, disk: Disk)
  {
    InfoPath(ds) in disk && disk[InfoPath(ds)] == Pickled(desc) && Describes(desc, ds, disk)
  }
}
