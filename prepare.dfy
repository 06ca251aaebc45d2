/** The preparation routines of support/parse_data.py and the `prep`
    dispatcher in front of them. Every routine allocates a fresh descriptor,
    fills it in field by field, writes each split to data/<dataset>/, pickles
    the descriptor to data/<dataset>/info.dat and returns it. Files are a
    value (a map from path to contents) passed in and returned; the original
    data files and the random draws are parameters. */
module Prepare {
  import opened Bytes
  import opened Tensor
  import opened Idx
  import opened Descriptor
  import opened Table
  import opened Synthetic

  /** `DATA_PATH`, where the downloaded MNIST and quantum files live (the
      expansion of the home directory is not modelled). */
  const DataPath: string := "~/learnml/data"

  /** `os.path.join(DATA_PATH, dataset, name)`. */
  function SourcePath(ds: string, name: string): string
  {
    DataPath + "/" + ds + "/" + name
  }

  // ------------------------------------------------------------ arrays

  /** A float64 array holding the given reals. */
  function RealArray(shape: seq<nat>, xs: seq<real>): (a: Array)
    ensures a.shape == shape && a.dtype == Float64 && |a.elems| == |xs|
    ensures forall e :: e in a.elems ==> Holds(Float64, e)
  {
    Array(shape, Float64, seq(|xs|, i requires 0 <= i < |xs| => F64(xs[i])))
  }

  /** A uint8 array holding the given bytes. */
  function ByteArray(shape: seq<nat>, bs: seq<byte>): (a: Array)
    ensures a.shape == shape && a.dtype == UInt8 && |a.elems| == |bs|
    ensures forall e :: e in a.elems ==> Holds(UInt8, e)
  {
    Array(shape, UInt8, seq(|bs|, i requires 0 <= i < |bs| => U8(bs[i])))
  }

  /** The four arrays of a dataset with a test split. */
  datatype Quad = Quad(xTr: Array, xTe: Array, yTr: Array, yTe: Array)
  {
    predicate Typed()
    {
      WellTyped(xTr) && WellTyped(xTe) && WellTyped(yTr) && WellTyped(yTe)
    }
  }

  /** The descriptor of a dataset with all four splits written. */
  function Full(mname: string, ds: string, q: Quad, misc: map<string, Misc>): Descriptor
  {
    Descriptor(mname, Entry(ds, XTr, q.xTr), Entry(ds, XTe, q.xTe), Entry(ds, YTr, q.yTr), Entry(ds, YTe, q.yTe), misc)
  }

  /** The descriptor of a dataset with a training split only. */
  function TrainOnly(mname: string, ds: string, xTr: Array, yTr: Array, misc: map<string, Misc>): Descriptor
  {
    Descriptor(mname, Entry(ds, XTr, xTr), Null, Entry(ds, YTr, yTr), Null, misc)
  }

  /** `data_arr.tofile` to data/<ds>/<split>.dat. */
  function Store(disk: Disk, ds: string, w: Split, a: Array): Disk
  {
    disk[SplitPath(ds, w) := Raw(a.elems)]
  }

  /** The disk after writing X_tr, X_te, y_tr, y_te in that order and
      pickling the descriptor. */
  function SavedFull(disk: Disk, ds: string, q: Quad, desc: Descriptor): Disk
  {
    Store(Store(Store(Store(disk, ds, XTr, q.xTr), ds, XTe, q.xTe), ds, YTr, q.yTr), ds, YTe, q.yTe)[InfoPath(ds) := Pickled(desc)]
  }

  /** The disk after writing X_tr and y_tr and pickling the descriptor. */
  function SavedTrain(disk: Disk, ds: string, xTr: Array, yTr: Array, desc: Descriptor): Disk
  {
    Store(Store(disk, ds, XTr, xTr), ds, YTr, yTr)[InfoPath(ds) := Pickled(desc)]
  }

  /** Writing split w leaves the file of every other split as it was. */
  lemma StoreKeeps(disk: Disk, ds: string, w: Split, a: Array, v: Split)
    requires v != w && SplitPath(ds, v) in disk
    ensures SplitPath(ds, v) in Store(disk, ds, w, a)
    ensures Store(disk, ds, w, a)[SplitPath(ds, v)] == disk[SplitPath(ds, v)]
  {
    PathsDistinct(ds, w, v);
  }

  /** Pickling the descriptor leaves every split file as it was. */
  lemma PickleKeeps(disk: Disk, ds: string, desc: Descriptor, v: Split)
    requires SplitPath(ds, v) in disk
    ensures SplitPath(ds, v) in disk[InfoPath(ds) := Pickled(desc)]
    ensures disk[InfoPath(ds) := Pickled(desc)][SplitPath(ds, v)] == disk[SplitPath(ds, v)]
  {
    PathsDistinct(ds, v, v);
  }

  /** A well-typed array found at its split's path is described by its entry. */
  lemma WrittenEntry(disk: Disk, ds: string, w: Split, a: Array)
    requires WellTyped(a) && SplitPath(ds, w) in disk && disk[SplitPath(ds, w)] == Raw(a.elems)
    ensures EntryOk(Entry(ds, w, a), ds, w, disk)
  {
  }

  /** A routine that writes four well-typed arrays leaves a descriptor that
      is pickled where `prep` looks for it and describes every file. */
  lemma FullPersisted(disk: Disk, ds: string, q: Quad, mname: string, misc: map<string, Misc>)
    requires q.Typed()
    ensures Persisted(Full(mname, ds, q, misc), ds, SavedFull(disk, ds, q, Full(mname, ds, q, misc)))
  {
    var desc := Full(mname, ds, q, misc);
    var d1 := Store(disk, ds, XTr, q.xTr);
    var d2 := Store(d1, ds, XTe, q.xTe);
    var d3 := Store(d2, ds, YTr, q.yTr);
    var d4 := Store(d3, ds, YTe, q.yTe);
    var d5 := d4[InfoPath(ds) := Pickled(desc)];
    StoreKeeps(d1, ds, XTe, q.xTe, XTr);
    StoreKeeps(d2, ds, YTr, q.yTr, XTr);
    StoreKeeps(d2, ds, YTr, q.yTr, XTe);
    StoreKeeps(d3, ds, YTe, q.yTe, XTr);
    StoreKeeps(d3, ds, YTe, q.yTe, XTe);
    StoreKeeps(d3, ds, YTe, q.yTe, YTr);
    PickleKeeps(d4, ds, desc, XTr);
    PickleKeeps(d4, ds, desc, XTe);
    PickleKeeps(d4, ds, desc, YTr);
    PickleKeeps(d4, ds, desc, YTe);
    WrittenEntry(d5, ds, XTr, q.xTr);
    WrittenEntry(d5, ds, XTe, q.xTe);
    WrittenEntry(d5, ds, YTr, q.yTr);
    WrittenEntry(d5, ds, YTe, q.yTe);
    assert forall w: Split :: desc.Get(w) != Null ==> EntryOk(desc.Get(w), ds, w, d5);
  }

  /** The same for a routine that writes only the training split. */
  lemma TrainPersisted(disk: Disk, ds: string, xTr: Array, yTr: Array, mname: string, misc: map<string, Misc>)
    requires WellTyped(xTr) && WellTyped(yTr)
    ensures Persisted(TrainOnly(mname, ds, xTr, yTr, misc), ds,
                      SavedTrain(disk, ds, xTr, yTr, TrainOnly(mname, ds, xTr, yTr, misc)))
  {
    var desc := TrainOnly(mname, ds, xTr, yTr, misc);
    var d1 := Store(disk, ds, XTr, xTr);
    var d2 := Store(d1, ds, YTr, yTr);
    var d3 := d2[InfoPath(ds) := Pickled(desc)];
    StoreKeeps(d1, ds, YTr, yTr, XTr);
    PickleKeeps(d2, ds, desc, XTr);
    PickleKeeps(d2, ds, desc, YTr);
    WrittenEntry(d3, ds, XTr, xTr);
    WrittenEntry(d3, ds, YTr, yTr);
    assert forall w: Split :: desc.Get(w) != Null ==> EntryOk(desc.Get(w), ds, w, d3);
  }

  /** Record split w in the descriptor and write its array. */
  method WriteSplit(dinfo: DataInfo, disk: Disk, ds: string, w: Split, a: Array) returns (disk': Disk)
    requires dinfo.Value().Get(w).Dict?
    modifies dinfo
    ensures dinfo.Value() == old(dinfo.Value()).With(w, Entry(ds, w, a))
    ensures disk' == Store(disk, ds, w, a)
  {
    dinfo.Describe(w, a.shape, SplitPath(ds, w), a.dtype);
    disk' := Store(disk, ds, w, a);
  }

  // ------------------------------------------------------------ quantum

  const QuantumRows: nat := 50000
  const QuantumFeatures: nat := 78
  const QuantumHalf: nat := QuantumRows / 2

  /** The arrays quantum writes from the tables its loop filled. */
  function QuantumData(t: Tables): Quad
  {
    Quad(Array([QuantumHalf, QuantumFeatures], Float64, Flatten(t.xTr)),
         Array([QuantumHalf, QuantumFeatures], Float64, Flatten(t.xTe)),
         Array([QuantumHalf, 1], UInt8, Flatten(t.yTr)),
         Array([QuantumHalf, 1], UInt8, Flatten(t.yTe)))
  }

  /** The tables of every run that does not raise make well-typed arrays. */
  lemma QuantumTyped(rows: seq<Row>)
    requires Run(rows, QuantumHalf, QuantumFeatures).Ok?
    ensures QuantumData(Run(rows, QuantumHalf, QuantumFeatures).value.t).Typed()
  {
    var t := Run(rows, QuantumHalf, QuantumFeatures).value.t;
    RunCounters(rows, QuantumHalf, QuantumFeatures);
    RunTyped(rows, QuantumHalf, QuantumFeatures);
    FlattenLength(t.xTr, QuantumFeatures);
    FlattenLength(t.xTe, QuantumFeatures);
    FlattenLength(t.yTr, 1);
    FlattenLength(t.yTe, 1);
    Product2(QuantumHalf, QuantumFeatures);
    Product2(QuantumHalf, 1);
    FlattenAll(t.xTr, e => Holds(Float64, e));
    FlattenAll(t.xTe, e => Holds(Float64, e));
    FlattenAll(t.yTr, e => Holds(UInt8, e));
    FlattenAll(t.yTe, e => Holds(UInt8, e));
  }

  /** `quantum()`: split phy_train.dat into halves and write them. A missing
      source file or a row the loop cannot store raises before anything is
      written. */
  method Quantum(disk: Disk, table: Option<seq<Row>>) returns (disk': Disk, r: Result<Descriptor>)
    ensures table.None? ==> r == Err(FileNotFound(SourcePath("quantum", "phy_train.dat"))) && disk' == disk
    ensures table.Some? ==> (r.Ok? <==> Run(table.value, QuantumHalf, QuantumFeatures).Ok?)
    ensures table.Some? && r.Err? ==> r.error == Run(table.value, QuantumHalf, QuantumFeatures).error && disk' == disk
    ensures r.Ok? ==>
              var q := QuantumData(Run(table.value, QuantumHalf, QuantumFeatures).value.t);
              && r.value == Full("LgstReg", "quantum", q, map[])
              && disk' == SavedFull(disk, "quantum", q, r.value)
              && Persisted(r.value, "quantum", disk')
  {
    var ds := "quantum";
    var dinfo := new DataInfo();
    dinfo.SetModel("LgstReg");
    if table.None? {
      return disk, Err(FileNotFound(SourcePath(ds, "phy_train.dat")));
    }
    var split := SplitTable(table.value, QuantumHalf, QuantumFeatures);
    if split.Err? {
      return disk, Err(split.error);
    }
    var t := split.value;
    var q := QuantumData(t);
    QuantumTyped(table.value);
    disk' := WriteSplit(dinfo, disk, ds, XTr, q.xTr);
    disk' := WriteSplit(dinfo, disk', ds, XTe, q.xTe);
    disk' := WriteSplit(dinfo, disk', ds, YTr, q.yTr);
    disk' := WriteSplit(dinfo, disk', ds, YTe, q.yTe);
    var desc := dinfo.Value();
    disk' := disk'[InfoPath(ds) := Pickled(desc)];
    FullPersisted(disk, ds, q, "LgstReg", map[]);
    r := Ok(desc);
  }

  // ------------------------------------------------------------ toyReg

  /** toyReg's hand-prepared true weights. */
  function ToyRegWeights(): seq<real>
  {
    [3.1415, 1.414214, 2.718282]
  }

  /** toyReg's arrays: inputs at scale 0.5 and unit-scale noise, drawn in the
      order X_tr, noise_tr, X_te, noise_te, and outputs X w + noise. */
  function ToyRegData(z: Stream): (q: Quad)
    ensures q.Typed()
  {
    var xTr := Normal(z, 0, 45, 0.5);
    var noiseTr := Normal(z, 45, 15, 1.0);
    var xTe := Normal(z, 60, 30, 0.5);
    var noiseTe := Normal(z, 90, 10, 1.0);
    Product2(15, 3);
    Product2(10, 3);
    Product2(15, 1);
    Product2(10, 1);
    Quad(RealArray([15, 3], xTr), RealArray([10, 3], xTe),
         RealArray([15, 1], LinearOutputs(xTr, 15, 3, ToyRegWeights(), noiseTr)),
         RealArray([10, 1], LinearOutputs(xTe, 10, 3, ToyRegWeights(), noiseTe)))
  }

  /** `toyReg()`: a linear regression set of 15 training and 10 testing
      samples with three inputs, for the "LinReg" model. */
  method ToyReg(disk: Disk, z: Stream) returns (disk': Disk, desc: Descriptor)
    ensures desc == Full("LinReg", "toyReg", ToyRegData(z), map[])
    ensures disk' == SavedFull(disk, "toyReg", ToyRegData(z), desc)
    ensures Persisted(desc, "toyReg", disk')
  {
    var ds := "toyReg";
    var dinfo := new DataInfo();
    dinfo.SetModel("LinReg");
    var q := ToyRegData(z);
    disk' := WriteSplit(dinfo, disk, ds, XTr, q.xTr);
    disk' := WriteSplit(dinfo, disk', ds, XTe, q.xTe);
    disk' := WriteSplit(dinfo, disk', ds, YTr, q.yTr);
    disk' := WriteSplit(dinfo, disk', ds, YTe, q.yTe);
    desc := dinfo.Value();
    disk' := disk'[InfoPath(ds) := Pickled(desc)];
    FullPersisted(disk, ds, q, "LinReg", map[]);
  }

  // ------------------------------------------------------------ toyClass

  /** toyClass's arrays: unit-scale inputs drawn X_tr then X_te, and labels
      drawn from the logits of each sample, training draws first. */
  function ToyClassData(z: Stream, choose: Chooser): (q: Quad)
    ensures q.Typed()
  {
    var xTr := Normal(z, 0, 75, 1.0);
    var xTe := Normal(z, 75, 60, 1.0);
    var aTr := Logits(ClassWeights(), Reshape(xTr, 25, 3), 3);
    var aTe := Logits(ClassWeights(), Reshape(xTe, 20, 3), 3);
    Product2(25, 3);
    Product2(20, 3);
    Product2(25, 1);
    Product2(20, 1);
    Quad(RealArray([25, 3], xTr), RealArray([20, 3], xTe),
         ByteArray([25, 1], ClassLabels(aTr, 25, 0, choose)),
         ByteArray([20, 1], ClassLabels(aTe, 20, 25, choose)))
  }

  /** `toyClass()`: a four-class set of 25 training and 20 testing samples
      with three inputs, for the "LgstReg" model. */
  method ToyClass(disk: Disk, z: Stream, choose: Chooser) returns (disk': Disk, desc: Descriptor)
    ensures desc == Full("LgstReg", "toyClass", ToyClassData(z, choose), map[])
    ensures disk' == SavedFull(disk, "toyClass", ToyClassData(z, choose), desc)
    ensures Persisted(desc, "toyClass", disk')
  {
    var ds := "toyClass";
    var dinfo := new DataInfo();
    dinfo.SetModel("LgstReg");
    var n, m, d := 25, 20, 3;
    var ws := ClassWeights();
    var xTr := Normal(z, 0, n * d, 1.0);
    var xTe := Normal(z, n * d, m * d, 1.0);
    var yTr := DrawLabels(Logits(ws, Reshape(xTr, n, d), d), n, 0, choose);
    var yTe := DrawLabels(Logits(ws, Reshape(xTe, m, d), d), m, n, choose);
    disk' := WriteSplit(dinfo, disk, ds, XTr, RealArray([n, d], xTr));
    disk' := WriteSplit(dinfo, disk', ds, XTe, RealArray([m, d], xTe));
    disk' := WriteSplit(dinfo, disk', ds, YTr, ByteArray([n, 1], yTr));
    disk' := WriteSplit(dinfo, disk', ds, YTe, ByteArray([m, 1], yTe));
    desc := dinfo.Value();
    disk' := disk'[InfoPath(ds) := Pickled(desc)];
    FullPersisted(disk, ds, ToyClassData(z, choose), "LgstReg", map[]);
  }

  // ------------------------------------------------------------ MNIST

  /** The four downloaded IDX files, None where the file is missing. */
  datatype MnistFiles = MnistFiles(
    trainImages: Option<seq<byte>>, testImages: Option<seq<byte>>,
    trainLabels: Option<seq<byte>>, testLabels: Option<seq<byte>>)

  /** The array written for an image file: shape (n, rows*cols), uint8. */
  function ImageArray(file: seq<byte>): (a: Array)
    ensures WellTyped(a)
  {
    var n := HeaderField(file, 4);
    var d := HeaderField(file, 8) * HeaderField(file, 12);
    Product2(n, d);
    ByteArray([n, d], Payload(file, ImagePayload, n * d))
  }

  /** The array written for a label file: shape (n, 1), uint8. */
  function LabelArray(file: seq<byte>): (a: Array)
    ensures WellTyped(a)
  {
    var n := HeaderField(file, 4);
    Product2(n, 1);
    ByteArray([n, 1], Payload(file, LabelPayload, n * 1))
  }

  /** Read one image file and write its payload to split w. */
  method CopyImages(dinfo: DataInfo, disk: Disk, w: Split, file: seq<byte>) returns (disk': Disk)
    requires dinfo.Value().Get(w).Dict?
    modifies dinfo
    ensures dinfo.Value() == old(dinfo.Value()).With(w, Entry("MNIST", w, ImageArray(file)))
    ensures disk' == Store(disk, "MNIST", w, ImageArray(file))
  {
    var n, d, data := ReadImages(file);
    disk' := WriteSplit(dinfo, disk, "MNIST", w, ByteArray([n, d], data));
  }

  /** Read one label file and write its payload to split w. */
  method CopyLabels(dinfo: DataInfo, disk: Disk, w: Split, file: seq<byte>) returns (disk': Disk)
    requires dinfo.Value().Get(w).Dict?
    modifies dinfo
    ensures dinfo.Value() == old(dinfo.Value()).With(w, Entry("MNIST", w, LabelArray(file)))
    ensures disk' == Store(disk, "MNIST", w, LabelArray(file))
  {
    var n, d, data := ReadLabels(file);
    disk' := WriteSplit(dinfo, disk, "MNIST", w, ByteArray([n, d], data));
  }

  /** `MNIST()`: copy the four IDX files. The files are opened in the order
      training images, testing images, training labels, testing labels; a
      missing one raises, leaving the splits already written on disk and
      pickling nothing. */
  method Mnist(disk: Disk, src: MnistFiles) returns (disk': Disk, r: Result<Descriptor>)
    ensures src.trainImages.None? ==>
              r == Err(FileNotFound(SourcePath("MNIST", "train-images-idx3-ubyte"))) && disk' == disk
    ensures src.trainImages.Some? && src.testImages.None? ==>
              && r == Err(FileNotFound(SourcePath("MNIST", "t10k-images-idx3-ubyte")))
              && disk' == Store(disk, "MNIST", XTr, ImageArray(src.trainImages.value))
    ensures src.trainImages.Some? && src.testImages.Some? && src.trainLabels.None? ==>
              && r == Err(FileNotFound(SourcePath("MNIST", "train-labels-idx1-ubyte")))
              && disk' == Store(Store(disk, "MNIST", XTr, ImageArray(src.trainImages.value)),
                                "MNIST", XTe, ImageArray(src.testImages.value))
    ensures src.trainImages.Some? && src.testImages.Some? && src.trainLabels.Some? && src.testLabels.None? ==>
              && r == Err(FileNotFound(SourcePath("MNIST", "t10k-labels-idx1-ubyte")))
              && disk' == Store(Store(Store(disk, "MNIST", XTr, ImageArray(src.trainImages.value)),
                                      "MNIST", XTe, ImageArray(src.testImages.value)),
                                "MNIST", YTr, LabelArray(src.trainLabels.value))
    ensures src.trainImages.Some? && src.testImages.Some? && src.trainLabels.Some? && src.testLabels.Some? ==>
              var q := Quad(ImageArray(src.trainImages.value), ImageArray(src.testImages.value),
                            LabelArray(src.trainLabels.value), LabelArray(src.testLabels.value));
              && r == Ok(Full("LgstReg", "MNIST", q, map[]))
              && disk' == SavedFull(disk, "MNIST", q, r.value)
              && Persisted(r.value, "MNIST", disk')
  {
    var ds := "MNIST";
    var dinfo := new DataInfo();
    dinfo.SetModel("LgstReg");
    if src.trainImages.None? {
      return disk, Err(FileNotFound(SourcePath(ds, "train-images-idx3-ubyte")));
    }
    disk' := CopyImages(dinfo, disk, XTr, src.trainImages.value);
    if src.testImages.None? {
      return disk', Err(FileNotFound(SourcePath(ds, "t10k-images-idx3-ubyte")));
    }
    disk' := CopyImages(dinfo, disk', XTe, src.testImages.value);
    if src.trainLabels.None? {
      return disk', Err(FileNotFound(SourcePath(ds, "train-labels-idx1-ubyte")));
    }
    disk' := CopyLabels(dinfo, disk', YTr, src.trainLabels.value);
    if src.testLabels.None? {
      return disk', Err(FileNotFound(SourcePath(ds, "t10k-labels-idx1-ubyte")));
    }
    disk' := CopyLabels(dinfo, disk', YTe, src.testLabels.value);
    var desc := dinfo.Value();
    disk' := disk'[InfoPath(ds) := Pickled(desc)];
    var q := Quad(ImageArray(src.trainImages.value), ImageArray(src.testImages.value),
                  LabelArray(src.trainLabels.value), LabelArray(src.testLabels.value));
    FullPersisted(disk, ds, q, "LgstReg", map[]);
    r := Ok(desc);
  }

  // ------------------------------------------------------------ NoisyOpt

  /** The true weights of the isotropic NoisyOpt sets. */
  function IsoWeights(): seq<real>
  {
    [3.141592, 1.414214]
  }

  /** `misc` of the isotropic sets: identity input covariance (sigma_X = 1),
      noise scale 3, the sub-sample size, and the true and initial weights,
      the latter displaced by delta = 5 * sigma_noise = 15. */
  function IsoMisc(nsub: nat): map<string, Misc>
  {
    map["cov_X" := Matrix(ScaledIdentity(2, 1.0)), "sigma_noise" := Int(3), "nsub" := Int(nsub),
        "w_true" := Matrix(ColumnVector(IsoWeights())),
        "w_init" := Matrix(Shift(ColumnVector(IsoWeights()), 15.0))]
  }

  /** The stored initial weights are the stored true weights displaced by
      delta in every element. */
  predicate InitDisplaced(misc: map<string, Misc>, delta: real)
  {
    && "w_true" in misc && misc["w_true"].Matrix?
    && "w_init" in misc && misc["w_init"].Matrix?
    && var wt, wi := misc["w_true"].m, misc["w_init"].m;
    && |wi| == |wt|
    && forall i :: 0 <= i < |wt| ==> |wi[i]| == |wt[i]| && forall j :: 0 <= j < |wt[i]| ==> wi[i][j] - wt[i][j] == delta
  }

  /** The isotropic metadata: w_init is w_true displaced by 15, nsub as
      given, and the inputs have identity covariance. */
  lemma IsoMiscFacts(nsub: nat)
    ensures InitDisplaced(IsoMisc(nsub), 15.0)
    ensures IsoMisc(nsub)["nsub"] == Int(nsub)
    ensures IsoMisc(nsub)["cov_X"] == Matrix([[1.0, 0.0], [0.0, 1.0]])
  {
    var m := ScaledIdentity(2, 1.0);
    assert m[0] == [1.0, 0.0] && m[1] == [0.0, 1.0];
    assert m == [m[0], m[1]];
  }

  /** The training arrays of an isotropic set of n samples: unit-scale
      inputs, then noise at scale 3, and outputs X w + noise. */
  function IsoData(z: Stream, n: nat): (xy: (Array, Array))
    ensures WellTyped(xy.0) && WellTyped(xy.1)
  {
    var x := Normal(z, 0, n * 2, 1.0);
    Product2(n, 2);
    Product2(n, 1);
    (RealArray([n, 2], x), RealArray([n, 1], LinearOutputs(x, n, 2, IsoWeights(), Normal(z, n * 2, n, 3.0))))
  }

  /** The common body of `NoisyOpt_isoBig` and `NoisyOpt_isoSmall`. */
  method NoisyOptIso(disk: Disk, z: Stream, ds: string, n: nat, nsub: nat) returns (disk': Disk, desc: Descriptor)
    ensures desc == TrainOnly("NoisyOpt", ds, IsoData(z, n).0, IsoData(z, n).1, IsoMisc(nsub))
    ensures disk' == SavedTrain(disk, ds, IsoData(z, n).0, IsoData(z, n).1, desc)
    ensures Persisted(desc, ds, disk')
  {
    var dinfo := new DataInfo();
    dinfo.Drop(XTe);
    dinfo.Drop(YTe);
    var d := 2;
    dinfo.SetModel("NoisyOpt");
    dinfo.SetMisc("cov_X", Matrix(ScaledIdentity(d, 1.0)));
    dinfo.SetMisc("sigma_noise", Int(3));
    dinfo.SetMisc("nsub", Int(nsub));
    var w := IsoWeights();
    var x := Normal(z, 0, n * d, 1.0);
    var noise := Normal(z, n * d, n, 3.0);
    dinfo.SetMisc("w_true", Matrix(ColumnVector(w)));
    dinfo.SetMisc("w_init", Matrix(Shift(ColumnVector(w), 15.0)));
    disk' := WriteSplit(dinfo, disk, ds, XTr, RealArray([n, d], x));
    disk' := WriteSplit(dinfo, disk', ds, YTr, RealArray([n, 1], LinearOutputs(x, n, d, w, noise)));
    desc := dinfo.Value();
    disk' := disk'[InfoPath(ds) := Pickled(desc)];
    TrainPersisted(disk, ds, IsoData(z, n).0, IsoData(z, n).1, "NoisyOpt", IsoMisc(nsub));
  }

  /** `NoisyOpt_isoBig()`: 50 samples, sub-samples of 5, no test split. */
  method NoisyOptIsoBig(disk: Disk, z: Stream) returns (disk': Disk, desc: Descriptor)
    ensures desc == TrainOnly("NoisyOpt", "NoisyOpt_isoBig", IsoData(z, 50).0, IsoData(z, 50).1, IsoMisc(5))
    ensures disk' == SavedTrain(disk, "NoisyOpt_isoBig", IsoData(z, 50).0, IsoData(z, 50).1, desc)
    ensures Persisted(desc, "NoisyOpt_isoBig", disk')
    ensures desc.mname == "NoisyOpt" && desc.xTe == Null && desc.yTe == Null
    ensures desc.xTr.Complete() && desc.xTr.shape.value == [50, 2]
    ensures "nsub" in desc.misc && desc.misc["nsub"] == Int(5)
    ensures InitDisplaced(desc.misc, 15.0)
  {
    disk', desc := NoisyOptIso(disk, z, "NoisyOpt_isoBig", 50, 5);
    IsoMiscFacts(5);
  }

  /** `NoisyOpt_isoSmall()`: 15 samples used as one batch, no test split. */
  method NoisyOptIsoSmall(disk: Disk, z: Stream) returns (disk': Disk, desc: Descriptor)
    ensures desc == TrainOnly("NoisyOpt", "NoisyOpt_isoSmall", IsoData(z, 15).0, IsoData(z, 15).1, IsoMisc(15))
    ensures disk' == SavedTrain(disk, "NoisyOpt_isoSmall", IsoData(z, 15).0, IsoData(z, 15).1, desc)
    ensures Persisted(desc, "NoisyOpt_isoSmall", disk')
    ensures desc.mname == "NoisyOpt" && desc.xTe == Null && desc.yTe == Null
    ensures desc.xTr.Complete() && desc.xTr.shape.value == [15, 2]
    ensures "nsub" in desc.misc && desc.misc["nsub"] == Int(15)
    ensures InitDisplaced(desc.misc, 15.0)
  {
    disk', desc := NoisyOptIso(disk, z, "NoisyOpt_isoSmall", 15, 15);
    IsoMiscFacts(15);
  }

  const SparseSamples: nat := 100
  const SparseInputs: nat := 31
  const SparseActive: nat := 10

  /** `misc` of NoisyOpt_SmallSparse: noise scale 2.5, the equicorrelated
      input covariance, the sparse true weights, the initial weights
      displaced by delta = sigma_noise = 2.5, and no sub-sampling. */
  function SparseMisc(w: seq<real>): map<string, Misc>
  {
    map["sigma_noise" := Real(2.5), "cov_X" := Matrix(Covariance(SparseInputs, 0.85, 1.0)),
        "w_true" := Matrix(ColumnVector(w)), "w_init" := Matrix(Shift(ColumnVector(w), 2.5)),
        "nsub" := Int(SparseSamples)]
  }

  /** The sparse metadata: w_init is w_true displaced by 2.5, and the whole
      sample is one batch. */
  lemma SparseMiscFacts(w: seq<real>)
    ensures InitDisplaced(SparseMisc(w), 2.5)
    ensures SparseMisc(w)["nsub"] == Int(SparseSamples)
  {
  }

  /** `NoisyOpt_SmallSparse()`: 100 samples of 31 correlated inputs of
      which 10 carry weight. The draws are passed in: the d0 indices
      `idx_on`, their weights, the standardised inputs xs, and the noise
      stream. The outputs are computed from the standardised inputs. */
  method NoisyOptSmallSparse(disk: Disk, z: Stream, xs: seq<real>, idxOn: seq<nat>, vals: seq<real>)
    returns (disk': Disk, desc: Descriptor)
    requires |xs| == SparseSamples * SparseInputs
    requires |idxOn| == SparseActive && |vals| == SparseActive
    requires forall k :: 0 <= k < |idxOn| ==> idxOn[k] < SparseInputs
    ensures var w := SparseWeights(SparseInputs, idxOn, vals);
            var xa := RealArray([SparseSamples, SparseInputs], xs);
            var ya := RealArray([SparseSamples, 1],
                                LinearOutputs(xs, SparseSamples, SparseInputs, w, Normal(z, 0, SparseSamples, 2.5)));
            && desc == TrainOnly("NoisyOpt", "NoisyOpt_SmallSparse", xa, ya, SparseMisc(w))
            && disk' == SavedTrain(disk, "NoisyOpt_SmallSparse", xa, ya, desc)
    ensures Persisted(desc, "NoisyOpt_SmallSparse", disk')
    ensures desc.mname == "NoisyOpt" && desc.xTe == Null && desc.yTe == Null
    ensures desc.misc == SparseMisc(SparseWeights(SparseInputs, idxOn, vals))
    ensures InitDisplaced(desc.misc, 2.5)
    ensures desc.xTr.Complete() && desc.xTr.shape.value == [SparseSamples, SparseInputs]
    ensures desc.yTr.Complete() && desc.yTr.shape.value == [SparseSamples, 1]
    ensures SplitPath("NoisyOpt_SmallSparse", YTr) in disk'
    ensures disk'[SplitPath("NoisyOpt_SmallSparse", YTr)].Raw?
    ensures disk'[SplitPath("NoisyOpt_SmallSparse", YTr)].elems
            == RealArray([SparseSamples, 1],
                         LinearOutputs(xs, SparseSamples, SparseInputs, SparseWeights(SparseInputs, idxOn, vals),
                                       Normal(z, 0, SparseSamples, 2.5))).elems
  {
    var ds := "NoisyOpt_SmallSparse";
    var n, d := SparseSamples, SparseInputs;
    var dinfo := new DataInfo();
    dinfo.SetMisc("sigma_noise", Real(2.5));
    dinfo.SetMisc("cov_X", Matrix(Covariance(d, 0.85, 1.0)));
    var w := SparseWeights(d, idxOn, vals);
    dinfo.SetMisc("w_true", Matrix(ColumnVector(w)));
    var noise := Normal(z, 0, n, 2.5);
    dinfo.SetMisc("w_init", Matrix(Shift(ColumnVector(w), 2.5)));
    dinfo.SetModel("NoisyOpt");
    dinfo.SetMisc("nsub", Int(n));
    var xa := RealArray([n, d], xs);
    var ya := RealArray([n, 1], LinearOutputs(xs, n, d, w, noise));
    disk' := WriteSplit(dinfo, disk, ds, XTr, xa);
    disk' := WriteSplit(dinfo, disk', ds, YTr, ya);
    dinfo.Drop(XTe);
    dinfo.Drop(YTe);
    desc := dinfo.Value();
    disk' := disk'[InfoPath(ds) := Pickled(desc)];
    Product2(n, d);
    Product2(n, 1);
    assert desc == TrainOnly("NoisyOpt", ds, xa, ya, SparseMisc(w));
    TrainPersisted(disk, ds, xa, ya, "NoisyOpt", SparseMisc(w));
    SparseMiscFacts(w);
    PathsDistinct(ds, YTr, YTr);
  }

  // ------------------------------------------------------------ prep

  /** The routines `prep` knows. */
  datatype Routine = ToyRegRoutine | ToyClassRoutine | MnistRoutine | QuantumRoutine
                   | IsoBigRoutine | IsoSmallRoutine

  /** The dataset name each routine is selected by and writes under. */
  function Name(r: Routine): string
  {
    match r
    case ToyRegRoutine => "toyReg"
    case ToyClassRoutine => "toyClass"
    case MnistRoutine => "MNIST"
    case QuantumRoutine => "quantum"
    case IsoBigRoutine => "NoisyOpt_isoBig"
    case IsoSmallRoutine => "NoisyOpt_isoSmall"
  }

  /** The chain of `if s == ...` tests in `prep`. */
  function RoutineFor(s: string): (r: Option<Routine>)
    ensures r.Some? ==> Name(r.value) == s
    ensures r.None? ==> forall q: Routine :: Name(q) != s
  {
    if s == "toyReg" then Some(ToyRegRoutine)
    else if s == "toyClass" then Some(ToyClassRoutine)
    else if s == "MNIST" then Some(MnistRoutine)
    else if s == "quantum" then Some(QuantumRoutine)
    else if s == "NoisyOpt_isoBig" then Some(IsoBigRoutine)
    else if s == "NoisyOpt_isoSmall" then Some(IsoSmallRoutine)
    else None
  }

  /** `prep` selects a routine exactly by its own dataset name; every other
      name, NoisyOpt_SmallSparse among them, selects nothing. */
  lemma RoutineForName(s: string, r: Routine)
    ensures RoutineFor(s) == Some(r) <==> s == Name(r)
    ensures RoutineFor("NoisyOpt_SmallSparse") == None
  {
  }

  /** What a call of `prep` ends with. */
  datatype Outcome = Returned(desc: Descriptor) | ReturnedNone | Raised(error: Error)

  /** `pickle.load(open(path, "br"))`. */
  function LoadCached(disk: Disk, path: string): (out: Outcome)
    ensures out.Returned? <==> path in disk && disk[path].Pickled?
    ensures out.Returned? ==> disk[path] == Pickled(out.desc)
    ensures path !in disk ==> out == Raised(FileNotFound(path))
  {
    if path !in disk then Raised(FileNotFound(path))
    else match disk[path]
      case Pickled(desc) => Returned(desc)
      case Raw(_) => Raised(UnpicklingError)
  }

  /** What the routines read: the source files and the random draws. */
  datatype Sources = Sources(table: Option<seq<Row>>, mnist: MnistFiles, z: Stream, choose: Chooser)

  function FromResult(r: Result<Descriptor>): Outcome
  {
    match r
    case Ok(desc) => Returned(desc)
    case Err(e) => Raised(e)
  }

  /** The source file missing first, in the order `MNIST()` opens them. */
  function FirstMissing(m: MnistFiles): string
  {
    if m.trainImages.None? then "train-images-idx3-ubyte"
    else if m.testImages.None? then "t10k-images-idx3-ubyte"
    else if m.trainLabels.None? then "train-labels-idx1-ubyte"
    else "t10k-labels-idx1-ubyte"
  }

  /** The disk `MNIST()` leaves when a file is missing: the splits copied
      from the files opened before the first missing one. */
  function MnistPartial(disk: Disk, m: MnistFiles): Disk
  {
    if m.trainImages.None? then disk
    else
      var d1 := Store(disk, "MNIST", XTr, ImageArray(m.trainImages.value));
      if m.testImages.None? then d1
      else
        var d2 := Store(d1, "MNIST", XTe, ImageArray(m.testImages.value));
        if m.trainLabels.None? then d2
        else Store(d2, "MNIST", YTr, LabelArray(m.trainLabels.value))
  }

  /** What running routine r afresh returns and leaves on disk. */
  predicate Fresh(r: Routine, disk: Disk, src: Sources, disk': Disk, out: Outcome)
  {
    match r
    case ToyRegRoutine =>
      && out == Returned(Full("LinReg", "toyReg", ToyRegData(src.z), map[]))
      && disk' == SavedFull(disk, "toyReg", ToyRegData(src.z), out.desc)
    case ToyClassRoutine =>
      && out == Returned(Full("LgstReg", "toyClass", ToyClassData(src.z, src.choose), map[]))
      && disk' == SavedFull(disk, "toyClass", ToyClassData(src.z, src.choose), out.desc)
    case MnistRoutine =>
      var m := src.mnist;
      if m.trainImages.Some? && m.testImages.Some? && m.trainLabels.Some? && m.testLabels.Some? then
        var q := Quad(ImageArray(m.trainImages.value), ImageArray(m.testImages.value),
                      LabelArray(m.trainLabels.value), LabelArray(m.testLabels.value));
        && out == Returned(Full("LgstReg", "MNIST", q, map[]))
        && disk' == SavedFull(disk, "MNIST", q, out.desc)
      else
        && out == Raised(FileNotFound(SourcePath("MNIST", FirstMissing(m))))
        && disk' == MnistPartial(disk, m)
    case QuantumRoutine =>
      (match src.table
       case None => out == Raised(FileNotFound(SourcePath("quantum", "phy_train.dat"))) && disk' == disk
       case Some(rows) =>
         (match Run(rows, QuantumHalf, QuantumFeatures)
          case Err(e) => out == Raised(e) && disk' == disk
          case Ok(st) =>
            && out == Returned(Full("LgstReg", "quantum", QuantumData(st.t), map[]))
            && disk' == SavedFull(disk, "quantum", QuantumData(st.t), out.desc)))
    case IsoBigRoutine =>
      && out == Returned(TrainOnly("NoisyOpt", "NoisyOpt_isoBig", IsoData(src.z, 50).0, IsoData(src.z, 50).1, IsoMisc(5)))
      && disk' == SavedTrain(disk, "NoisyOpt_isoBig", IsoData(src.z, 50).0, IsoData(src.z, 50).1, out.desc)
    case IsoSmallRoutine =>
      && out == Returned(TrainOnly("NoisyOpt", "NoisyOpt_isoSmall", IsoData(src.z, 15).0, IsoData(src.z, 15).1, IsoMisc(15)))
      && disk' == SavedTrain(disk, "NoisyOpt_isoSmall", IsoData(src.z, 15).0, IsoData(src.z, 15).1, out.desc)
  }

  /** Whatever a fresh run returns is pickled under the routine's own
      dataset name and describes the files that run wrote. */
  lemma FreshPersisted(r: Routine, disk: Disk, src: Sources, disk': Disk, out: Outcome)
    requires Fresh(r, disk, src, disk', out) && out.Returned?
    ensures Persisted(out.desc, Name(r), disk')
  {
    match r
    case ToyRegRoutine =>
      FullPersisted(disk, "toyReg", ToyRegData(src.z), "LinReg", map[]);
    case ToyClassRoutine =>
      FullPersisted(disk, "toyClass", ToyClassData(src.z, src.choose), "LgstReg", map[]);
    case MnistRoutine =>
      var m := src.mnist;
      var q := Quad(ImageArray(m.trainImages.value), ImageArray(m.testImages.value),
                    LabelArray(m.trainLabels.value), LabelArray(m.testLabels.value));
      FullPersisted(disk, "MNIST", q, "LgstReg", map[]);
    case QuantumRoutine =>
      QuantumTyped(src.table.value);
      var q := QuantumData(Run(src.table.value, QuantumHalf, QuantumFeatures).value.t);
      FullPersisted(disk, "quantum", q, "LgstReg", map[]);
    case IsoBigRoutine =>
      TrainPersisted(disk, "NoisyOpt_isoBig", IsoData(src.z, 50).0, IsoData(src.z, 50).1, "NoisyOpt", IsoMisc(5));
    case IsoSmallRoutine =>
      TrainPersisted(disk, "NoisyOpt_isoSmall", IsoData(src.z, 15).0, IsoData(src.z, 15).1, "NoisyOpt", IsoMisc(15));
  }

  /** The branch of `prep` that runs routine r. */
  method RunRoutine(r: Routine, disk: Disk, src: Sources) returns (disk': Disk, out: Outcome)
    ensures Fresh(r, disk, src, disk', out)
  {
    var desc;
    var res;
    match r {
      case ToyRegRoutine =>
        disk', desc := ToyReg(disk, src.z);
        out := Returned(desc);
      case ToyClassRoutine =>
        disk', desc := ToyClass(disk, src.z, src.choose);
        out := Returned(desc);
      case MnistRoutine =>
        disk', res := Mnist(disk, src.mnist);
        out := FromResult(res);
      case QuantumRoutine =>
        disk', res := Quantum(disk, src.table);
        out := FromResult(res);
      case IsoBigRoutine =>
        disk', desc := NoisyOptIsoBig(disk, src.z);
        out := Returned(desc);
      case IsoSmallRoutine =>
        disk', desc := NoisyOptIsoSmall(disk, src.z);
        out := Returned(desc);
    }
  }

  /** `prep(s, skipread)`. */
  method Prep(s: string, skipread: bool, disk: Disk, src: Sources) returns (disk': Disk, out: Outcome)
    ensures RoutineFor(s).None? ==> out == ReturnedNone && disk' == disk
    ensures RoutineFor(s).Some? && skipread ==> out == LoadCached(disk, InfoPath(s)) && disk' == disk
    ensures RoutineFor(s).Some? && !skipread ==> Fresh(RoutineFor(s).value, disk, src, disk', out)
    ensures RoutineFor(s).Some? && !skipread ==> out != ReturnedNone
    ensures RoutineFor(s).Some? && !skipread && out.Returned? ==> Persisted(out.desc, s, disk')
    ensures !skipread && RoutineFor(s) in {Some(ToyRegRoutine), Some(ToyClassRoutine), Some(IsoBigRoutine), Some(IsoSmallRoutine)}
            ==> out.Returned?
  {
    var routine := RoutineFor(s);
    if routine.None? {
      return disk, ReturnedNone;
    }
    if skipread {
      return disk, LoadCached(disk, InfoPath(s));
    }
    disk', out := RunRoutine(routine.value, disk, src);
    RoutineForName(s, routine.value);
    if out.Returned? {
      FreshPersisted(routine.value, disk, src, disk', out);
    }
  }

  /** A run of `prep(s)` that returns a descriptor is followed by
      `prep(s, skipread=True)` returning that same descriptor without
      touching the disk. */
  method CacheHit(s: string, disk: Disk, src: Sources) returns (first: Outcome, second: Outcome)
    ensures RoutineFor(s).Some? && first.Returned? ==> second == first
    ensures RoutineFor(s).None? ==> first == ReturnedNone && second == ReturnedNone
  {
    var disk1, disk2;
    disk1, first := Prep(s, false, disk, src);
    disk2, second := Prep(s, true, disk1, src);
  }
}
