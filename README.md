# Data preparation of `support/parse_data.py`, modelled in Dafny

The module `support/parse_data.py` turns raw datasets into headerless binary
arrays under `data/<dataset>/` and records, for each dataset, a descriptor
(`dinfo`) with the model name, the shape, path and dtype of each of the four
splits (`X_tr`, `X_te`, `y_tr`, `y_te`) and a `misc` dictionary. The
descriptor is pickled to `data/<dataset>/info.dat`. `prep(s, skipread)`
picks the routine for a dataset name. With `skipread` it reads the cached
descriptor back instead of rebuilding it.

This project models:

- **Bytes** (`bytes.dfy`): `int.from_bytes(..., "big")` on what `read(k)`
  returns, including short reads at end of file. A four-byte header field
  decodes to `b0·2^24 + b1·2^16 + b2·2^8 + b3`. A one-byte read decodes to
  the byte, or to 0 past the end of the file.
- **Tensor** (`tensor.dfy`): row-major `reshape((n, d))` and `tofile`. A
  written array read back with its recorded shape gives the array again.
- **Idx** (`idx.dfy`): the MNIST IDX reader. It skips the magic number,
  reads the count and, for images, the rows and columns, then runs the
  `while bytes_left > 0` copy loop.
- **Descriptor** (`descriptor.dfy`): the descriptor object as a class whose
  fields the routines assign one by one, and its pickled value. Also the
  files on disk, the split and descriptor paths, and what it means for a
  descriptor to describe the files written.
- **Table** (`table.dfy`): the `quantum` splitter. It runs over rows of text
  fields with the `idx`/`switcher` state machine. Its in-place method over
  two-dimensional arrays is proved against a pure reference run.
- **Synthetic** (`synthetic.dfy`): the structural parts of the generators.
  These are the random draws taken from a stream, `X w + noise`, the
  toyClass logits and label loop, the sparse weights and the covariance of
  `NoisyOpt_SmallSparse`.
- **Prepare** (`prepare.dfy`): every routine. Each allocates a fresh
  descriptor, fills it in, writes its splits and pickles it. Also the `prep`
  dispatcher and its cache.

Files are a value `Disk = map<string, File>`: a path holds either a raw
array or a pickled descriptor. Routines take a disk and return the new one.
The downloaded source files, the random draws and `np.random.choice` are
parameters.

A short IDX file is not rejected: at end of file `f_bin.read(1)` returns
`b''` (`support/parse_data.py:366-368`) and `int.from_bytes(b'')` is 0, so
the payload is padded with zeros (`Idx.PayloadAt`,
`Bytes.ByteAtIsByteOrZero`).

## Model

| member | source | states |
|---|---|---|
| Bytes.FourBytes | support/parse_data.py:352-358 | a four-byte big-endian field b0 b1 b2 b3 decodes to b0·2^24 + b1·2^16 + b2·2^8 + b3, which is below 2^32 |
| Bytes.HeaderFieldInFile | support/parse_data.py:351-358 | a header field read at pos inside the file is the big-endian value of the four file bytes at pos |
| Bytes.HeaderField | support/parse_data.py:352-357 | every decoded header field (n, rows, cols) is below 2^32, short reads included |
| Bytes.FromBigEndian | support/parse_data.py:354-358 | the value of k bytes is below 256^k |
| Bytes.DecodeEncode | support/parse_data.py:354-358 | decoding the k-byte big-endian encoding of v < 256^k gives back v |
| Bytes.EncodeDecode | support/parse_data.py:354-358 | encoding the decoded value of a byte string at its own width gives back the byte string |
| Bytes.OneByte | support/parse_data.py:367-368 | a one-byte read decodes to the byte itself |
| Bytes.OneByteOrNone | support/parse_data.py:367-368 | a read of at most one byte decodes below 256: to the byte when there is one, to 0 for `b''` |
| Bytes.ReadAt | support/parse_data.py:352-367 | `read(k)` at pos returns the file bytes from pos on: k of them, or what is left before end of file |
| Bytes.ByteAt | support/parse_data.py:366-368 | (body) `np.uint8(int.from_bytes(f_bin.read(1), "big"))` at a position: the big-endian value of what a one-byte read returns there, which `Bytes.ByteAtIsByteOrZero` pins to the file byte or 0 |
| Bytes.ByteAtIsByteOrZero | support/parse_data.py:366-368 | a single-byte read stores the file byte, or 0 past the end of the file |
| Tensor.Product2 | support/parse_data.py:374 | a shape (n, d) accounts for n·d elements |
| Tensor.Reshape | support/parse_data.py:374 | reshaping n·d elements gives n rows of d elements each |
| Tensor.Flatten | support/parse_data.py:132 | (body) `tofile` writes the rows one after another with no header; `Tensor.FlattenLength`, `Tensor.FlattenRow` and `Tensor.ReshapeFlatten` state its layout |
| Tensor.ReshapeAt | support/parse_data.py:374 | element (i, j) of the reshaped array is flat element i·d + j |
| Tensor.Transpose | support/parse_data.py:259 | `np.transpose` of an array with rows of `cols` elements is a `cols` by n array whose element (r, c) is element (c, r) |
| Tensor.TransposeTranspose | support/parse_data.py:259 | transposing twice gives the array back |
| Tensor.FlattenLength | support/parse_data.py:132 | writing n rows of d elements writes n·d elements |
| Tensor.FlattenRow | support/parse_data.py:132 | row i of a written array occupies elements [i·d, i·d + d) of the file |
| Tensor.ReshapeFlatten | support/parse_data.py:130-135 | a written array read back with its recorded shape is the array itself |
| Tensor.FlattenReshape | support/parse_data.py:372-374 | writing a reshaped flat array reproduces the flat array |
| Tensor.FlattenAll | support/parse_data.py:132 | a property of every element of every row holds of every element written |
| Idx.CopyBytes | support/parse_data.py:363-372 | the copy loop does exactly count single-byte reads, with idx going 0 to count and bytes_left count to 0, and stores element k = file byte at start + k, or 0 past the end |
| Idx.Payload | support/parse_data.py:363-370 | the payload the copy loop produces has exactly count elements, one per single-byte read |
| Idx.PayloadAt | support/parse_data.py:366-370 | payload element k is the file byte at start + k, or 0 past the end of the file |
| Idx.ReadImages | support/parse_data.py:350-376 | an image file gives n = field at 4, d = field at 8 × field at 12, and the n·d bytes from offset 16 |
| Idx.PayloadCell | support/parse_data.py:363-376 | element (i, j) of the (n, d) image array is the file byte at 16 + i·d + j, or 0 past the end |
| Idx.ReadLabels | support/parse_data.py:420-442 | a label file gives n = field at 4, d = 1, and label i = the byte at offset 8 + i, or 0 past the end |
| Idx.WholePayload | support/parse_data.py:363-370 | a file that holds its whole payload is copied without padding: exactly the bytes after the header |
| Descriptor.Descriptor.With | support/parse_data.py:133-155 | assigning one split changes that split only, and leaves the model name and misc alone |
| Descriptor.DataInfo.constructor | support/parse_data.py:90 | `classes.DataInfo()` starts with an empty model name, four empty split dicts and an empty misc |
| Descriptor.DataInfo.SetModel | support/parse_data.py:91 | `dinfo.mname = name` changes the model name and nothing else |
| Descriptor.DataInfo.Describe | support/parse_data.py:133-135 | the `["shape"]`, `["path"]`, `["dtype"]` item assignments on one split set all three keys of that split and change nothing else |
| Descriptor.DataInfo.Drop | support/parse_data.py:501-502 | `dinfo.X_te = None` / `dinfo.y_te = None` sets that split to None and changes nothing else |
| Descriptor.DataInfo.SetMisc | support/parse_data.py:510-523 | `dinfo.misc[key] = v` binds key to v and changes nothing else |
| Descriptor.PathsDistinct | support/parse_data.py:130-159 | the four split paths and the descriptor path of a dataset are five different relative paths |
| Descriptor.SplitPathInjective | support/parse_data.py:130-159 | different datasets write to different split and descriptor files |
| Descriptor.SplitPath | support/parse_data.py:130 | (body) `os.path.join("data", dataset, "<split>.dat")`, the relative path "data/<ds>/<split>.dat"; `Descriptor.PathsDistinct` and `Descriptor.SplitPathInjective` state that these paths never collide |
| Descriptor.InfoPath | support/parse_data.py:159 | (body) `os.path.join("data", dataset, "info.dat")`, the relative path "data/<ds>/info.dat", distinct from every split path |
| Table.Features | support/parse_data.py:117-121 | `line[2:-1]` drops field 0, the label field 1 and the last field |
| Table.FeatureRow | support/parse_data.py:117-121 | a stored feature row has d elements: the features in order, or one feature broadcast across the row |
| Table.LabelRow | support/parse_data.py:116-120 | (body) `y[idx, 0] = np.uint8(line[1])`: the one-element label row holding field 1 of the row |
| Table.Step | support/parse_data.py:112-127 | one pass of the loop body raises IndexError for a row without a label field or an idx past the arrays, and a broadcast error for a feature count other than d or 1; otherwise it writes only the arrays of the current half and keeps the array sizes |
| Table.Run | support/parse_data.py:110-127 | the `for line in f_reader` loop, when it does not raise, leaves four arrays of their allocated sizes |
| Table.RunErrSticks | support/parse_data.py:110-127 | once a row raises, the whole loop raises that exception |
| Table.RunOk | support/parse_data.py:110-127 | the loop completes exactly when n//2 > 0 or there are no rows, and every row has a label field and d features or one broadcast feature |
| Table.RunCounters | support/parse_data.py:124-127 | after k rows, switcher is True iff k < n//2, idx = k before the switch and (k − n//2) mod n//2 after it, and the arrays keep their sizes |
| Table.RunTyped | support/parse_data.py:103-119 | feature arrays hold only float64-or-text values and label arrays only uint8-or-text values: the `np.zeros` fill is float64 and uint8, and every stored field is text |
| Table.StepTyped | support/parse_data.py:112-119 | storing one row keeps features float64-or-text and labels uint8-or-text |
| Table.StepCounters | support/parse_data.py:120-127 | one stored row advances idx by one, wrapping it to 0 and clearing switcher when it reaches n//2, and keeps the array sizes |
| Table.CounterStep | support/parse_data.py:120-127 | the closed form of idx and switcher after k rows, advanced by one row, is their closed form after k + 1 rows |
| Table.TrainSlotStep | support/parse_data.py:110-127 | one more row leaves each training position as described: row p if it exists, else zeros |
| Table.TestSlotStep | support/parse_data.py:116-127 | one more row lands at test position q exactly when it is the last row mapped there, and leaves the other test positions as described |
| Table.LastTestRow | support/parse_data.py:124-127 | names the last row that wraps to test position q, if any |
| Table.TrainContents | support/parse_data.py:112-118 | training position p holds row p (label field 1, features) when there are more than p rows, and the zeros of `np.zeros` otherwise |
| Table.TestContents | support/parse_data.py:116-127 | test position q holds the last row r ≥ n//2 with (r − n//2) mod n//2 = q, or zeros when no row reaches it: rows beyond n overwrite test positions from 0 and never touch the training arrays |
| Table.TrainInOrder | support/parse_data.py:103-115 | every row is well formed, row r < n//2 lands at training position r with its label field and features, and training positions past the last row stay zero |
| Table.TestInOrder | support/parse_data.py:116-127 | with at most n rows nothing is overwritten: row r ≥ n//2 lands at test position r − n//2, and test positions past the last row stay zero |
| Table.TestSlotWithin | support/parse_data.py:116-127 | with at most n rows, test position q holds row n//2 + q when there is one, else zeros |
| Table.LastTestRowWithin | support/parse_data.py:124-127 | with at most n rows, the only row that reaches test position q is n//2 + q, if it exists |
| Table.NewZeros | support/parse_data.py:103-106 | `np.zeros((n, m))` is a fresh n by m array of zeros |
| Table.StoreRow | support/parse_data.py:112-119 | storing a row replaces row idx of X and y and nothing else |
| Table.StepArrays | support/parse_data.py:110-127 | one iteration of the loop body on the four arrays raises exactly when the reference step does, with the same exception, and otherwise leaves the arrays and counters as the reference step does |
| Table.SplitTable | support/parse_data.py:103-127 | the in-place loop over the four arrays raises exactly when the reference run raises, with the same exception, and otherwise fills the arrays as the reference run does |
| Synthetic.Normal | support/parse_data.py:184-187 | a draw of k values at a scale has k values, taken after the draws already consumed |
| Synthetic.LinearOutputs | support/parse_data.py:209 | `np.dot(X, w) + noise` has one output per sample |
| Synthetic.LinearOutputsRowwise | support/parse_data.py:209 | output i minus noise i is row i of X dotted with w, so samples with equal inputs and noise get equal outputs |
| Synthetic.Shift | support/parse_data.py:523 | `w_true + delta` keeps the shape and moves every element by exactly delta |
| Synthetic.ScaledIdentity | support/parse_data.py:510 | `sigma_X**2 * np.eye(d)` is d by d with sigma_X² on the diagonal and zeros elsewhere |
| Synthetic.WTrue | support/parse_data.py:259 | `np.transpose(np.concatenate((w_0, w_1, w_2)).reshape((nc-1, d)))`, built from `Tensor.Reshape` and `Tensor.Transpose`, is d by nc−1 with column c equal to w_c |
| Synthetic.Column | support/parse_data.py:273 | `P[:, i]` holds element i of every row |
| Synthetic.ClassLabels | support/parse_data.py:272-274 | the labels the loop draws: one per sample, each a class index below nc |
| Synthetic.LogitsAsWritten | support/parse_data.py:266-267 | the logits as the code computes them: nc rows of n, the last one zero, and row c < nc−1 at sample i equal to Σ_k w_k[c]·x_i[k] |
| Synthetic.TransposedProduct | support/parse_data.py:259-267 | row c of `np.dot(W_true, X^T)` at sample i is Σ_k w_k[c]·x_i[k] |
| Synthetic.LogitsAsWrittenDiffer | support/parse_data.py:255-267 | for x = (0, 1, 0) the code's class-0 logit is 3.1415 where w_0·x is 1.4142 |
| Synthetic.Logits | support/parse_data.py:265-267 | the intended logits: nc rows of n, row c < nc−1 at sample i is w_c·x_i, and the last row is zero |
| Synthetic.LogitsColumnOwnInputs | support/parse_data.py:265-273 | the logit column of a sample depends on that sample's inputs alone, and its last entry is zero |
| Synthetic.DrawLabels | support/parse_data.py:271-274 | the label loop fills label i, below nc, by draw first + i from column i of the logits |
| Synthetic.Scatter | support/parse_data.py:648-650 | `w[idx_on] = vals` keeps the length and leaves every entry outside idx_on unchanged |
| Synthetic.SparseWeights | support/parse_data.py:647-650 | the true weights have d entries and are zero outside the chosen indices |
| Synthetic.ScatterAt | support/parse_data.py:646-650 | after `w[idx_on] = vals` with distinct indices, entry idx_on[k] is vals[k] and every other entry is unchanged |
| Synthetic.SparseSupport | support/parse_data.py:645-650 | when no drawn weight is zero, the non-zero entries of w_true are exactly the chosen indices, d0 of them |
| Synthetic.DistinctCard | support/parse_data.py:647 | d0 indices drawn without replacement are d0 different indices |
| Synthetic.Covariance | support/parse_data.py:642-643 | the covariance of the inputs is a d by d matrix |
| Synthetic.CovarianceEntries | support/parse_data.py:642-643 | the covariance is sigma_X on the diagonal and corr elsewhere, and symmetric |
| Prepare.RealArray | support/parse_data.py:191-195 | a float64 array records its shape and holds only float64 elements |
| Prepare.ByteArray | support/parse_data.py:374-376 | a uint8 array records its shape and holds only uint8 elements |
| Prepare.Store | support/parse_data.py:130-132 | (body) `data_arr.tofile` to the split's path: that path now holds the array's elements and every other path is as before (`Prepare.StoreKeeps`) |
| Prepare.StoreKeeps | support/parse_data.py:130-152 | writing one split leaves the files of the other splits unchanged |
| Prepare.WriteSplit | support/parse_data.py:130-135 | writing one split records its shape, path and dtype in that split of the descriptor, changes no other field, and stores the array at the split's path |
| Prepare.PickleKeeps | support/parse_data.py:159-161 | pickling the descriptor leaves every split file unchanged |
| Prepare.FullPersisted | support/parse_data.py:130-161 | after writing four well-typed arrays and pickling, the descriptor sits at data/<ds>/info.dat and every split entry has the split's own path, a file with exactly as many elements as its shape says, and that dtype |
| Prepare.TrainPersisted | support/parse_data.py:526-547 | the same for the routines that write only the training split |
| Prepare.QuantumTyped | support/parse_data.py:130-155 | the arrays quantum writes have shapes (n//2, 78) and (n//2, 1) that match their lengths, with features float64-or-text and labels uint8-or-text |
| Prepare.QuantumData | support/parse_data.py:130-155 | (body) the four arrays quantum writes: the flattened tables under shapes (n//2, 78) and (n//2, 1), dtypes float64 and uint8; `Prepare.QuantumTyped` proves them well typed |
| Prepare.Quantum | support/parse_data.py:84-164 | a missing table or a row the loop rejects raises and writes nothing; otherwise the four halves are written and the descriptor persisted, with model "LgstReg" |
| Prepare.ToyRegData | support/parse_data.py:182-223 | toyReg's arrays have shapes (15, 3), (10, 3), (15, 1), (10, 1), match their lengths and are float64 |
| Prepare.ToyReg | support/parse_data.py:167-233 | toyReg writes its four arrays and persists a "LinReg" descriptor that describes them |
| Prepare.ToyClassData | support/parse_data.py:261-321 | toyClass's arrays have shapes (25, 3), (20, 3), (25, 1), (20, 1), match their lengths; inputs are float64 and labels uint8; labels come from the corrected logits (see Left out) |
| Prepare.ToyClass | support/parse_data.py:236-331 | toyClass writes its four arrays and persists a "LgstReg" descriptor that describes them |
| Prepare.ImageArray | support/parse_data.py:350-376 | the image array's shape (n, rows·cols) matches its n·d bytes, all uint8 |
| Prepare.LabelArray | support/parse_data.py:420-442 | the label array's shape (n, 1) matches its n bytes, all uint8 |
| Prepare.CopyImages | support/parse_data.py:346-376 | one image file is read and recorded under its split |
| Prepare.CopyLabels | support/parse_data.py:416-442 | one label file is read and recorded under its split |
| Prepare.Mnist | support/parse_data.py:334-484 | the four IDX files are copied in order; a missing file raises with its path, keeping the splits already written and pickling nothing; otherwise a "LgstReg" descriptor is persisted |
| Prepare.MnistPartial | support/parse_data.py:341-442 | (body) the disk `MNIST()` leaves when a file is missing: the splits copied from the files opened before the first missing one, and no pickle |
| Prepare.NoisyOptIso | support/parse_data.py:488-550 | an isotropic NoisyOpt set writes X_tr and y_tr only and persists its descriptor |
| Prepare.IsoMisc | support/parse_data.py:510-523 | (body) the misc dict of the isotropic sets: cov_X, sigma_noise 3, nsub, w_true and w_init; `Prepare.IsoMiscFacts` states what it holds |
| Prepare.IsoData | support/parse_data.py:516-536 | the isotropic training arrays, unit-scale inputs of shape (n, 2) and outputs X w + noise at scale 3 of shape (n, 1), are both well typed |
| Prepare.IsoMiscFacts | support/parse_data.py:510-523 | the isotropic misc dict holds cov_X = the 2 by 2 identity, the given nsub, and w_init = w_true + 15 elementwise |
| Prepare.NoisyOptIsoBig | support/parse_data.py:488-550 | the descriptor and disk of the common isotropic body with 50 samples and nsub 5: no test split, X_tr of shape (50, 2), nsub 5, and w_init = w_true + 15 elementwise |
| Prepare.NoisyOptIsoSmall | support/parse_data.py:553-615 | the descriptor and disk of the common isotropic body with 15 samples and nsub 15: no test split, X_tr of shape (15, 2), nsub = n = 15, and w_init = w_true + 15 elementwise |
| Prepare.SparseMisc | support/parse_data.py:636-668 | (body) the misc dict of NoisyOpt_SmallSparse: sigma_noise 2.5, the equicorrelated cov_X, w_true, w_init and nsub 100 |
| Prepare.SparseMiscFacts | support/parse_data.py:651-668 | in the sparse misc dict w_init is w_true + 2.5 elementwise and nsub is 100 |
| Prepare.NoisyOptSmallSparse | support/parse_data.py:618-698 | the descriptor is exactly the train-only "NoisyOpt" descriptor of the (100, 31) standardised inputs and the (100, 1) outputs X w + noise, with the sparse weights, equicorrelated covariance and w_init = w_true + 2.5 in misc; the disk is the old disk with those two arrays and the pickle added |
| Prepare.RoutineForName | support/parse_data.py:12-71 | `prep` selects a routine exactly by that routine's own dataset name; NoisyOpt_SmallSparse and every other name select nothing |
| Prepare.LoadCached | support/parse_data.py:19-24 | `pickle.load` of a path returns the pickled descriptor there, raises FileNotFound for a missing path, and fails on a raw array |
| Prepare.RoutineFor | support/parse_data.py:17-70 | the `if s == ...` chain: a selected routine is the one whose own dataset name is s, and nothing is selected when no routine has that name |
| Prepare.Fresh | support/parse_data.py:17-70 | (body) what `return <routine>()` gives for each of the six routines: toyReg, toyClass and the isotropic sets return their exact descriptor and disk; MNIST does so with all four files and otherwise raises FileNotFound for the first missing file and leaves `Prepare.MnistPartial`; quantum raises FileNotFound without its table or the loop's exception with the disk unchanged, and otherwise returns its exact descriptor and disk |
| Prepare.RunRoutine | support/parse_data.py:17-70 | the `else: return <routine>()` branch for a routine returns exactly that routine's descriptor and leaves exactly its files, or raises its exception and leaves exactly the files written before it (MNIST keeps the splits copied before the first missing file) |
| Prepare.FreshPersisted | support/parse_data.py:17-70 | a descriptor a routine returns is pickled at data/<name>/info.dat under that routine's own name and describes the files the run wrote |
| Prepare.Prep | support/parse_data.py:10-70 | unknown names return None without writing; skipread returns what is pickled at data/<s>/info.dat; otherwise the selected routine's own descriptor and files are what `prep` returns and leaves (`Fresh`), any descriptor returned is persisted there, and the generators always return one |
| Prepare.CacheHit | support/parse_data.py:19-26 | `prep(s)` returning a descriptor followed by `prep(s, skipread=True)` returns that same descriptor |

## Left out

- File I/O is replaced by values. `open`, `seek`, `read`, `tofile`,
  `pickle` and `csv.reader` become sequences in and a path-to-contents map
  out. Missing output directories are not modelled; every write succeeds.
- The home-directory expansion of `DATA_PATH` is not modelled. It is the
  constant `~/learnml/data`.
- Random draws are parameters, not distributions. `np.random.normal` is a
  stream of standard normal values, scaled. `np.random.choice` is a chooser
  function given the logit column. `multivariate_normal`, the indices
  `idx_on` and the sparse weights of `NoisyOpt_SmallSparse` are passed in.
  Because those three draws are parameters, the noise stream of
  `NoisyOpt_SmallSparse` starts at draw 0, although in the source the noise
  (line 655) is drawn after `choice` (647), the weights (648) and
  `multivariate_normal` (654).
- Prepare.NoisyOptSmallSparse takes its inputs already standardised (the
  empirical standardisation is floating-point) and requires the d0 indices
  below d. This is what `np.random.choice(d, size=d0, replace=False)`
  yields; the indices are also distinct, which the model does not require.
- Synthetic.DrawLabels: the softmax (`exp` and normalisation) is not
  modelled. The chooser receives the logit column the probabilities are
  computed from.
- Floating point: reals stand for float64 values without rounding. Parsing
  of the quantum text fields is not modelled; a field stands for its value
  (`FromText`).
- `sqrt(6.25)` and `sqrt(0.4)` in `NoisyOpt_SmallSparse`: the first is
  written as 2.5. The second only scales a weight draw, and those are passed
  in.
- The output `y_tr` of `NoisyOpt_SmallSparse` at line 659 is computed and
  then discarded, so it is not modelled. The written outputs come from
  line 681.
- `load` (support/parse_data.py:75-81) and `classes.Data`: support/classes
  is not part of this model. The initial state of `classes.DataInfo` is
  taken to be four empty dicts, an empty `misc` and an empty model name.
- `pickle.load` on a file that is not a pickle is modelled as one
  UnpicklingError. Python raises one of several exceptions.
- Every `print` call.
- Prepare.ToyClassData draws its labels from the corrected logits
  `Synthetic.Logits` (class c scored by w_c·x), not from the product
  `np.dot(W_true, np.transpose(X))` that lines 267 and 278 compute (see
  Findings). The label files it describes are therefore those of the
  evidently intended program, not the ones the code as written produces.
- Prepare.ToyClass writes the labels of `Prepare.ToyClassData`, so its
  y_tr and y_te files follow the corrected logits for the same reason.
- Descriptor.DType: the routines record two kinds of dtype value.
  toyReg, toyClass and the NoisyOpt routines store `data_arr.dtype`, a numpy
  dtype instance (lines 194, 292, 530). quantum and MNIST store the scalar
  types `np.float64` and `np.uint8` (lines 135, 149, 376). These pickle as
  different objects; the model maps both to one `DType` value.
- Table.SplitTable does not model a row whose label text is not a valid
  uint8 or whose feature text is not a float. Parsing is not modelled.

## Findings

| source | as written | input that shows it | evidently intended | confidence | as-written member | corrected member |
|---|---|---|---|---|---|---|
| support/parse_data.py:259-267 | `np.dot(W_true, np.transpose(X))` with `W_true` of shape (d, nc−1) gives class c the logit Σ_k w_k[c]·x[k]. numpy accepts it only because d = nc − 1 = 3. | x = (0, 1, 0): the class-0 logit is w_1[0] = 3.1415 instead of w_0·x = 1.4142 | class c's logit is w_c·x, i.e. `np.dot(np.transpose(W_true), np.transpose(X))` | medium, not executed | Synthetic.LogitsAsWritten, Synthetic.LogitsAsWrittenDiffer | Synthetic.Logits, Synthetic.LogitsColumnOwnInputs |

The routines `Prepare.ToyClass` and `Prepare.ToyClassData` use the corrected
`Synthetic.Logits`.
