# FoodRecognitionV2 ResNet orchestration, in Dafny

This project models the non-numeric logic of `ResNet.py`, the training and serving
pipeline of a food classifier built on a ResNet-50 network in TensorFlow 0.x. The numeric
work is done by TensorFlow. What the Python code decides itself is modelled here, and the
properties its design relies on are proved:

- **Blobs** (`blob.dfy`): the container the pipeline stages pass on. It holds either images
  with their labels or plain values. Construction normalises its arguments (`prob_list`),
  and `kwargs` fetches every tensor under its name.
- **Meta** (`meta.dfy`): `Meta.train` turns the visible sub-directories of the image
  directory into the list of class names.
- **FileProducer** (`file_producer.dfy`): `_blob` and its callers `trainBlob` and `testBlob`.
  They walk every class directory and keep `.jpg` files on one side of a hash split. Each
  file is labelled with its class's position. An optional check pass drops the files the
  check rejects. One reader pipeline is then built per input, and in training each reader
  gets a reshuffled copy of the lists.
- **Batching** (`batch.dfy`): the batch-size counter of `Batch.make_size`, seeded by
  `Batch.kwargs`, and the crop fold of `Batch.test`.
- **Nets** (`net.dfy`): the phase variable, `Net.case`, `Net.expand` and the pooling
  windows.
- **ResNets** (`resnet.dfy`): `get_initializer`, the layout of bottleneck units and blocks,
  the ResNet-50 stack, `rebatch` and the input assertion of `build`.
- **Consuming** (`consumer.dfy`): the dequeue count of the online `Consumer`.
- **Support modules:**
  - `shapes.dfy`: integer division as TensorFlow 0.x computes it, the ceiling division,
    and tensor reshapes.
  - `permutations.dfy`: index selections and permutations of Python lists.
  - `wrappers.dfy`: `Option` and `Result`.

Everything outside the program is an input to the model:

- the directory listing and `os.walk`;
- Python's `hash`;
- the `identify` image check, as a keep/drop predicate;
- `np.random.permutation`, as a function from (call number, length) to a permutation;
- whether a checkpoint exists;
- the names in the archived parameters.

TensorFlow graph variables that the session assigns become class fields. A `session.run`
that executes an assign becomes a method call.

The repository targets TensorFlow 0.x, and there `/` on integer tensors rounds toward
zero. `Shapes.TruncDiv` models that. Python 2 `/` on two non-negative ints floors, which is
Dafny's `/` on such operands.

## Model

| member | source | states |
|---|---|---|
| Blobs.ProbList | ResNet.py:42-46 | a non-list argument becomes a one-element list holding it; a list is returned as is |
| Blobs.MissingLabels | ResNet.py:154-155 | one int64 constant -1 per image, as many as there are images |
| Blobs.NewBlob | ResNet.py:147-163 | construction succeeds iff exactly one of images and values is given, else fails with "Too many arguments!"; images and labels pass through `prob_list`; without labels, one -1 label per image; values give a VALUE blob |
| Blobs.AsTupleList | ResNet.py:165-166 | Python's zip: as long as the shorter of images and labels, pairing them position by position |
| Blobs.FetchDict | ResNet.py:177-179 | the dict comprehension keyed by tensor name: every name is a key, each entry is a fetched tensor under its own name, and a repeated name keeps its last tensor |
| Blobs.Kwargs | ResNet.py:171-179 | feeds nothing; fetches images and labels of an IMAGE_LABEL blob or the values of a VALUE blob, each under its name, and nothing else |
| Blobs.KwargsFetchesEachTensor | ResNet.py:171-179 | with distinct graph names, every tensor of the blob is fetched under its name |
| Meta.ClassDirs | ResNet.py:59-63 | the classes of a listing: no more than its entries, and none starting with '.' |
| Meta.Train | ResNet.py:59-63 | the loop over `os.listdir` yields exactly `ClassDirs` of the listing |
| Meta.ClassDirsMembers | ResNet.py:59-63 | a name is a class iff some entry carrying it is a directory not starting with '.'; there are no more classes than entries |
| Meta.ClassDirsPrefix | ResNet.py:59-63 | listing order is kept: the classes of a prefix of the listing are a prefix of the classes |
| Permutations.Pick | ResNet.py:281-282 | `map(xs.__getitem__, idx)`: one element per index, the element at that index |
| Permutations.Zip | ResNet.py:289-290 | pairs two equal-length lists position by position |
| Permutations.PickPermutation | ResNet.py:288-290 | selecting by a permutation of the indices keeps the multiset of elements |
| Permutations.PickKeepsPairs | ResNet.py:281-282 | selecting the same indices from two lists equals selecting those indices from their zip |
| Permutations.PermutedPairs | ResNet.py:288-290 | permuting filenames and labels by one shared permutation permutes the (filename, label) pairs |
| FileProducer.Join | ResNet.py:255 | `os.path.join` of a relative name: the directory, then exactly one '/' unless the directory is empty or already ends in one, then the name; the length is fixed accordingly, so no '/' is doubled |
| FileProducer.IsJpg | ResNet.py:258-259 | `endswith('.jpg')`: the name is some stem followed by ".jpg" |
| FileProducer.InSubsample | ResNet.py:260-261 | a name is on the divisible side iff its hash is a multiple of the subsample size, negative hashes included |
| FileProducer.Keep | ResNet.py:258-261 | the filter keeps only ".jpg" names |
| FileProducer.SplitSides | ResNet.py:258-261 | every ".jpg" name is kept by exactly one of the two sides of the split, and no other name by either |
| FileProducer.FromFiles | ResNet.py:257-263 | the samples of one directory: no more than its files, each from that directory, of the class, and kept by the filter |
| FileProducer.FromWalk | ResNet.py:256-263 | every sample of a class's walk carries the class and is kept by the filter |
| FileProducer.Collected | ResNet.py:254-263 | every collected sample belongs to a listed class and is kept by the filter |
| FileProducer.SelectInDir | ResNet.py:257-263 | the innermost loop appends the path and class of exactly the files `FromFiles` keeps, in order |
| FileProducer.SelectInClass | ResNet.py:256-263 | the walk loop appends exactly `FromWalk` of the walked directories, in order |
| FileProducer.SelectFiles | ResNet.py:251-263 | the three nested loops build `filename_list` and `classname_list` equal to the paths and classes of `Collected` |
| FileProducer.FromFilesMembers | ResNet.py:257-263 | a sample comes from a directory iff it is in that directory's file list, carries the class, and the filter keeps its name |
| FileProducer.FromWalkMembers | ResNet.py:256-263 | a sample comes from a walk iff some visited directory lists it, it carries the class, and the filter keeps it |
| FileProducer.CollectedMembers | ResNet.py:254-263 | a sample is collected iff its class is listed and the walk of its class directory yields it |
| FileProducer.SelectionExact | ResNet.py:254-263 | a file is selected iff its class is a listed class, the walk of that class's directory finds it, and it passes the `.jpg` and split filter |
| FileProducer.TrainTestPartition | ResNet.py:258-261 | the train side (not divisible) and the test side (divisible) share no file, and their multiset union is every `.jpg` file collected |
| FileProducer.IndexOf | ResNet.py:265 | `list.index`: the first position holding the value |
| FileProducer.Labels | ResNet.py:265 | each label is the first position in the class names that holds the file's class, as `list.index` returns |
| FileProducer.CollectedClassesListed | ResNet.py:254-265 | every collected class is among the class names, so `index` never fails |
| FileProducer.KeptIndices | ResNet.py:267-282 | no more indices than files, each in bounds and naming a file that passes the check |
| FileProducer.KeptIndicesExact | ResNet.py:267-282 | the kept indices are in bounds and strictly increasing, and an index is kept iff its file passes the check |
| FileProducer.CheckPass | ResNet.py:269-277 | the check loop records exactly `KeptIndices` of the filenames |
| FileProducer.Shuffled | ResNet.py:286-290 | a list after k readers' permutations keeps its length |
| FileProducer.ShuffledPairs | ResNet.py:286-290 | after any number of shared shuffles, filenames and labels still hold the same multiset of pairs |
| FileProducer.Readers | ResNet.py:286-300 | one reader per input; with shuffling, reader k gets the lists after k+1 shared permutations, else the lists themselves; every reader serves a permutation of the same pairs |
| FileProducer.Listed | ResNet.py:251-282 | the lists handed to the readers have equal length |
| FileProducer.ListedPairs | ResNet.py:251-282 | every listed pair is a collected file with the label of its class, that label being the class's first position in the class names, and with the check on, every listed file passed it |
| FileProducer.MakeBlob | ResNet.py:244-302 | `_blob` builds `num_inputs` readers, each serving a permutation of `Listed` pairs, in order when not shuffling |
| FileProducer.TrainBlob | ResNet.py:304-310 | the training readers take the non-divisible side, shuffled, one per training input; `check` defaults to true |
| FileProducer.TestBlob | ResNet.py:312-318 | the test readers take the divisible side in walk order, one per test input; `check` defaults to false |
| Batching.StepSize | ResNet.py:412-415 | the size is the requested B while the counter is -1, else min(counter, B) |
| Batching.NextTotal | ResNet.py:412-418 | the counter stays -1 while unbounded, else drops by the batch just taken |
| Batching.StepKeepsCounterInRange | ResNet.py:411-418 | from any counter other than -1 one step leaves max(0, counter - B), never negative; from a counter >= 0 it never rises and the batch is between 0 and B (a fed negative total other than -1 rises to 0) |
| Batching.UnboundedServesFullBatches | ResNet.py:411-418 | an unbounded counter stays -1 and serves full batches forever |
| Batching.Conservation | ResNet.py:411-418 | from a total N >= 0, served plus remaining is always N, every batch is between 0 and B, and max(0, N - kB) remain after k steps |
| Batching.ExhaustedStaysEmpty | ResNet.py:411-418 | once the counter is 0 it stays 0 and every further batch is empty |
| Batching.DrainsExactly | ResNet.py:411-418 | from N >= 0, ceil(N / B) steps serve exactly N: all batches full but the last, which is not empty, and the counter ends at 0 |
| Batching.SizeAt | ResNet.py:411-418 | the i-th batch is the step size of the counter as it stands after i steps |
| Batching.SizeCounter.Step | ResNet.py:407-425 | one dequeue with the assign unfed: returns `StepSize` and stores `NextTotal` |
| Batching.SizeCounter.Feed | ResNet.py:421-422 | feeding the placeholder stores the fed total |
| Batching.SizeCounter.constructor | ResNet.py:411 | the counter variable starts at -1 |
| Batching.AssignKey | ResNet.py:454-462 | the fetch key is `batch_train_assign` in TRAIN and `batch_test_assign` in TEST |
| Batching.Batch.constructor | ResNet.py:394-405 | the train counter requests `batch_size` and the test counter `batch_size / num_test_crops`; both start at -1 |
| Batching.Batch.Kwargs | ResNet.py:454-462 | TRAIN and TEST overwrite only their own counter and return their fetch key; any other phase returns nothing and changes nothing |
| Batching.TestRows | ResNet.py:449-450 | folding crops into rows gives b * K rows of the same image size and keeps the element count |
| Nets.FirstMatch | ResNet.py:564-566 | the first position whose phase matches, or the length when none does |
| Nets.Case | ResNet.py:564-570 | `case` returns the branch of the earliest pair matching the stored phase, or the first pair's branch when none matches |
| Nets.CaseOfListedPhase | ResNet.py:564-570 | with one pair per phase, the pair naming the stored phase is chosen |
| Nets.Expand | ResNet.py:514-515 | the window gets 1 prepended and appended around the given size |
| Nets.Pool | ResNet.py:518-531 | the pooling window is the expanded size; a missing stride defaults to the window size |
| Nets.Net.constructor | ResNet.py:542-551 | requires at least one class name; the phase starts at NONE |
| Nets.Net.Start | ResNet.py:636-637 | assigns the given default phase |
| Nets.Net.Train | ResNet.py:927-928 | assigns TRAIN |
| Nets.Net.Test | ResNet.py:949-950 | assigns TEST |
| Nets.Net.Online | ResNet.py:965-966 | assigns TEST |
| ResNets.ConvOut | ResNet.py:686-716 | a SAME convolution outputs its own channel count, and with stride 1 keeps height and width |
| ResNets.GetInitializer | ResNet.py:673-684 | no initializer iff a checkpoint exists; the archived value under the name and index iff there is none and the archive holds the name; the default otherwise |
| ResNets.UnitPlan | ResNet.py:800-822 | the unit carries the name, input channels and subsample flag it is given, and all its strides are positive |
| ResNets.UnitBranchesAgree | ResNet.py:800-822 | the shortcut and the main branch always produce the same shape, ceil(side / stride) by 4 * out channels, so their sum is well-formed |
| ResNets.ProjectionNeeded | ResNet.py:812-815 | a projection is built iff the unit subsamples or its input is not 4 * out channels wide; input and output differ in shape iff the channels change or a subsampling unit sees a side >= 2, so a subsampling unit on a map of sides <= 1 builds a projection the shapes do not need |
| ResNets.BlockPlan | ResNet.py:824-827 | a block has `num_units` units, all well-formed |
| ResNets.UnitName | ResNet.py:826 | `'%s%c' % (name, ord('a') + k)`: the block name followed by the character with code 97 + k |
| ResNets.BlockLayout | ResNet.py:824-827 | unit k is named block + chr('a' + k), takes the block input only if first and 4 * out channels otherwise, subsamples only if first of a subsampling block, and has a projection only if first and the shape changes |
| ResNets.BlockNamesDistinct | ResNet.py:824-827 | unit names within a block are pairwise distinct |
| ResNets.BlockOut | ResNet.py:824-827 | a block of n >= 1 units outputs 4 * out channels and shrinks each side by its first unit's stride only |
| ResNets.Block | ResNet.py:824-827 | the loop threads the map through `BlockPlan`'s units and returns the shape `BlockOut` states |
| ResNets.Stem | ResNet.py:894-896 | `conv1` (stride 2, 64 channels) then a stride-2 max pool: each side halved twice, rounding up, 64 channels |
| ResNets.StageOut | ResNet.py:898-901 | one `block` call of `build` maps its input as `BlockOut` says |
| ResNets.StageStep | ResNet.py:898-901 | running one block, then the rest, equals running the rest on that block's output |
| ResNets.FourStages | ResNet.py:898-901 | four stages of at least one unit, subsampling in all but the first, give 4 * (last width) channels and halve each side three times |
| ResNets.ResNet50Blocks | ResNet.py:898-901 | blocks 2 to 5 give 2048 channels and halve each side three times |
| ResNets.ResNet50FeatureMap | ResNet.py:894-904 | a 224 x 224 x 3 crop is 56 x 56 x 64 after the stem and 7 x 7 x 2048 after block 5, the size of the final 7 x 7 average pool |
| ResNets.NumCrops | ResNet.py:853-855 | `rebatch` uses 1 crop in TRAIN, `num_test_crops` in TEST, and the TRAIN branch (1) in NONE |
| ResNets.PhaseCrops | ResNet.py:853-855 | after the net assigns a phase, the crop count `case` reads is `num_test_crops` in TEST and 1 otherwise |
| ResNets.GetSize | ResNet.py:86-88 | `get_shape(value)[1:3]`: the dimensions at positions 1 and 2, as far as the shape has them |
| ResNets.RebatchTarget | ResNet.py:857-860 | the reshape target is (rows / crops, crops) + `get_size`, whose first two entries hold at most the rows |
| ResNets.Rebatch | ResNet.py:852-862 | fails on a scalar and on a zero crop count; on success the target is (rows / crops, crops) + dimensions 1-2 of the input and holds exactly as many elements as the input |
| ResNets.RebatchRows | ResNet.py:852-862 | on input of rank 1 to 3 with non-empty rows, the reshape succeeds iff the crop count is positive and divides the rows, and then splits the rows as `SplitLeading` does, which flattening undoes |
| ResNets.RebatchDropsChannels | ResNet.py:86-88 | a non-empty input of rank >= 4 whose dimensions from 3 on hold more than one element always fails: `get_size` drops them, so the element count changes |
| ResNets.RebatchTrain | ResNet.py:852-862 | in TRAIN each row of an input of rank 1 to 3 becomes one image of a single crop |
| ResNets.RebatchUndoesTestFold | ResNet.py:903-912 | in TEST, the b * K rows of features or probabilities the net computes from a folded batch regroup into b images of K crops |
| ResNets.BuildInput | ResNet.py:890-892 | `build` accepts a blob iff it has images and zips to exactly one pair, and takes that pair |
| Shapes.TruncDiv | ResNet.py:1012 | int32 division rounding toward zero: the quotient's multiple lies between 0 and the dividend |
| Shapes.CeilDiv | ResNet.py:1012 | the least count of chunks covering the total |
| Shapes.FlattenLeading | ResNet.py:449-450 | `reshape(value, (-1,) + shape[2:])` merges the two leading axes into one of size `shape[0] * shape[1]`, keeps the trailing axes and keeps the element count |
| Shapes.SplitLeading | ResNet.py:860-861 | splitting rows by k gives `rows / k` first and k second and keeps the other dimensions; `FlattenLeading` undoes it when k divides the rows (`rebatch` on inputs of rank <= 3, where `get_size` keeps every other dimension) |
| Shapes.SplitOfFlatten | ResNet.py:860-861 | splitting a flattened shape by its folded axis recovers it |
| Consuming.DequeueSizeAsWritten | ResNet.py:1012 | for a total >= 1, the least count of chunks covering it; for a total in (1 - chunk, 0], one chunk: that includes 0 when a chunk holds more than one image, and the initial -1 when it holds more than two (both true for the default chunk of 16) |
| Consuming.AsWrittenIsCeiling | ResNet.py:1012 | for a total of at least 1, `(t - 1) / tbs + 1` is ceil(t / tbs) |
| Consuming.ZeroTotalDequeuesOneChunk | ResNet.py:1012 | a total of 0 dequeues one chunk, not ceil(0 / tbs) = 0 |
| Consuming.DequeueSize | ResNet.py:1012 | ceil(total / chunk) for every total >= 0, and the formula as written for every nonzero total |
| Consuming.DequeueCovers | ResNet.py:1012 | the dequeued chunks cover the total, and one chunk fewer would not |
| Consuming.DefaultTotalDequeuesCapacity | ResNet.py:1013 | the unfed default `capacity * tbs` dequeues exactly `capacity` chunks |
| Consuming.Consumer.constructor | ResNet.py:990-997 | keeps the settings; the total variable starts at -1 |
| Consuming.Consumer.Chunk | ResNet.py:1002 | a chunk holds `batch_size / num_test_crops` images, at least one, and its crops fit in a batch |
| Consuming.Consumer.DequeueCount | ResNet.py:1012 | equals the formula as written for every stored total but 0, the least count of chunks covering any total >= 0; at 0 it is the corrected 0, where the formula as written gives 1 for any chunk of more than one image |
| Consuming.Consumer.Assign | ResNet.py:1013-1014 | the assign stores the fed total unchanged; unfed, it stores `capacity * tbs`, which dequeues `capacity` chunks |
| Consuming.Consumer.Kwargs | ResNet.py:1024-1027 | stores the total under the fetch key `consumer_assign`; the next dequeue takes the formula as written for every total but 0, which is ceil(total / tbs) for a positive total; at 0 the corrected count 0 (see Findings) |

## Findings

| source | as written | input that shows it | evidently intended | confidence | as-written member | corrected member |
|---|---|---|---|---|---|---|
| ResNet.py:1012 | `dequeue_size = (total_size - 1) / test_batch_size + 1` on int32 tensors, where TensorFlow 0.x rounds toward zero | a request total of 0: (0 - 1) / 16 rounds to 0, so one chunk is dequeued | ceil(total / test_batch_size) chunks, 0 for an empty request, as the formula gives for every positive total | low, not executed; it depends on the TensorFlow version's integer division, and a caller may never send 0 | Consuming.ZeroTotalDequeuesOneChunk | Consuming.DequeueSize |

`Consuming.Consumer` uses the corrected count. It agrees with the formula as written for
every total other than 0.

## Left out

- TensorFlow numerics: convolutions, batch normalisation, softmax, losses, accuracy, the optimiser and learning-rate decay are floating-point work inside the library. Only output shapes are modelled.
- Queues and threads: `get_queue_enqueue`, `shuffle_batch_join`, `batch_join`, `PaddingFIFOQueue` and the queue runners exist for background threads and blocking. Readers are modelled as the lists they are fed, and `Batch.train`/`Batch.test` as their counters and the crop fold.
- `ImageUtil`, `Preprocess` and `Postprocess`: random resizing, cropping, flipping and colour jitter are random floating-point image work.
- `SimpleProducer` and `QueueProducer`: thin wrappers around a placeholder or a queue.
- `FileProducer.kwargs` returns an empty dict and needs no model.
- `Blob.func` applies its argument to the blob.
- Checkpoints and I/O: `Meta.test`, `np.savetxt`, `os.makedirs`, `scipy.io.loadmat`, saving and restoring, summaries, `Timer` and `DEBUG`. Whether a checkpoint exists and which names the archive holds are inputs to `ResNets.GetInitializer`.
- ResNets.GetInitializer: the archived value is named by key, index and vector flag. The array slicing that reads it (`[index][0][:, 0]`) is not modelled.
- FileProducer: the `identify` subprocess is the predicate `intact`. The `os.remove` of rejected files and the progress printing are side effects outside the model.
- FileProducer.Join: models `os.path.join` for relative names only. The reset on an absolute second component is not modelled.
- Nets.Net.constructor: the `AssertionError` for an empty class list is a precondition, not an error result.
- Nets.Case: the optional `shapes` argument only sets static shapes and is not modelled. An empty pair list raises in Python and is excluded by a precondition.
- Nets.Net: learning rate, learning modes, weight decay, the GPU fraction and the session are not modelled. Only the phase is.
- Nets.Net.Train: `train` also runs `test` every fifth iteration through callbacks of a `Model` class that is not part of this model. Only the assign at its start is modelled.
- ResNets.ConvOut: models SAME padding shapes only. Weight shapes, biases, learning modes and regularisers are not modelled. Its contract states the channel count and the stride-1 case; the ceil(side / stride) of a larger stride is its definition, and `UnitBranchesAgree` and `BlockOut` state the resulting shapes.
- ResNets.UnitName: requires fewer than 159 units per block. Python 2 `%c` accepts only a byte, so 'a' + k must stay below 256.
- Integer width: the counters are int32 in the graph and unbounded integers here. Wrap-around is not modelled.
- Zero divisors: `subsample_size`, `num_test_crops` and the Consumer chunk size are required to be positive. A zero divisor raises in Python or fails in the graph.
- Consuming.Consumer.DequeueCount: uses the corrected count of the Findings row, so at a stored total of 0 it gives 0 chunks where the graph as written dequeues 1 (for any chunk of more than one image, such as the default 16); at every other total it equals the formula as written.
- Consuming.Consumer.Kwargs: after feeding a total of 0 the model promises 0 chunks, not the 1 the graph as written dequeues when a chunk holds more than one image, for the same reason.
- Consuming.Consumer.constructor: requires `batch_size >= num_test_crops`, because a zero chunk size makes the graph divide by zero.
- Batching.Batch: the `AttributeError` raised when `kwargs` runs before `train`/`test` has built the counters is not modelled. Both counters exist from construction.
- Within one step the counter is read before it is assigned, because the value assigned (`next_total_size`, when unfed) is computed from `dec_batch_size`, which comes from the same `tf.cond` read that gives the batch size (ResNet.py:411-422). The `control_inputs` of `tf.tuple` in `Batch.train`/`Batch.test` only make every dequeue also run the assign. `Batching.SizeCounter.Step` models this as one read followed by one assign.
- `views.py`, `main_online.py`, `main_train.py` and the Django glue are request handling and scripts outside the core.
