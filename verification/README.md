# Reaction-condition trainer: a Dafny model of its data pipeline

This project models the discrete core of `NnModels/TrainModel.py`, the script
that trains classifiers predicting the catalyst, solvent or reagents of a
chemical reaction from Morgan fingerprints. Around the foreign libraries
(RDKit, PyTorch, pandas, joblib) the script makes decisions of its own, and
those are what is modelled and proved:

- **Fingerprint extractor** (`fingerprints.dfy`): `get_rxnfp` builds the
  reactant, product and difference vectors, or the "none" triple when either
  molecule fails; `get_conditionfp` falls back to 512 zeros. The Morgan
  fingerprint itself is an oracle `string -> Option<Fp>`, where `Fp` is a
  512-long 0/1 sequence.
- **Template one-hot encoder** (`one_hot.dfy`): `get_one_hot_tem`, built row
  by row in an array.
- **Input recipe and layout** (`layout.dfy`): the recipe is kept as a string.
  The source tests it with Python's `in`, which is substring containment
  (`Contains`). The string's tests become flags. An input vector is the
  reactant and product fingerprints followed by diff, cat, solv, reag0 and
  reag1 when selected. This order is fixed.
- **Feature assembler** (`assembly.dfy`): the body of `get_train_data`. It
  dispatches on the target, maps the fingerprints over the table, filters the
  records, concatenates their fingerprints, finds each label's index and
  tracks the largest template.
- **Evaluator** (`evaluation.dfy`): the `correct`/`total` counters of
  `test_model`, `topk_acc`, `test_model_withT` and `topk_acc_withT`. The
  network's output is reduced to the argmax or the top-k index list of each
  example.
- **Training loop** (`training.dfy`): the running-loss counter, which is
  logged and reset every 900 steps, and the bounded validation pass after
  each epoch. The losses are abstract integers.

Files are inputs here: the table rows and the header rows of the vocabulary
files are passed in as values. The vocabulary (`target_list`) is the keys of
a `csv.DictReader` row: the header's names, each once, in order of first
occurrence (`DistinctKeys`). `GetTrainData` maps the fingerprint oracle
over the table itself, in an order-preserving comprehension that stands for
the parallel map. The record loop `AssembleRecords` receives those
per-record maps as values. Accuracy is kept as the
`(correct, total)` pair. A division by zero is the error `ZeroDivision`.

Two behaviours of the code that the model follows:
- The returned template-space size is `max(0, largest kept template) + 1`.
  The maximum is taken over the kept records only, and starts from 0.
- When no record is kept, the run raises. Line 119 indexes `t_data['input']`
  on an empty frame, which raises `KeyError`. The model returns
  `Err(NoExamples)`.

## Model

| member | source | states |
|---|---|---|
| `Fingerprints.GetRxnFp` | NnModels/TrainModel.py:28-43 | The result exists iff both molecules fingerprint. Then it holds the two fingerprints, and the diff is product minus reactant at each of the 512 positions. |
| `Fingerprints.DiffRecoversProduct` | NnModels/TrainModel.py:37-40 | Reactant plus diff gives the product back, and every diff entry is -1, 0 or 1. |
| `Fingerprints.GetConditionFp` | NnModels/TrainModel.py:45-56 | Never fails. The result is the molecule's fingerprint, or 512 zeros when fingerprinting fails. |
| `Fingerprints.FailurePoliciesDiffer` | NnModels/TrainModel.py:41-56 | A molecule that fails sinks every reaction it appears in, on either side. As a condition it reads as the zero vector. |
| `OneHot.GetOneHotTem` | NnModels/TrainModel.py:19-26 | Returns one row per id. Each row has length `teml`, with 1 at the id and 0 elsewhere. |
| `OneHot.OneHotDecodes` | NnModels/TrainModel.py:22-23 | A one-hot row holds exactly one 1, and its first 1 is at the id. The encoding is lossless. |
| `Layout.ParseRecipe` | NnModels/TrainModel.py:87-111 | Each of the five recipe flags (rxnfp, cat, solv, reag0, reag1) holds exactly when that name occurs somewhere in the recipe string. |
| `Layout.ContainsIffOccurs` | NnModels/TrainModel.py:87-111 | The recipe test `pat in inputs` holds exactly when `pat` occurs at some offset of the string. |
| `Layout.Blocks` | NnModels/TrainModel.py:101-111 | The input has 2 + (number of selected optional components) blocks of 512 entries each. |
| `Layout.BlockAtSlot` | NnModels/TrainModel.py:101-111 | Each selected component is the block at its slot in the fixed order reactant, product, diff, cat, solv, reag0, reag1. |
| `Layout.FlattenBlock` | NnModels/TrainModel.py:101-111 | In a concatenation of 512-long blocks, block k occupies entries 512k to 512(k+1). |
| `Layout.InputLayout` | NnModels/TrainModel.py:101-111 | The input length is 1024 + 512 × (number of selected optional components). Each selected component fills the 512 entries of its slot. |
| `Layout.SelectedPartsDecide` | NnModels/TrainModel.py:87-111 | Condition columns the recipe does not select (and the source never computes) do not affect the input. |
| `Layout.ConcatInput` | NnModels/TrainModel.py:101-111 | The step-by-step concatenation equals the fixed-order block layout. |
| `Layout.RecipeOrderIrrelevant` | NnModels/TrainModel.py:101-111 | Recipe strings containing the same component names, in any order, give identical inputs. |
| `Assembly.ParseTarget` | NnModels/TrainModel.py:69-80 | Accepts exactly the six target names and returns the target with that name. Any other string fails (`KeyError`). |
| `Assembly.ParseTargetRoundTrip` | NnModels/TrainModel.py:69-80 | Every target's name parses back to that target. |
| `Assembly.DistinctKeys` | NnModels/TrainModel.py:71-73 | `target_list` holds exactly the header's names, each once, and is no longer than the header. |
| `Assembly.DistinctKeysOrder` | NnModels/TrainModel.py:71-73 | The names of `target_list` appear in order of their first occurrence in the header. |
| `Assembly.VocabularyFor` | NnModels/TrainModel.py:69-78 | Cat and solv each read their own vocabulary file. The four reagent targets reag0 to reag3 all read the shared reagent file. Each gives the distinct keys of its header. |
| `Assembly.Keeps` | NnModels/TrainModel.py:97-100 | A record is kept exactly when its label is in the vocabulary and the oracle fingerprints both its reactants and its products. |
| `Assembly.IndexOf` | NnModels/TrainModel.py:115 | `list.index` returns a position below the vocabulary size that holds the label, and the label occurs at no earlier position. |
| `Assembly.ExampleOf` | NnModels/TrainModel.py:101-116 | A kept record's label index points to its label in the vocabulary. Its template is unchanged, and its input has the recipe's width. |
| `Assembly.KeptIndicesExact` | NnModels/TrainModel.py:95-100 | The kept positions are in range and strictly increasing. A position is kept iff the label is in the vocabulary and the reaction fingerprint exists. |
| `Assembly.AssembledFromKept` | NnModels/TrainModel.py:95-116 | Example k of the dataset comes from the k-th kept record. So no passing record is dropped, and table order is kept. |
| `Assembly.AssembledWellFormed` | NnModels/TrainModel.py:95-116 | Every example has a label index below the vocabulary size and an input of the recipe's width. |
| `Assembly.AssembledConcat` | NnModels/TrainModel.py:95-116 | Assembling two parts of a table and joining the results equals assembling the whole table. |
| `Assembly.ExcludedRecordCostsOne` | NnModels/TrainModel.py:97-98 | Replacing a kept record by one whose label is outside the vocabulary shrinks the dataset by exactly one. |
| `Assembly.MaxTemplate` | NnModels/TrainModel.py:112-114 | The final `max_tem` is at least 0 and at least every kept template. It is 0 or equals some kept template. |
| `Assembly.AssembleRecords` | NnModels/TrainModel.py:95-116 | The record loop produces exactly the filtered, ordered dataset and its `max_tem`. |
| `Assembly.GetTrainData` | NnModels/TrainModel.py:59-120 | An unknown target fails before any work, and an empty dataset fails. Otherwise the result is the dataset, the vocabulary size and `max_tem + 1`. |
| `Evaluation.HitsUpTo` | NnModels/TrainModel.py:158 | A batch never contributes more correct examples than it has examples. |
| `Evaluation.Correct` | NnModels/TrainModel.py:150-158 | The summed `correct` never exceeds the summed `total`. |
| `Evaluation.Visited` | NnModels/TrainModel.py:153-160 | A pass visits a prefix of the batches: all of them with `use_all`, else at most the first 101. |
| `Evaluation.Ratio` | NnModels/TrainModel.py:161 | The accuracy fails exactly when `total` is 0. |
| `Evaluation.TestModel` | NnModels/TrainModel.py:146-161 | Top-1 counts over the visited batches (stopping after step 100 unless `use_all`), with `correct <= total`. An empty pass fails. |
| `Evaluation.TopKAcc` | NnModels/TrainModel.py:163-178 | Counts every example whose label is among its k predictions, over all batches, with `correct <= total`. |
| `Evaluation.TestModelWithT` | NnModels/TrainModel.py:205-221 | As `TestModel`, after one-hot encoding each batch's templates, which must be below `teml`. |
| `Evaluation.TopKAccWithT` | NnModels/TrainModel.py:223-239 | As `TopKAcc`, after one-hot encoding each batch's templates. |
| `Evaluation.CorrectMonotone` | NnModels/TrainModel.py:157-177 | If one pass counts every example another counts, both have the same total, and it has at least as many correct. |
| `Evaluation.TopKMonotone` | NnModels/TrainModel.py:173-177 | When the top-3 lists are prefixes of the top-10 lists, top-10 counts at least as many as top-3. |
| `Evaluation.Top1AtMostTopK` | NnModels/TrainModel.py:156-177 | When each argmax heads its top-k list, top-1 counts no more than top-k. |
| `Training.RunEpoch` | NnModels/TrainModel.py:127-139 | One epoch logs one line per completed 900-step window, with that window's loss sum. It ends holding the sum of the fewer than 900 steps since the last reset. |
| `Training.EpochLogsMeaning` | NnModels/TrainModel.py:136-139 | An epoch of n steps logs n / 900 lines. Each falls on a step that is a multiple of 900 and covers exactly the preceding 900 steps. |
| `Training.Validate` | NnModels/TrainModel.py:140 | The bounded pass after an epoch fails exactly when its first 101 batches hold no example. Otherwise `0 < total` and `correct <= total`. |
| `Training.TrainModel` | NnModels/TrainModel.py:122-140 | Training gives all epochs' log lines and the bounded-validation accuracies. If a pass raises, it gives the error together with everything printed before it. |
| `Training.TrainedAborted` | NnModels/TrainModel.py:127-140 | An aborted run has printed every log line up to and including the failing epoch, and the accuracies of the completed epochs before it. The error is that epoch's pass's error. |
| `Training.TrainedErrSticks` | NnModels/TrainModel.py:140 | Once an epoch's validation raises, the run ends there: its result is that epoch's error with what had been printed by then. |
| `Training.TrainedFailsIffEmptyPass` | NnModels/TrainModel.py:127-140 | A run fails exactly when some epoch's bounded validation pass sees no example. |
| `Training.TrainedAccuracies` | NnModels/TrainModel.py:127-140 | A completed run has one accuracy per epoch, from that epoch's bounded pass, with `0 < total` and `correct <= total`. |
| `Training.TrainedLogs` | NnModels/TrainModel.py:127-139 | Every logged line closes a window of exactly 900 steps of its epoch and carries that window's loss sum. |
| `Training.RunEpochWithT` | NnModels/TrainModel.py:186-198 | As `RunEpoch`, with each step's templates one-hot encoded first. |
| `Training.TrainModelWithT` | NnModels/TrainModel.py:181-199 | As `TrainModel`, with templates encoded at each training step and validation batch. An aborted run also keeps what was printed. |

## Left out

- The Morgan fingerprint algorithm is not modelled. RDKit's `MolFromSmiles` and `GetMorganFingerprintAsBitVect` are a foreign library; they are an oracle giving a 512-long 0/1 vector or failure. A missing (NaN) table cell counts as a string the oracle fails on.
- The neural network is not modelled: its forward and backward passes, `CrossEntropyLoss`, the Adam optimiser and the float32 tensors. This is floating point in a foreign library. Batches carry each example's argmax or top-k list, training steps carry an integer loss, and the tie-breaking of `torch.max`/`torch.topk` is not modelled.
- `Training.RunEpoch`: the logged value is the 900-step loss sum. The source prints that sum divided by 900, as a float.
- Accuracies are not ratios. `correct / total` is floating point, so each is the `(correct, total)` pair.
- The model does not read files. The pandas table, the vocabulary CSV files and the with/without-nitrogen file names are I/O, so records and vocabularies are inputs. A vocabulary file with a header but no data row leaves `target_list` unbound in the source; that error is not modelled. Nor is the extra `None` key that `csv.DictReader` adds when the last data row has more fields than the header: it is a malformed reference file.
- joblib's `Parallel` runs in sequence here. It is concurrency plumbing, and the model keeps its result order.
- `train_test_split`, `DataLoader` shuffling and batching are left out. They are random and owned by libraries; batches arrive as given sequences.
- The top-level `train` function (lines 241-289) is not modelled: it is wiring and dispatch on model classes that are not part of this model. So are `torch.save`, `to_csv` and `print`, which are output side effects.
- `OneHot.GetOneHotTem`: requires `0 <= id < teml`. With a negative id down to `-teml`, Python writes the 1 from the end of the row, and a larger id raises `IndexError`. Neither is modelled, because templates are non-negative ids and the size returned by the assembler bounds them.
- `Evaluation.TestModelWithT`, `Evaluation.TopKAccWithT`, `Training.RunEpochWithT`: the encoded template rows feed the abstract network only. The calls check that the encoding is defined, but the rows do not otherwise influence the counts.
- `Evaluation.TestModel`, `Evaluation.TopKAcc`: the non-template versions only print their ratio and return `None`. The model returns the printed pair.
- `Evaluation.TopKAcc`: `torch.topk` raising when k exceeds the number of classes is not modelled. The k-lists are given.
- Mismatched tensor shapes within a batch are not modelled. Such batches cannot arise from one loader, so every batch must hold one prediction per label.
