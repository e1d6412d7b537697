# CUSTOM dataset adapter, modelled in Dafny

This project models the `CUSTOM` dataset class of CornerNet-Lite-custom
(`core/dbs/custom.py`). That class is a COCO-layout detection dataset with a single
class ("insects"), an optional fourth (alpha) input channel and several stacked
frames per sample. The model covers the following:

- **Construction.** The normalisation statistics are padded to the channel count and
  the eigenvector matrix is extended for the alpha channel (`NormStats`). The four
  class dictionaries are built by comprehension (`ClassMap`). The split block picks the
  data directory and the annotation file, then indexes the annotations (`CustomDb`).
- **Annotation indexing.** `_load_coco_annos` becomes three nested loops: over the
  images (`IndexAnnotations`), over the categories (`CollectImageDets`) and over one
  category's annotations (`AppendCornerRows`). They turn every annotation box into a
  corner-form row with an internal class id, grouped by category, and record every
  image's COCO id under its file name (`Annotations`).
- **Queries.** `image_path` and `detections` index the image list with Python's
  negative indexing and raise IndexError out of range. `cls2name` is two dictionary
  lookups and raises KeyError for an unknown class id.
- **Export of predictions.** `convert_to_coco` rewrites every caller box in place to
  width/height form and emits one record per box (`CocoExport`, `CustomDb.Custom.ConvertToCoco`).
- **Evaluation filters.** `evaluate` resolves the image and category filters, in order,
  and cuts the summary into `(stats[0], stats[12:])`.

The dataset object is the class `CustomDb.Custom`:

- Its fields are those of the Python object.
- The statistics and class maps, which never change after construction, are `const`.
- The split, paths, annotation source and indexed stores are `var`s that
  `LoadSplit` assigns.
- `Valid()` is the object invariant. It says:
  - an unloaded dataset has no paths, no source and no images;
  - a loaded one has a known split;
  - the image list holds every stored file name exactly once;
  - the positional index is the identity.

Python's `__init__` is split in two. The constructor computes the statistics and
class maps, which cannot fail. `LoadSplit` is the `if split is not None` block, which
can raise KeyError. `CustomDb.Create` composes the two.

Python dictionaries are Dafny maps. A comprehension is `Py.FromPairs`: a later pair
overwrites an earlier one. Where iteration order matters, insertion order is modelled
explicitly: `Py.KeyOrder` and `Py.Items` for `.items()`, and `AnnoIndex.order` for
`list(detections.keys())`. Exceptions are the `Failure` side of `Wrappers.Result`.

Facts of the code that a reader might not expect:

- **Padding.** Each extra entry of `_mean`, `_std` and `_eig_val` repeats that vector's
  element 0; the three per-channel constants are not cycled. For one frame of three
  channels nothing is appended. For two frames of three channels the vectors are
  `[m0, m1, m2, m0, m0, m0]`.
- **The eigenvalue fill.** `_eig_val` is padded with `0.2141788`, its own first entry.
- **No configuration check.** Nothing is raised for a `multi_frame` below 1, which
  leaves the vectors at length 3, nor for class lists of different lengths, whose
  extra entries are dropped by `zip`.
- **`_name2coco`.** The dictionary is built, as written, keyed by COCO id: a copy of
  `_coco2name` (see "## Findings").

## Model

| member | source | states |
|---|---|---|
| NormStats.PadCount | core/dbs/custom.py:25 | the padding loop runs `multi_frame * c - 3` times, `c` being 4 with an alpha channel and 3 without; for one or more frames this makes the length `multi_frame * c`, and for fewer it appends nothing |
| NormStats.PadStatistics | core/dbs/custom.py:16-28 | mean, std and eigenvalues each start with their three constants and are padded to `3 + PadCount` entries, every added entry equal to the vector's first entry |
| NormStats.PaddedLength | core/dbs/custom.py:25-28 | for `multi_frame >= 1` a padded vector has exactly one entry per input channel of every frame, and every entry from index 3 on is the first constant |
| NormStats.AlphaEigVec | core/dbs/custom.py:19-32 | with an alpha channel the eigenvector matrix is 4x4: the 3x3 block is unchanged, the new column is the old third row, the new row is the old third row followed by its last entry |
| NormStats.ChannelsPerFrame | core/dbs/custom.py:25 | a frame has three channels, or four exactly when there is an alpha channel |
| NormStats.AppendColumn | core/dbs/custom.py:31 | every row of the matrix keeps its entries and gains the column's entry for that row at its end; the row count is unchanged |
| NormStats.AppendRow | core/dbs/custom.py:32 | the matrix keeps its rows and gains the given row as its new last row |
| CustomDb.Custom.constructor | core/dbs/custom.py:11-47 | a new dataset holds the padded statistics, the eigenvector matrix for its channel mode, the configured class lists and the four class maps as the code builds them (`_name2coco` keyed by COCO id, equal to `_coco2name`), and is unloaded and valid |
| CustomDb.EigVecFor | core/dbs/custom.py:19-32 | without an alpha channel the eigenvector matrix is the 3x3 constant; with one it is the 4x4 extension described for `NormStats.AlphaEigVec` |
| ClassMap.Cls2Coco | core/dbs/custom.py:41 | `_cls2coco`, built from the enumeration of the COCO ids; its keys and values are stated by `ClassMap.Cls2CocoAt` |
| ClassMap.Coco2Cls | core/dbs/custom.py:42 | `_coco2cls`, built from `_cls2coco.items()` with each pair swapped; stated by `ClassMap.Coco2ClsIsSwap` and the two round-trip lemmas |
| ClassMap.Coco2Name | core/dbs/custom.py:43 | `_coco2name`, built from `zip` of the id and name lists; stated by `ClassMap.Coco2NameAt` and `ClassMap.Coco2NameInjective` |
| ClassMap.Name2CocoAsWritten | core/dbs/custom.py:44 | `_name2coco` as the code builds it: the pairs of `_coco2name.items()` unpacked in their own order, so keyed by COCO id; stated by `ClassMap.Name2CocoAsWrittenIsCopy` |
| ClassMap.Name2Coco | core/dbs/custom.py:44 | the dictionary the name `_name2coco` promises: `_coco2name.items()` with each pair swapped, from name to COCO id; stated by `ClassMap.Name2CocoInverse` |
| Py.Enumerate1 | core/dbs/custom.py:41 | `enumerate` shifted to internal ids: position `i` pairs `i + 1` with the `i`-th COCO id |
| Py.Zip | core/dbs/custom.py:43 | `zip` pairs the two lists position by position and stops at the shorter one |
| ClassMap.EnumerateKeysDistinct | core/dbs/custom.py:41 | the internal ids of the enumeration are pairwise distinct |
| ClassMap.Cls2CocoAt | core/dbs/custom.py:41 | `_cls2coco` has exactly the keys `1..K`, and key `c` maps to the `c`-th COCO id |
| ClassMap.Coco2ClsIsSwap | core/dbs/custom.py:41-42 | `_coco2cls` is the enumeration with each pair swapped, built in order, so a later class wins a shared COCO id |
| ClassMap.Coco2ClsThenCls2Coco | core/dbs/custom.py:41-42 | going from a COCO id to its internal id and back gives the COCO id, even when COCO ids repeat |
| ClassMap.Cls2CocoThenCoco2Cls | core/dbs/custom.py:41-42 | with distinct COCO ids, `_coco2cls[_cls2coco[c]] == c` for every internal id `c` in `1..K` |
| ClassMap.Coco2NameAt | core/dbs/custom.py:43 | with distinct COCO ids, the `c`-th COCO id is named by the `c`-th name, for `c` up to the shorter list |
| ClassMap.Coco2NameInjective | core/dbs/custom.py:43 | with distinct names, no two COCO ids share a name |
| ClassMap.Name2CocoInverse | core/dbs/custom.py:43-44 | for the swapped dictionary and distinct names, `name2coco[_coco2name[k]] == k` for every COCO id `k` that has a name |
| ClassMap.Name2CocoAsWrittenIsCopy | core/dbs/custom.py:43-44 | for any id and name lists, `_name2coco` as written is equal to `_coco2name`: same keys (COCO ids), same names |
| ClassMap.Name2CocoAsWrittenMissesNames | core/dbs/custom.py:33-44 | for the configured lists, `_coco2name[1]` is `"insects"` but the only key of `_name2coco` is `1`, so `_name2coco["insects"]` raises KeyError; the swapped dictionary maps `"insects"` to `1` |
| ClassMap.ConfiguredClasses | core/dbs/custom.py:33-44 | for the configured lists (`[1]`, `["insects"]`) the maps are `_cls2coco == {1: 1}`, `_coco2cls == {1: 1}`, `_coco2name == {1: "insects"}`, `_name2coco == {1: "insects"}` as written, and `{"insects": 1}` when swapped |
| ClassMap.NameOf | core/dbs/custom.py:114-116 | the lookup succeeds exactly when the class has a COCO id and that id has a name, and then gives the name of that COCO id; otherwise KeyError |
| ClassMap.NameOfAt | core/dbs/custom.py:114-116 | for any lists with distinct COCO ids, `cls2name(c)` is the `c`-th name for every `c` up to the shorter list |
| CustomDb.Custom.Cls2Name | core/dbs/custom.py:114-116 | `cls2name(c)` succeeds exactly for `c` in `1..K`, gives the `c`-th configured name, and raises KeyError otherwise |
| CustomDb.Custom.Name2CocoAsBuilt | core/dbs/custom.py:41-44 | on a dataset object, `_name2coco` equals `_coco2name`: it maps a class's COCO id to the class's name, and every key is a COCO id |
| Py.FromPairs | core/dbs/custom.py:41-44 | a dictionary built by comprehension has exactly the keys of its pairs |
| Py.FromPairsAt | core/dbs/custom.py:41-44 | a key holds the value of its pair when no later pair reuses the key |
| Py.FromPairsOrigin | core/dbs/custom.py:41-44 | every entry of the built dictionary comes from a pair with that key and value |
| Py.KeyOrder | core/dbs/custom.py:42 | the iteration order of a built dictionary lists every key once, and only keys that occur |
| Py.KeyOrderOfDistinct | core/dbs/custom.py:42 | for distinct keys the iteration order is the order of the pairs |
| Py.FromPairsOfItems | core/dbs/custom.py:42-44 | rebuilding a dictionary from its own `.items()` without reordering the pairs gives the same dictionary |
| Py.Items | core/dbs/custom.py:42 | `.items()` yields every key once, with the value the dictionary holds for it |
| Py.ItemsOfDistinct | core/dbs/custom.py:42 | for distinct keys `.items()` gives back the pairs the dictionary was built from, in order |
| CustomDb.DirName | core/dbs/custom.py:50-52 | the dataset directory is the configured name, or `yolo_normal` when none is configured |
| Py.Join | core/dbs/custom.py:53 | `os.path.join` on two POSIX paths; its properties are stated by `Py.JoinParts` |
| Py.JoinParts | core/dbs/custom.py:53 | an absolute name replaces the directory; otherwise the result starts with the directory and ends with the name, with one `/` between them unless the directory is empty or already ends in `/` |
| Py.JoinAfter | core/dbs/custom.py:61-62 | joining a relative name onto a path that ends in a directory name gives a path ending in that directory name, `/`, and the name |
| CustomDb.DataDir | core/dbs/custom.py:53-61 | `os.path.join(data_dir, dir_name, "images", split)`; stated by `CustomDb.DataDirEnds` |
| CustomDb.DataDirEnds | core/dbs/custom.py:53-61 | the data directory ends in `images/<split>` for a relative split, and is the split itself for an absolute one |
| CustomDb.AnnoFile | core/dbs/custom.py:53-62 | `os.path.join(data_dir, dir_name, "annotations", "instances_<split>.json")`; stated by `CustomDb.AnnoFileEnds` |
| CustomDb.AnnoFileEnds | core/dbs/custom.py:53-62 | the annotation file ends in `annotations/instances_<split>.json` |
| CustomDb.Custom.LoadSplit | core/dbs/custom.py:49-66 | an unknown split raises KeyError and changes nothing; a known split sets the split, the data directory, the annotation file and the source; loading succeeds exactly when indexing does; on success the stores are the index, the image list is its insertion order and the positional index is `0..n-1`; validity is kept |
| CustomDb.Create | core/dbs/custom.py:11-66 | the result is fresh and valid, holds the padded mean, std and eigenvalues, the eigenvector matrix, the channel mode and frame count and the configured class maps; without a split the dataset is unloaded; with a split, construction succeeds exactly when the split is known and indexing succeeds, otherwise KeyError; a loaded result holds the split, data directory, annotation file, source, both stores, the image list in insertion order and the positional index `0..n-1` |
| Annotations.ImageDets | core/dbs/custom.py:84-92 | the rows of one image: each category's rows in turn, in category order; stated by `Annotations.ImageDetsAppend`, `Annotations.ImageDetsMembers` and `Annotations.ImageDetsCount` |
| Annotations.Index | core/dbs/custom.py:68-99 | `_load_coco_annos`: KeyError when there is an image and a category without an internal id, otherwise the index of every image; stated by `Annotations.IndexKeys`, `Annotations.IndexLastWins`, `Annotations.IndexOrder` and `Annotations.IndexDistinctNames` |
| Annotations.Corner | core/dbs/custom.py:89-91 | a row keeps the top-left corner and the class; its far corner is the top-left corner plus width and height |
| Annotations.CornerRows | core/dbs/custom.py:88-92 | one row per annotation box, in annotation order, each the corner form of its box |
| Annotations.AnnsOf | core/dbs/custom.py:85-86 | the boxes of one (image, category) pair; a pair the annotation file has no annotations for yields none |
| Annotations.AppendCornerRows | core/dbs/custom.py:88-92 | the annotation loop appends the corner rows of one category's boxes, in annotation order, to the rows collected so far |
| Annotations.IndexImages | core/dbs/custom.py:79-98 | after any number of images, both dictionaries have the same keys and the key order lists each stored file name once |
| Annotations.CollectImageDets | core/dbs/custom.py:84-92 | the category loop succeeds exactly when every category has an internal id, otherwise KeyError; its rows are the image's rows over the category list |
| Annotations.IndexAnnotations | core/dbs/custom.py:79-99 | the image loop returns the index, or KeyError when a category is unknown and there is at least one image |
| Annotations.IndexKeys | core/dbs/custom.py:79-83 | a file name has an entry in `eval_ids` exactly when some indexed image carries it |
| Annotations.IndexLastWins | core/dbs/custom.py:79-98 | a file name's entries come from the last image with that name: its COCO id and the rows of its annotations |
| Annotations.IndexOrder | core/dbs/custom.py:79-98 | the image list `list(detections.keys())` is the file names in load order, each kept at its first occurrence, as dictionary insertion order gives |
| Annotations.IndexOrderOfDistinct | core/dbs/custom.py:79-98 | with distinct file names, the image list is exactly the file names in load order |
| Annotations.IndexDistinctNames | core/dbs/custom.py:79-98 | with distinct file names indexing succeeds, and every image has its own COCO id and rows |
| Annotations.ImageDetsCount | core/dbs/custom.py:84-92 | an image has as many rows as matching annotations |
| Annotations.NoAnnotationsNoRows | core/dbs/custom.py:95-98 | an image has no rows (an empty 5-column array, not a missing entry) exactly when no category has an annotation on it |
| Annotations.ImageDetsAppend | core/dbs/custom.py:84-92 | rows are grouped by category in category-list order: the rows over `cats1 + cats2` are those over `cats1` followed by those over `cats2` |
| Annotations.ImageDetsMembers | core/dbs/custom.py:84-92 | a row is stored for an image exactly when it is the corner form of one of its annotations, with the internal id of that annotation's category |
| Annotations.OneBoxScenario | core/dbs/custom.py:79-98 | one image with one box (10, 20, 30, 40) of category 1 is indexed as the row (10, 20, 40, 60, 1) with its COCO id |
| Py.Range | core/dbs/custom.py:66 | `numpy.arange(n)` holds `0..n-1` in order |
| Py.At | core/dbs/custom.py:105-106 | indexing succeeds exactly for `-n <= i < n`, a negative index counting from the end, and raises IndexError otherwise |
| CustomDb.Custom.FileNameAt | core/dbs/custom.py:105-106 | `_image_ids[_db_inds[ind]]` succeeds exactly for `-n <= ind < n`, gives the image at that position, which has entries in both stores, and raises IndexError otherwise |
| CustomDb.Custom.ImagePath | core/dbs/custom.py:101-107 | ValueError without a data directory; otherwise the data directory joined with the file name at the position, or IndexError out of range |
| CustomDb.Custom.DetectionsAt | core/dbs/custom.py:109-111 | the stored rows of the image at the position, or IndexError out of range |
| CustomDb.Custom.Detections | core/dbs/custom.py:109-112 | the result is a fresh array holding the stored rows, so changing it leaves the store unchanged; errors as for the position |
| CocoExport.ToWidthHeight | core/dbs/custom.py:128-129 | a rewritten box keeps every value except columns 2 and 3, which become `x2 - x1` and `y2 - y1` |
| CocoExport.ToRecord | core/dbs/custom.py:131-139 | the record of one box: image id, category id, the rounded first four values of the rewritten box, and the rounded score; stated by `CocoExport.ConvertBox` and `CocoExport.CornerThenExport` |
| CocoExport.Records | core/dbs/custom.py:121-142 | the whole export: images in order, classes in order within an image, boxes in row order; stated by `CocoExport.RecordCount` and `CustomDb.Custom.ConvertToCoco` |
| CocoExport.ImageRecords | core/dbs/custom.py:125-141 | the records of one image: each class's records in turn, in class order, all with the image's COCO id; stated by `CocoExport.ImageRecordsOrigin` and `CocoExport.ImageRecordsHas` |
| CocoExport.ImageRecordsOrigin | core/dbs/custom.py:125-141 | every record of one image is the record of some box of some class, with that class's COCO category id |
| CocoExport.ImageRecordsHas | core/dbs/custom.py:125-141 | every box of every class of one image has its record among the image's records |
| CocoExport.RecordsOrigin | core/dbs/custom.py:121-142 | every exported record is the record of some input box, with its image's COCO id and its class's COCO category id |
| CocoExport.RecordsHas | core/dbs/custom.py:121-142 | every input box has its record in the export |
| CocoExport.RecordsMembers | core/dbs/custom.py:121-142 | a record is in the export exactly when it is the record of some input box, with the COCO ids of its image and its class |
| CocoExport.ClassRecords | core/dbs/custom.py:127-141 | one record per box of a class, in row order, each built from that box |
| CocoExport.ConvertBox | core/dbs/custom.py:128-141 | one box is rewritten in place (columns 2 and 3 only) and its record carries the image id, the category id, the rounded width/height box and the rounded score |
| CocoExport.ConvertBoxes | core/dbs/custom.py:127-141 | every box of the array is rewritten to width/height form, nothing else changes, and the records are one per box in row order |
| CocoExport.FirstUnknownClass | core/dbs/custom.py:125-126 | the position of the first class whose id has no COCO id, or the number of classes when every id has one |
| CocoExport.PartlyConverted | core/dbs/custom.py:123-141 | the classes of an image after a class loop that stopped at position `k`: the first `k` rewritten to width/height form, the rest as they were, class ids kept |
| CocoExport.ConvertClassAt | core/dbs/custom.py:126-141 | one turn of the class loop: the class's array is rewritten to width/height form, its records are one per box in row order, and every other class's array is unchanged |
| CocoExport.ConvertImage | core/dbs/custom.py:125-141 | the class loop succeeds exactly when every class id has a COCO id, otherwise KeyError; on success each class's array is rewritten and the records follow the classes in order; on KeyError the classes before the first unknown one are rewritten and the others are unchanged |
| CocoExport.ConvertImageAt | core/dbs/custom.py:123-141 | one turn of the image loop: succeeds exactly when the image name has a COCO id and every class id has one, otherwise KeyError; the image's records and rewritten arrays are those of the class loop; on KeyError the image's classes are unchanged when its name is unknown, and otherwise equal `PartlyConverted` up to the first unknown class; the arrays of every other image are unchanged |
| CustomDb.Custom.ConvertToCoco | core/dbs/custom.py:121-142 | succeeds exactly when every image name is in `_eval_ids` and every class id in `_cls2coco`, otherwise KeyError; the records are, in order, one per input box with the image's COCO id and the class's COCO id; every caller array ends in width/height form |
| CocoExport.ImageRecordCount | core/dbs/custom.py:125-141 | the records of one image are as many as its boxes |
| CocoExport.RecordCount | core/dbs/custom.py:121-142 | the export emits exactly one record per input box |
| CocoExport.CornerThenExport | core/dbs/custom.py:128-138 | exporting, without rounding, a ground-truth row built from an annotation box gives back that box with its width and height |
| Py.LookupAll | core/dbs/custom.py:152-153 | a list comprehension of lookups succeeds exactly when every key is present, keeps the order, and raises KeyError otherwise |
| CustomDb.Summary | core/dbs/custom.py:165 | `(stats[0], stats[12:])`: the first number and every number from the thirteenth on; IndexError for an empty summary |
| CustomDb.Custom.Evaluate | core/dbs/custom.py:144-165 | `testdev` gives None; without an annotation source the attribute is missing; KeyError exactly when an image name or a class id does not resolve; otherwise the result is `(stats[0], stats[12:])` of the summary of the resolved filters, or IndexError when that summary is empty |
| CustomDb.Custom.EvaluateIndexed | core/dbs/custom.py:147-153 | on a loaded dataset the `testdev` exit never fires and, for indexed images and configured classes, no KeyError is raised; the category filter is the class list and the image filter holds each image's COCO id in order |

## Left out

- The pycocotools calls are not modelled. This covers parsing the annotation file
  (`COCO(...)`, `getCatIds`, `getImgIds`, `loadImgs`, `getAnnIds`, `loadAnns`). The
  loaded handle is the value `CocoSource`: images, category ids and boxes per
  (image, category).
- COCOeval is not modelled: `loadRes`, `evaluate`, `accumulate` and `summarize`.
  `CustomDb.Custom.Evaluate` takes the summary as a function `summarize(imageIds, categoryIds)`.
- `result_json` is not modelled, either as a file name or as a loaded result set,
  because it only feeds COCOeval.
- `_to_float` is a function parameter `round`, not modelled. Its two-decimal rounding
  goes through string formatting and is float behaviour.
- float32 storage and the exact binary values of the constants are left out. Every
  number is a Dafny `real`.
- The `print` of the directory name is left out.
- `os.path.join` is modelled for POSIX paths only (`/` as separator).
- The base classes (`core/dbs/detection.py` and `base.py`) are not part of this model.
  An unloaded dataset is therefore taken to have no split, no data directory, no
  annotation source and empty stores. Reading `_coco` on it is AttributeError.
- The `assert split is None or sys_config is not None` is left out. The data root is
  always a parameter.
- A `multi_frame` of `None` is left out. The code would fail multiplying it (line 25)
  before the default at line 47 applies, so `multiFrame` is an `int`.
- A `four_channels` of `None` is modelled as `false`. The code treats it the same way
  on lines 25, 30 and 46.
- CustomDb.Custom.ConvertToCoco: requires every box to have at least five values and
  every (image, class) entry to hold its own array. Shorter boxes (IndexError part-way
  through the rewrite) and arrays shared between entries are not modelled.
- CustomDb.Custom.ConvertToCoco: on KeyError it does not say which boxes were already
  rewritten. `CocoExport.ConvertImageAt` and `CocoExport.ConvertImage` state this for
  the image being converted.
- `convert_to_coco` iterates the prediction dictionaries in insertion order. The
  model takes that order as the order of the input sequences.

## Findings

| source | as written | input that shows it | evidently intended | confidence | as-written member | corrected member |
|---|---|---|---|---|---|---|
| core/dbs/custom.py:44 | `{cls_name: cls_id for cls_name, cls_id in _coco2name.items()}` unpacks each `(coco_id, name)` pair as `(cls_name, cls_id)`, so `_name2coco` is a copy of `_coco2name` | the configured lists `[1]` and `["insects"]`: `_name2coco == {1: "insects"}`, and `_name2coco["insects"]` raises KeyError | `{cls_name: cls_id for cls_id, cls_name in _coco2name.items()}`, giving `{"insects": 1}` | not executed | ClassMap.Name2CocoAsWritten, with ClassMap.Name2CocoAsWrittenIsCopy and ClassMap.Name2CocoAsWrittenMissesNames | ClassMap.Name2Coco, with ClassMap.Name2CocoInverse |
