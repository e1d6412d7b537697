/**
 * The CUSTOM detection dataset: a COCO-layout dataset with a single class
 * ("insects"), optionally a fourth (alpha) input channel and several stacked
 * frames per sample. One object holds the normalisation statistics, the class
 * maps, the indexed ground truth of one split, and answers positional queries;
 * it also exports predictions and resolves the filters of an evaluation.
 */
module CustomDb {
  import opened Wrappers
  import opened Py
  import opened NormStats
  import opened ClassMap
  import opened Annotations
  import opened CocoExport

  /** The entries of the dataset configuration the adapter reads. */
  datatype DbConfig = DbConfig(fourChannels: bool, multiFrame: int, name: Option<string>)

  /** The split dictionary accepts these keys and maps each to itself. */
  const SplitNames: set<string> := {"train", "val", "test"}

  /** The dataset directory used when the configuration names none. */
  const DefaultDirName: string := "yolo_normal"

  function DirName(name: Option<string>): (d: string)
    ensures name.Some? ==> d == name.value
    ensures name.None? ==> d == DefaultDirName
  {
    if name.Some? then name.value else DefaultDirName
  }

  /** `<data root>/<dir name>/images/<split>` */
  function DataDir(dataRoot: string, dirName: string, split: string): string {
    Join(Join(Join(dataRoot, dirName), "images"), split)
  }

  /** `<data root>/<dir name>/annotations/instances_<split>.json` */
  function AnnoFile(dataRoot: string, dirName: string, split: string): string {
    Join(Join(Join(dataRoot, dirName), "annotations"), "instances_" + split + ".json")
  }

  /** A relative split lands in an `images` directory. */
  lemma DataDirEnds(dataRoot: string, dirName: string, split: string)
    ensures !IsAbsolute(split) ==> EndsWith(DataDir(dataRoot, dirName, split), "images" + "/" + split)
    ensures IsAbsolute(split) ==> DataDir(dataRoot, dirName, split) == split
  {
    var images := Join(Join(dataRoot, dirName), "images");
    JoinParts(Join(dataRoot, dirName), "images");
    if !IsAbsolute(split) {
      JoinAfter(images, "images", split);
    }
  }

  /** The annotation file of a split is `instances_<split>.json` in an `annotations` directory. */
  lemma AnnoFileEnds(dataRoot: string, dirName: string, split: string)
    ensures EndsWith(AnnoFile(dataRoot, dirName, split), "annotations" + "/" + ("instances_" + split + ".json"))
  {
    var annotations := Join(Join(dataRoot, dirName), "annotations");
    JoinParts(Join(dataRoot, dirName), "annotations");
    JoinAfter(annotations, "annotations", "instances_" + split + ".json");
  }

  /** The eigenvector matrix: 3x3, or extended for the alpha channel. */
  function EigVecFor(fourChannels: bool): (r: seq<seq<real>>)
    ensures fourChannels ==> AlphaExtended(r)
    ensures !fourChannels ==> r == EigVecBase
  {
    if fourChannels then
      AlphaEigVec();
      AppendRow(AppendColumn(EigVecBase, AlphaColumn), AlphaRow)
    else EigVecBase
  }

  /**
   * `(stats[0], stats[12:])`: the first summary number, and every number from
   * the thirteenth on (none when there are at most twelve). An empty summary
   * raises IndexError.
   */
  function Summary(stats: seq<real>): (r: Result<(real, seq<real>)>)
    ensures r.Success? <==> |stats| > 0
    ensures r.Failure? ==> r.error == IndexError
    ensures r.Success? ==> r.value.0 == stats[0]
    ensures r.Success? ==> |r.value.1| == (if |stats| > 12 then |stats| - 12 else 0)
    ensures r.Success? ==> forall i :: 0 <= i < |r.value.1| ==> r.value.1[i] == stats[12 + i]
  {
    if |stats| == 0 then Failure(IndexError)
    else Success((stats[0], if |stats| > 12 then stats[12..] else []))
  }

  class Custom {
    const mean: seq<real>
    const std: seq<real>
    const eigVal: seq<real>
    const eigVec: seq<seq<real>>
    const cocoClsIds: seq<int>
    const cocoClsNames: seq<string>
    const cls2coco: map<int, int>
    const coco2cls: map<int, int>
    const coco2name: map<int, string>
    const name2coco: map<int, string>
    const fourChannels: bool
    const multiFrame: int
    var split: Option<string>
    var dataDir: Option<string>
    var annoFile: Option<string>
    var coco: Option<CocoSource>
    var detections: map<string, seq<GtRow>>
    var evalIds: map<string, int>
    var imageIds: seq<string>
    var dbInds: seq<int>

    /**
     * The class lists are the configured ones and the four maps are built from
     * them (see `ClassMap.ConfiguredClasses`); `name2coco` is built as written,
     * so it is keyed by COCO id like `coco2name`.
     */
    ghost predicate Configured() {
      && cocoClsIds == CocoClsIds && cocoClsNames == CocoClsNames
      && cls2coco == map[1 := 1] && coco2cls == map[1 := 1]
      && coco2name == map[1 := "insects"] && name2coco == map[1 := "insects"]
    }

    /**
     * A dataset without a split has no paths, no annotation source and no
     * images; with a split, the split is a known one and the paths and the
     * source are set; the image list holds every key of the store once; the
     * positional index is the identity.
     */
    ghost predicate Valid()
      reads this
    {
      && (split.None? ==> dataDir.None? && annoFile.None? && coco.None? && detections == map[] && evalIds == map[])
      && (split.Some? ==> split.value in SplitNames && dataDir.Some? && annoFile.Some? && coco.Some?)
      && detections.Keys == evalIds.Keys
      && (forall f :: f in imageIds <==> f in detections)
      && Distinct(imageIds)
      && dbInds == Range(|imageIds|)
    }

    /** The part of `__init__` that every dataset object runs: statistics and class maps. */
    constructor (config: DbConfig)
      ensures Padded(mean, MeanBase, config.multiFrame, config.fourChannels)
      ensures Padded(std, StdBase, config.multiFrame, config.fourChannels)
      ensures Padded(eigVal, EigValBase, config.multiFrame, config.fourChannels)
      ensures eigVec == EigVecFor(config.fourChannels)
      ensures fourChannels == config.fourChannels && multiFrame == config.multiFrame
      ensures Configured()
      ensures split.None? && Valid()
    {
      var m, s, e := PadStatistics(config.multiFrame, config.fourChannels);
      mean, std, eigVal := m, s, e;
      var v := EigVecBase;
      if config.fourChannels {
        v := AppendColumn(v, AlphaColumn);
        v := AppendRow(v, AlphaRow);
      }
      eigVec := v;
      ConfiguredClasses();
      cocoClsIds := CocoClsIds;
      cocoClsNames := CocoClsNames;
      cls2coco := Cls2Coco(CocoClsIds);
      coco2cls := Coco2Cls(CocoClsIds);
      coco2name := Coco2Name(CocoClsIds, CocoClsNames);
      name2coco := Name2CocoAsWritten(CocoClsIds, CocoClsNames);
      fourChannels := config.fourChannels;
      multiFrame := config.multiFrame;
      split, dataDir, annoFile, coco := None, None, None, None;
      detections, evalIds, imageIds, dbInds := map[], map[], [], [];
    }

    /**
     * The split part of `__init__`: an unknown split name raises KeyError and
     * changes nothing; otherwise the paths are set, the annotation source is
     * kept and indexed, and on success the image list and the identity index
     * follow the store's insertion order.
     */
    method LoadSplit(splitName: string, dataRoot: string, name: Option<string>, src: CocoSource) returns (r: Outcome)
      requires Valid()
      modifies this
      ensures Valid()
      ensures splitName !in SplitNames ==> r == Fail(KeyError) && unchanged(this)
      ensures splitName in SplitNames ==>
        && split == Some(splitName)
        && dataDir == Some(DataDir(dataRoot, DirName(name), splitName))
        && annoFile == Some(AnnoFile(dataRoot, DirName(name), splitName))
        && coco == Some(src)
      ensures splitName in SplitNames ==> (r.Pass? <==> Index(src, coco2cls).Success?)
      ensures splitName in SplitNames && r.Fail? ==>
        && r.error == KeyError
        && detections == old(detections) && evalIds == old(evalIds)
        && imageIds == old(imageIds) && dbInds == old(dbInds)
      ensures r.Pass? ==>
        && detections == Index(src, coco2cls).value.detections
        && evalIds == Index(src, coco2cls).value.evalIds
        && imageIds == Index(src, coco2cls).value.order
        && dbInds == Range(|imageIds|)
    {
      if splitName !in SplitNames {
        return Fail(KeyError);
      }
      var dirName := DirName(name);
      split := Some(splitName);
      dataDir := Some(DataDir(dataRoot, dirName, splitName));
      annoFile := Some(AnnoFile(dataRoot, dirName, splitName));
      coco := Some(src);
      var loaded := IndexAnnotations(src, coco2cls);
      if loaded.Failure? {
        return Fail(loaded.error);
      }
      detections := loaded.value.detections;
      evalIds := loaded.value.evalIds;
      imageIds := loaded.value.order;
      dbInds := Range(|imageIds|);
      r := Pass;
    }

    /** `_image_ids[_db_inds[ind]]`, with Python's negative indexing on both lists. */
    function FileNameAt(ind: int): (r: Result<string>)
      requires Valid()
      reads this
      ensures r.Success? <==> -|imageIds| <= ind < |imageIds|
      ensures r.Success? ==> r.value == imageIds[if ind < 0 then ind + |imageIds| else ind]
      ensures r.Success? ==> r.value in detections && r.value in evalIds
      ensures r.Failure? ==> r.error == IndexError
    {
      match At(dbInds, ind)
      case Failure(e) => Failure(e)
      case Success(d) => At(imageIds, d)
    }

    /** `image_path`: ValueError without a data directory, else the directory joined with the file name. */
    function ImagePath(ind: int): (r: Result<string>)
      requires Valid()
      reads this
      ensures dataDir.None? ==> r == Failure(ValueError)
      ensures dataDir.Some? ==> (r.Success? <==> -|imageIds| <= ind < |imageIds|)
      ensures dataDir.Some? && r.Failure? ==> r.error == IndexError
      ensures r.Success? ==> dataDir.Some? && r.value == Join(dataDir.value, imageIds[if ind < 0 then ind + |imageIds| else ind])
    {
      if dataDir.None? then Failure(ValueError)
      else
        match FileNameAt(ind)
        case Failure(e) => Failure(e)
        case Success(f) => Success(Join(dataDir.value, f))
    }

    /** The stored ground-truth rows of the image at position `ind`. */
    function DetectionsAt(ind: int): (r: Result<seq<GtRow>>)
      requires Valid()
      reads this
      ensures r.Success? <==> -|imageIds| <= ind < |imageIds|
      ensures r.Success? ==> r.value == detections[imageIds[if ind < 0 then ind + |imageIds| else ind]]
      ensures r.Failure? ==> r.error == IndexError
    {
      match FileNameAt(ind)
      case Failure(e) => Failure(e)
      case Success(f) => Success(detections[f])
    }

    /** `detections`: a fresh array holding a copy of the stored rows; the store is not shared with the caller. */
    method Detections(ind: int) returns (r: Result<array<GtRow>>)
      requires Valid()
      ensures r.Success? <==> DetectionsAt(ind).Success?
      ensures r.Success? ==> fresh(r.value) && r.value[..] == DetectionsAt(ind).value
      ensures r.Failure? ==> r.error == DetectionsAt(ind).error
    {
      var rows := DetectionsAt(ind);
      if rows.Failure? {
        return Failure(rows.error);
      }
      var copy := new GtRow[|rows.value|](i requires 0 <= i < |rows.value| => rows.value[i]);
      return Success(copy);
    }

    /** `cls2name`: internal class `cls` names the `cls`-th configured class; any other id raises KeyError. */
    function Cls2Name(cls: int): (r: Result<string>)
      requires Configured()
      ensures r.Success? <==> 1 <= cls <= |cocoClsIds|
      ensures r.Success? ==> r.value == cocoClsNames[cls - 1]
      ensures r.Failure? ==> r.error == KeyError
    {
      NameOf(cls2coco, coco2name, cls)
    }

    /**
     * As built, `name2coco` does not lead from a class's name back to its COCO
     * id: it is a copy of `coco2name`, so it maps the class's COCO id to the
     * class's name, and its keys are COCO ids, never names.
     */
    lemma Name2CocoAsBuilt(cls: int)
      requires Configured()
      requires Cls2Name(cls).Success?
      ensures name2coco == coco2name
      ensures cls in cls2coco && cls2coco[cls] in name2coco
      ensures name2coco[cls2coco[cls]] == Cls2Name(cls).value
      ensures forall k :: k in name2coco ==> k in cocoClsIds
    {
    }

    /**
     * `convert_to_coco`: for every image (its file name must be in `evalIds`)
     * and every class (its id must be in `cls2coco`), each box is rewritten in
     * place to width/height form and contributes one record. Unknown names or
     * ids raise KeyError.
     */
    method ConvertToCoco(input: seq<ImageBoxes>, round: real -> real) returns (r: Result<seq<CocoDet>>)
      requires WideArrays(input) && OwnArrays(input)
      modifies Arrays(input)
      ensures Wide(old(Snapshot(input)))
      ensures r.Success? <==> Resolvable(old(Snapshot(input)), evalIds, cls2coco)
      ensures r.Failure? ==> r.error == KeyError
      ensures r.Success? ==> r.value == Records(old(Snapshot(input)), evalIds, cls2coco, round)
      ensures r.Success? ==> forall i, j :: 0 <= i < |input| && 0 <= j < |input[i].classes| ==>
        Rows(input[i].classes[j].boxes) == ToWidthHeightRows(old(Rows(input[i].classes[j].boxes)))
    {
      ghost var before := Snapshot(input);
      SnapshotAt(input);
      forall i | 0 <= i < |input|
        ensures |before[i].classes| == |input[i].classes|
        ensures forall j :: 0 <= j < |input[i].classes| ==>
          before[i].classes[j] == ClassRows(input[i].classes[j].cls, Rows(input[i].classes[j].boxes))
      {
        ClassSnapshotAt(input[i].classes);
      }
      forall i, j | 0 <= i < |input| && 0 <= j < |input[i].classes|
        ensures WideRows(before[i].classes[j].rows)
      {
        RowsAt(input[i].classes[j].boxes);
      }
      var recs := [];
      var i := 0;
      while i < |input|
        invariant 0 <= i <= |input|
        invariant Resolvable(before[..i], evalIds, cls2coco) && Wide(before[..i])
        invariant recs == Records(before[..i], evalIds, cls2coco, round)
        invariant forall p, j :: 0 <= p < i && 0 <= j < |input[p].classes| ==>
          Rows(input[p].classes[j].boxes) == ToWidthHeightRows(before[p].classes[j].rows)
        invariant forall p, j :: i <= p < |input| && 0 <= j < |input[p].classes| ==>
          Rows(input[p].classes[j].boxes) == before[p].classes[j].rows
      {
        ClassSnapshotAt(input[i].classes);
        assert ClassSnapshot(input[i].classes) == before[i].classes;
        assert ClassArrays(input[i].classes) <= Arrays(input);
        var converted := ConvertImageAt(input, i, before[i], evalIds, cls2coco, round);
        if converted.Failure? {
          return Failure(converted.error);
        }
        RecordsSnoc(before, i, evalIds, cls2coco, round);
        recs := recs + converted.value;
        i := i + 1;
      }
      assert before[..i] == before;
      return Success(recs);
    }

    /**
     * `evaluate`, up to the summary numbers: the split "testdev" returns None;
     * without an annotation source the attribute is missing; every image name
     * and every class id must resolve (KeyError otherwise), in order; the
     * summary `summarize(imageIds, categoryIds)` is then cut into its first
     * number and its tail from the thirteenth.
     */
    function Evaluate(images: seq<string>, clsIds: seq<int>, summarize: (seq<int>, seq<int>) -> seq<real>): (r: Result<Option<(real, seq<real>)>>)
      reads this
      ensures split == Some("testdev") ==> r == Success(None)
      ensures split != Some("testdev") && coco.None? ==> r == Failure(AttributeError)
      ensures split != Some("testdev") && coco.Some? ==>
        ((r.Failure? && r.error == KeyError) <==>
          !(forall i :: 0 <= i < |images| ==> images[i] in evalIds) || !(forall i :: 0 <= i < |clsIds| ==> clsIds[i] in cls2coco))
      ensures r.Success? && r.value.Some? ==>
        && LookupAll(evalIds, images).Success? && LookupAll(cls2coco, clsIds).Success?
        && Summary(summarize(LookupAll(evalIds, images).value, LookupAll(cls2coco, clsIds).value)) == Success(r.value.value)
      ensures split != Some("testdev") && coco.Some? && LookupAll(evalIds, images).Success? && LookupAll(cls2coco, clsIds).Success? ==>
        var s := Summary(summarize(LookupAll(evalIds, images).value, LookupAll(cls2coco, clsIds).value));
        && (r.Success? <==> s.Success?)
        && (s.Success? ==> r.value == Some(s.value))
        && (s.Failure? ==> r.error == s.error)
    {
      if split == Some("testdev") then Success(None)
      else if coco.None? then Failure(AttributeError)
      else
        var ids := LookupAll(evalIds, images);
        var cats := LookupAll(cls2coco, clsIds);
        if ids.Failure? then Failure(ids.error)
        else if cats.Failure? then Failure(cats.error)
        else
          match Summary(summarize(ids.value, cats.value))
          case Failure(e) => Failure(e)
          case Success(s) => Success(Some(s))
    }

    /**
     * On a loaded dataset, evaluating indexed images and configured classes
     * never takes the "testdev" exit and never raises KeyError; the category
     * filter is the class list itself, and the image filter holds each image's
     * COCO id, in order.
     */
    lemma EvaluateIndexed(images: seq<string>, clsIds: seq<int>, summarize: (seq<int>, seq<int>) -> seq<real>)
      requires Valid() && Configured() && split.Some?
      requires forall f :: f in images ==> f in imageIds
      requires forall c :: c in clsIds ==> 1 <= c <= |cocoClsIds|
      ensures Evaluate(images, clsIds, summarize) != Success(None)
      ensures Evaluate(images, clsIds, summarize).Failure? ==> Evaluate(images, clsIds, summarize).error == IndexError
      ensures LookupAll(cls2coco, clsIds) == Success(clsIds)
      ensures LookupAll(evalIds, images).Success?
      ensures forall i :: 0 <= i < |images| ==> LookupAll(evalIds, images).value[i] == evalIds[images[i]]
    {
      assert |cocoClsIds| == 1;
      forall i | 0 <= i < |clsIds|
        ensures clsIds[i] == 1
      {
        assert clsIds[i] in clsIds;
      }
      var cats := LookupAll(cls2coco, clsIds);
      assert cats.Success?;
      forall i | 0 <= i < |clsIds|
        ensures cats.value[i] == clsIds[i]
      {
        assert cls2coco[clsIds[i]] == 1;
      }
      assert cats.value == clsIds;
      forall i | 0 <= i < |images|
        ensures images[i] in evalIds
      {
        assert images[i] in images;
      }
      assert split.value != "testdev";
    }
  }

  /** `__init__` as a whole: no split gives an unloaded dataset; a split either loads or raises KeyError. */
  method Create(config: DbConfig, splitName: Option<string>, dataRoot: string, src: CocoSource) returns (r: Result<Custom>)
    ensures r.Success? ==> fresh(r.value) && r.value.Valid() && r.value.Configured()
    ensures r.Success? ==> r.value.eigVec == EigVecFor(config.fourChannels)
    ensures r.Success? ==> Padded(r.value.mean, MeanBase, config.multiFrame, config.fourChannels)
    ensures r.Success? ==> Padded(r.value.std, StdBase, config.multiFrame, config.fourChannels)
    ensures r.Success? ==> Padded(r.value.eigVal, EigValBase, config.multiFrame, config.fourChannels)
    ensures r.Success? ==> r.value.fourChannels == config.fourChannels && r.value.multiFrame == config.multiFrame
    ensures splitName.None? ==> r.Success? && r.value.split.None?
    ensures splitName.Some? ==>
      (r.Success? <==> splitName.value in SplitNames && Index(src, Coco2Cls(CocoClsIds)).Success?)
    ensures splitName.Some? && r.Success? ==>
      && r.value.split == splitName
      && r.value.dataDir == Some(DataDir(dataRoot, DirName(config.name), splitName.value))
      && r.value.annoFile == Some(AnnoFile(dataRoot, DirName(config.name), splitName.value))
      && r.value.coco == Some(src)
      && r.value.detections == Index(src, Coco2Cls(CocoClsIds)).value.detections
      && r.value.evalIds == Index(src, Coco2Cls(CocoClsIds)).value.evalIds
      && r.value.imageIds == Index(src, Coco2Cls(CocoClsIds)).value.order
      && r.value.dbInds == Range(|r.value.imageIds|)
    ensures r.Failure? ==> r.error == KeyError
  {
    var db := new Custom(config);
    if splitName.None? {
      return Success(db);
    }
    var loaded := db.LoadSplit(splitName.value, dataRoot, config.name, src);
    if loaded.Fail? {
      return Failure(loaded.error);
    }
    return Success(db);
  }
}
