/**
 * The annotation index of the CUSTOM dataset: for every image of the COCO
 * annotation file, its ground-truth boxes in corner form with internal class
 * ids, and its COCO image id.
 */
module Annotations {
  import opened Wrappers
  import opened Py

  /** A box as the annotation file stores it: top-left corner, width, height. */
  datatype BoxWH = BoxWH(x: real, y: real, w: real, h: real)

  /** One row of an image's ground-truth array: corners and internal class id. */
  datatype GtRow = GtRow(x1: real, y1: real, x2: real, y2: real, cls: int)

  datatype Image = Image(fileName: string, id: int)

  /**
   * What the loaded COCO handle answers: the images in `getImgIds()` order,
   * the category ids in `getCatIds()` order, and the boxes of the annotations
   * of each (image id, category id) pair in `getAnnIds` order.
   */
  datatype CocoSource = CocoSource(images: seq<Image>, catIds: seq<int>, anns: map<(int, int), seq<BoxWH>>)

  /** `loadAnns(getAnnIds(imgIds=imageId, catIds=catId))`, boxes only. */
  function AnnsOf(src: CocoSource, imageId: int, catId: int): (boxes: seq<BoxWH>)
    ensures (imageId, catId) !in src.anns ==> boxes == []
  {
    if (imageId, catId) in src.anns then src.anns[(imageId, catId)] else []
  }

  /** The corner form of a box: the width and height are added to the top-left corner. */
  function Corner(b: BoxWH, cls: int): (g: GtRow)
    ensures g.x1 == b.x && g.y1 == b.y && g.cls == cls
    ensures g.x2 - g.x1 == b.w && g.y2 - g.y1 == b.h
  {
    GtRow(b.x, b.y, b.x + b.w, b.y + b.h, cls)
  }

  /** The rows of one category's boxes, in annotation order. */
  function CornerRows(boxes: seq<BoxWH>, cls: int): (rows: seq<GtRow>)
    ensures |rows| == |boxes|
    ensures forall k :: 0 <= k < |boxes| ==> rows[k] == Corner(boxes[k], cls)
  {
    if boxes == [] then []
    else CornerRows(boxes[..|boxes| - 1], cls) + [Corner(boxes[|boxes| - 1], cls)]
  }

  /** Every category id of the list has an internal class id. */
  predicate KnownCategories(catIds: seq<int>, coco2cls: map<int, int>) {
    forall i :: 0 <= i < |catIds| ==> catIds[i] in coco2cls
  }

  /** The ground-truth rows of one image: each category's rows in turn, in `cats` order. */
  function ImageDets(src: CocoSource, coco2cls: map<int, int>, imageId: int, cats: seq<int>): seq<GtRow>
    requires KnownCategories(cats, coco2cls)
  {
    if cats == [] then []
    else
      var c := cats[|cats| - 1];
      ImageDets(src, coco2cls, imageId, cats[..|cats| - 1]) + CornerRows(AnnsOf(src, imageId, c), coco2cls[c])
  }

  /** The number of annotations of one image over the categories `cats`. */
  function AnnCount(src: CocoSource, imageId: int, cats: seq<int>): nat {
    if cats == [] then 0
    else AnnCount(src, imageId, cats[..|cats| - 1]) + |AnnsOf(src, imageId, cats[|cats| - 1])|
  }

  /** The indexed state after the first `n` images: the two dictionaries and the key order of the first. */
  datatype AnnoIndex = AnnoIndex(detections: map<string, seq<GtRow>>, evalIds: map<string, int>, order: seq<string>)

  function IndexImages(src: CocoSource, coco2cls: map<int, int>, n: nat): (idx: AnnoIndex)
    requires n <= |src.images|
    requires n == 0 || KnownCategories(src.catIds, coco2cls)
    ensures idx.detections.Keys == idx.evalIds.Keys
    ensures forall f :: f in idx.order <==> f in idx.detections
    ensures Distinct(idx.order)
  {
    if n == 0 then AnnoIndex(map[], map[], [])
    else
      var prev := IndexImages(src, coco2cls, n - 1);
      var image := src.images[n - 1];
      AnnoIndex(
        prev.detections[image.fileName := ImageDets(src, coco2cls, image.id, src.catIds)],
        prev.evalIds[image.fileName := image.id],
        if image.fileName in prev.detections then prev.order else prev.order + [image.fileName])
  }

  /** `_load_coco_annos`: a category missing from `coco2cls` raises KeyError as soon as an image is indexed. */
  function Index(src: CocoSource, coco2cls: map<int, int>): Result<AnnoIndex> {
    if |src.images| > 0 && !KnownCategories(src.catIds, coco2cls) then Failure(KeyError)
    else Success(IndexImages(src, coco2cls, |src.images|))
  }

  /** Every image of the source, and nothing else, has a key in both dictionaries. */
  lemma {:induction false} IndexKeys(src: CocoSource, coco2cls: map<int, int>, n: nat)
    requires n <= |src.images|
    requires n == 0 || KnownCategories(src.catIds, coco2cls)
    ensures forall f :: f in IndexImages(src, coco2cls, n).evalIds <==> exists i :: 0 <= i < n && src.images[i].fileName == f
  {
    if n > 0 {
      IndexKeys(src, coco2cls, n - 1);
      var prev := IndexImages(src, coco2cls, n - 1);
      var idx := IndexImages(src, coco2cls, n);
      var last := src.images[n - 1].fileName;
      assert idx.evalIds == prev.evalIds[last := src.images[n - 1].id];
      forall f ensures f in idx.evalIds <==> exists i :: 0 <= i < n && src.images[i].fileName == f {
        if f == last {
          assert src.images[n - 1].fileName == f;
        } else if f in prev.evalIds {
          var i :| 0 <= i < n - 1 && src.images[i].fileName == f;
          assert 0 <= i < n && src.images[i].fileName == f;
        } else {
          forall i | 0 <= i < n ensures src.images[i].fileName != f {
            if i < n - 1 {
              assert !(0 <= i < n - 1 && src.images[i].fileName == f);
            }
          }
        }
      }
    }
  }

  /** Extending the boxes by one extends the rows by that box's corner form. */
  lemma CornerRowsSnoc(boxes: seq<BoxWH>, k: nat, cls: int)
    requires k < |boxes|
    ensures CornerRows(boxes[..k + 1], cls) == CornerRows(boxes[..k], cls) + [Corner(boxes[k], cls)]
  {
    assert boxes[..k + 1][..k] == boxes[..k];
  }

  /** Extending the categories by one appends that category's rows. */
  lemma ImageDetsSnoc(src: CocoSource, coco2cls: map<int, int>, imageId: int, cats: seq<int>, j: nat)
    requires j < |cats| && KnownCategories(cats[..j + 1], coco2cls)
    ensures KnownCategories(cats[..j], coco2cls)
    ensures ImageDets(src, coco2cls, imageId, cats[..j + 1])
         == ImageDets(src, coco2cls, imageId, cats[..j]) + CornerRows(AnnsOf(src, imageId, cats[j]), coco2cls[cats[j]])
  {
    assert cats[..j + 1][..j] == cats[..j];
  }

  /** The annotation loop of `_load_coco_annos`: appends the corner rows of one category's boxes. */
  method AppendCornerRows(dets: seq<GtRow>, annotations: seq<BoxWH>, category: int) returns (out: seq<GtRow>)
    ensures out == dets + CornerRows(annotations, category)
  {
    out := dets;
    var k := 0;
    while k < |annotations|
      invariant 0 <= k <= |annotations|
      invariant out == dets + CornerRows(annotations[..k], category)
    {
      var b := annotations[k];
      var det := GtRow(b.x, b.y, b.w, b.h, category);
      det := det.(x2 := det.x2 + det.x1);
      det := det.(y2 := det.y2 + det.y1);
      CornerRowsSnoc(annotations, k, category);
      out := out + [det];
      k := k + 1;
    }
    assert annotations[..k] == annotations;
  }

  /** The category and annotation loops of `_load_coco_annos` for one image. */
  method CollectImageDets(src: CocoSource, coco2cls: map<int, int>, imageId: int) returns (r: Result<seq<GtRow>>)
    ensures r.Success? <==> KnownCategories(src.catIds, coco2cls)
    ensures r.Success? ==> r.value == ImageDets(src, coco2cls, imageId, src.catIds)
    ensures r.Failure? ==> r.error == KeyError
  {
    var dets: seq<GtRow> := [];
    var j := 0;
    while j < |src.catIds|
      invariant 0 <= j <= |src.catIds|
      invariant KnownCategories(src.catIds[..j], coco2cls)
      invariant dets == ImageDets(src, coco2cls, imageId, src.catIds[..j])
    {
      var classId := src.catIds[j];
      var annotations := AnnsOf(src, imageId, classId);
      if classId !in coco2cls {
        return Failure(KeyError);
      }
      dets := AppendCornerRows(dets, annotations, coco2cls[classId]);
      assert KnownCategories(src.catIds[..j + 1], coco2cls);
      ImageDetsSnoc(src, coco2cls, imageId, src.catIds, j);
      j := j + 1;
    }
    assert src.catIds[..j] == src.catIds;
    return Success(dets);
  }

  /** The image loop of `_load_coco_annos`. */
  method IndexAnnotations(src: CocoSource, coco2cls: map<int, int>) returns (r: Result<AnnoIndex>)
    ensures r == Index(src, coco2cls)
  {
    var evalIds: map<string, int> := map[];
    var detections: map<string, seq<GtRow>> := map[];
    var order: seq<string> := [];
    var i := 0;
    while i < |src.images|
      invariant 0 <= i <= |src.images|
      invariant i == 0 || KnownCategories(src.catIds, coco2cls)
      invariant AnnoIndex(detections, evalIds, order) == IndexImages(src, coco2cls, i)
    {
      var image := src.images[i];
      evalIds := evalIds[image.fileName := image.id];
      var dets := CollectImageDets(src, coco2cls, image.id);
      if dets.Failure? {
        return Failure(dets.error);
      }
      var fileName := image.fileName;
      if fileName !in detections {
        order := order + [fileName];
      }
      detections := detections[fileName := dets.value];
      i := i + 1;
    }
    return Success(AnnoIndex(detections, evalIds, order));
  }

  /** A row count equals the number of matching annotations. */
  lemma {:induction false} ImageDetsCount(src: CocoSource, coco2cls: map<int, int>, imageId: int, cats: seq<int>)
    requires KnownCategories(cats, coco2cls)
    ensures |ImageDets(src, coco2cls, imageId, cats)| == AnnCount(src, imageId, cats)
  {
    if cats != [] {
      ImageDetsCount(src, coco2cls, imageId, cats[..|cats| - 1]);
    }
  }

  /** An image has no rows exactly when no category has an annotation on it: a 0x5 array, not a missing entry. */
  lemma {:induction false} NoAnnotationsNoRows(src: CocoSource, coco2cls: map<int, int>, imageId: int, cats: seq<int>)
    requires KnownCategories(cats, coco2cls)
    ensures ImageDets(src, coco2cls, imageId, cats) == [] <==> forall c :: c in cats ==> AnnsOf(src, imageId, c) == []
  {
    if cats != [] {
      var init := cats[..|cats| - 1];
      NoAnnotationsNoRows(src, coco2cls, imageId, init);
      assert cats == init + [cats[|cats| - 1]];
    }
  }

  // Helpers for the grouping lemma below.
  lemma AppendAssoc(a: seq<GtRow>, b: seq<GtRow>, c: seq<GtRow>)
    ensures (a + b) + c == a + (b + c)
  {
  }

  lemma KnownCategoriesSplit(cats1: seq<int>, cats2: seq<int>, coco2cls: map<int, int>)
    requires KnownCategories(cats1, coco2cls) && KnownCategories(cats2, coco2cls)
    ensures KnownCategories(cats1 + cats2, coco2cls)
    ensures cats2 != [] ==> KnownCategories(cats2[..|cats2| - 1], coco2cls)
  {
  }

  /** Rows are grouped by category in the order of the category list. */
  lemma {:induction false} ImageDetsAppend(src: CocoSource, coco2cls: map<int, int>, imageId: int, cats1: seq<int>, cats2: seq<int>)
    requires KnownCategories(cats1, coco2cls) && KnownCategories(cats2, coco2cls)
    ensures KnownCategories(cats1 + cats2, coco2cls)
    ensures ImageDets(src, coco2cls, imageId, cats1 + cats2)
         == ImageDets(src, coco2cls, imageId, cats1) + ImageDets(src, coco2cls, imageId, cats2)
  {
    KnownCategoriesSplit(cats1, cats2, coco2cls);
    if cats2 == [] {
      assert cats1 + cats2 == cats1;
    } else {
      var all := cats1 + cats2;
      var init := cats2[..|cats2| - 1];
      var c := cats2[|cats2| - 1];
      var rows := CornerRows(AnnsOf(src, imageId, c), coco2cls[c]);
      assert all[..|all| - 1] == cats1 + init;
      assert all[|all| - 1] == c;
      ImageDetsAppend(src, coco2cls, imageId, cats1, init);
      AppendAssoc(ImageDets(src, coco2cls, imageId, cats1), ImageDets(src, coco2cls, imageId, init), rows);
    }
  }

  /**
   * A row is stored for an image exactly when it is the corner form of one of
   * the image's annotations, carrying the internal id of that annotation's category.
   */
  lemma {:induction false} ImageDetsMembers(src: CocoSource, coco2cls: map<int, int>, imageId: int, cats: seq<int>, g: GtRow)
    requires KnownCategories(cats, coco2cls)
    ensures g in ImageDets(src, coco2cls, imageId, cats) <==>
      exists j, k :: 0 <= j < |cats| && 0 <= k < |AnnsOf(src, imageId, cats[j])|
                     && g == Corner(AnnsOf(src, imageId, cats[j])[k], coco2cls[cats[j]])
  {
    if cats != [] {
      var n := |cats| - 1;
      var init := cats[..n];
      var c := cats[n];
      ImageDetsMembers(src, coco2cls, imageId, init, g);
      var rows := CornerRows(AnnsOf(src, imageId, c), coco2cls[c]);
      if g in ImageDets(src, coco2cls, imageId, cats) {
        if g in rows {
          var k :| 0 <= k < |rows| && rows[k] == g;
          assert g == Corner(AnnsOf(src, imageId, cats[n])[k], coco2cls[cats[n]]);
        } else {
          assert g in ImageDets(src, coco2cls, imageId, init);
          var j, k :| 0 <= j < |init| && 0 <= k < |AnnsOf(src, imageId, init[j])|
                      && g == Corner(AnnsOf(src, imageId, init[j])[k], coco2cls[init[j]]);
          assert init[j] == cats[j];
        }
      } else {
        forall j, k | 0 <= j < |cats| && 0 <= k < |AnnsOf(src, imageId, cats[j])|
          ensures g != Corner(AnnsOf(src, imageId, cats[j])[k], coco2cls[cats[j]])
        {
          if j == n {
            assert rows[k] == Corner(AnnsOf(src, imageId, cats[j])[k], coco2cls[cats[j]]);
          } else {
            assert init[j] == cats[j];
          }
        }
      }
    }
  }

  /**
   * The entry of a file name is written by the last image carrying that name:
   * its COCO id and the rows of its annotations.
   */
  lemma {:induction false} IndexLastWins(src: CocoSource, coco2cls: map<int, int>, n: nat, i: nat)
    requires i < n <= |src.images|
    requires KnownCategories(src.catIds, coco2cls)
    requires forall j :: i < j < n ==> src.images[j].fileName != src.images[i].fileName
    ensures var idx := IndexImages(src, coco2cls, n);
      && src.images[i].fileName in idx.evalIds
      && idx.evalIds[src.images[i].fileName] == src.images[i].id
      && idx.detections[src.images[i].fileName] == ImageDets(src, coco2cls, src.images[i].id, src.catIds)
  {
    var idx := IndexImages(src, coco2cls, n);
    var prev := IndexImages(src, coco2cls, n - 1);
    var image := src.images[n - 1];
    assert idx.evalIds == prev.evalIds[image.fileName := image.id];
    assert idx.detections == prev.detections[image.fileName := ImageDets(src, coco2cls, image.id, src.catIds)];
    if i < n - 1 {
      IndexLastWins(src, coco2cls, n - 1, i);
      assert image.fileName != src.images[i].fileName;
    }
  }

  /** The file names of the first `n` images, in load order. */
  function FileNames(src: CocoSource, n: nat): (names: seq<string>)
    requires n <= |src.images|
    ensures |names| == n && forall i :: 0 <= i < n ==> names[i] == src.images[i].fileName
  {
    seq(n, i requires 0 <= i < n => src.images[i].fileName)
  }

  /**
   * `list(detections.keys())` is in load order: each file name appears where
   * an image first carries it, as dictionary insertion order gives.
   */
  lemma {:induction false} IndexOrder(src: CocoSource, coco2cls: map<int, int>, n: nat)
    requires n <= |src.images|
    requires n == 0 || KnownCategories(src.catIds, coco2cls)
    ensures IndexImages(src, coco2cls, n).order == KeyOrder(FileNames(src, n))
  {
    if n > 0 {
      IndexOrder(src, coco2cls, n - 1);
      assert FileNames(src, n)[..n - 1] == FileNames(src, n - 1);
    }
  }

  /** With distinct file names, the image list is the file names in load order. */
  lemma IndexOrderOfDistinct(src: CocoSource, coco2cls: map<int, int>)
    requires Index(src, coco2cls).Success?
    requires Distinct(FileNames(src, |src.images|))
    ensures Index(src, coco2cls).value.order == FileNames(src, |src.images|)
  {
    IndexOrder(src, coco2cls, |src.images|);
    KeyOrderOfDistinct(FileNames(src, |src.images|));
  }

  /** With distinct file names, every image has its own entries in both dictionaries. */
  lemma IndexDistinctNames(src: CocoSource, coco2cls: map<int, int>, i: nat)
    requires i < |src.images|
    requires KnownCategories(src.catIds, coco2cls)
    requires Distinct(FileNames(src, |src.images|))
    ensures Index(src, coco2cls).Success?
    ensures var idx := Index(src, coco2cls).value;
      && src.images[i].fileName in idx.evalIds
      && idx.evalIds[src.images[i].fileName] == src.images[i].id
      && idx.detections[src.images[i].fileName] == ImageDets(src, coco2cls, src.images[i].id, src.catIds)
  {
    var names := FileNames(src, |src.images|);
    forall j | i < j < |src.images|
      ensures src.images[j].fileName != src.images[i].fileName
    {
      assert names[i] != names[j];
    }
    IndexLastWins(src, coco2cls, |src.images|, i);
  }

  /** One image with one box (10, 20, 30, 40) of COCO category 1, mapped to class 1. */
  lemma OneBoxScenario()
    ensures var src := CocoSource([Image("a.jpg", 7)], [1], map[(7, 1) := [BoxWH(10.0, 20.0, 30.0, 40.0)]]);
      Index(src, map[1 := 1]) == Success(AnnoIndex(
        map["a.jpg" := [GtRow(10.0, 20.0, 40.0, 60.0, 1)]],
        map["a.jpg" := 7],
        ["a.jpg"]))
  {
    var src := CocoSource([Image("a.jpg", 7)], [1], map[(7, 1) := [BoxWH(10.0, 20.0, 30.0, 40.0)]]);
    assert [1][..0] == [];
    assert CornerRows([BoxWH(10.0, 20.0, 30.0, 40.0)], 1) == [GtRow(10.0, 20.0, 40.0, 60.0, 1)];
    assert ImageDets(src, map[1 := 1], 7, [1]) == [GtRow(10.0, 20.0, 40.0, 60.0, 1)];
    assert IndexImages(src, map[1 := 1], 0) == AnnoIndex(map[], map[], []);
    assert KnownCategories(src.catIds, map[1 := 1]);
    assert IndexImages(src, map[1 := 1], 1) == AnnoIndex(
        map["a.jpg" := [GtRow(10.0, 20.0, 40.0, 60.0, 1)]],
        map["a.jpg" := 7],
        ["a.jpg"]);
  }
}
