/**
 * Export of predicted boxes to the COCO results format: corner-form scored
 * rows (x1, y1, x2, y2, score, ...) become records with a width/height box.
 * The rounding to two decimals is a function the caller passes in.
 */
module CocoExport {
  import opened Wrappers
  import opened Annotations

  /** One record of the results payload. */
  datatype CocoDet = CocoDet(imageId: int, categoryId: int, bbox: seq<real>, score: real)

  /** The predictions of one class on one image: a two-dimensional array, one box per row. */
  datatype ClassBoxes = ClassBoxes(cls: int, boxes: array2<real>)

  /** The predictions of one image, keyed by its file name, class by class. */
  datatype ImageBoxes = ImageBoxes(image: string, classes: seq<ClassBoxes>)

  /** The values held by `ClassBoxes` and `ImageBoxes` at one moment. */
  datatype ClassRows = ClassRows(cls: int, rows: seq<seq<real>>)
  datatype ImageRows = ImageRows(image: string, classes: seq<ClassRows>)

  function Rows(a: array2<real>): (rows: seq<seq<real>>)
    reads a
    ensures |rows| == a.Length0
  {
    seq(a.Length0, r requires 0 <= r < a.Length0 reads a =>
      seq(a.Length1, c requires 0 <= c < a.Length1 reads a => a[r, c]))
  }

  /** Row `r` of `Rows(a)` holds the cells of row `r` of `a`. */
  lemma RowsAt(a: array2<real>)
    ensures forall r :: 0 <= r < a.Length0 ==> |Rows(a)[r]| == a.Length1
    ensures forall r, c :: 0 <= r < a.Length0 && 0 <= c < a.Length1 ==> Rows(a)[r][c] == a[r, c]
  {
  }

  /** The arrays of one image's classes. */
  function ClassArrays(classes: seq<ClassBoxes>): set<array2<real>> {
    set j | 0 <= j < |classes| :: classes[j].boxes
  }

  /** The arrays of every image and class. */
  function Arrays(input: seq<ImageBoxes>): set<array2<real>> {
    set i, j | 0 <= i < |input| && 0 <= j < |input[i].classes| :: input[i].classes[j].boxes
  }

  function ClassSnapshot(classes: seq<ClassBoxes>): (s: seq<ClassRows>)
    reads ClassArrays(classes)
    ensures |s| == |classes|
  {
    seq(|classes|, j requires 0 <= j < |classes| reads ClassArrays(classes) =>
      ClassRows(classes[j].cls, Rows(classes[j].boxes)))
  }

  lemma ClassSnapshotAt(classes: seq<ClassBoxes>)
    ensures forall j :: 0 <= j < |classes| ==> ClassSnapshot(classes)[j] == ClassRows(classes[j].cls, Rows(classes[j].boxes))
  {
  }

  function Snapshot(input: seq<ImageBoxes>): (s: seq<ImageRows>)
    reads Arrays(input)
    ensures |s| == |input|
  {
    seq(|input|, i requires 0 <= i < |input| reads Arrays(input) =>
      assert ClassArrays(input[i].classes) <= Arrays(input);
      ImageRows(input[i].image, ClassSnapshot(input[i].classes)))
  }

  lemma SnapshotAt(input: seq<ImageBoxes>)
    ensures forall i :: 0 <= i < |input| ==> Snapshot(input)[i] == ImageRows(input[i].image, ClassSnapshot(input[i].classes))
  {
  }

  /** Every box has at least the five values x1, y1, x2, y2, score. */
  predicate WideArrays(input: seq<ImageBoxes>) {
    forall i, j :: 0 <= i < |input| && 0 <= j < |input[i].classes| ==> input[i].classes[j].boxes.Length1 >= 5
  }

  /** Each (image, class) entry holds its own array. */
  predicate OwnArrays(input: seq<ImageBoxes>) {
    forall i1, j1, i2, j2 ::
      0 <= i1 < |input| && 0 <= j1 < |input[i1].classes| &&
      0 <= i2 < |input| && 0 <= j2 < |input[i2].classes| && (i1 != i2 || j1 != j2)
      ==> input[i1].classes[j1].boxes != input[i2].classes[j2].boxes
  }

  predicate WideRows(rows: seq<seq<real>>) {
    forall r :: 0 <= r < |rows| ==> |rows[r]| >= 5
  }

  predicate Wide(input: seq<ImageRows>) {
    forall i, j :: 0 <= i < |input| && 0 <= j < |input[i].classes| ==> WideRows(input[i].classes[j].rows)
  }

  /** Every image file name and every class id of the predictions can be looked up. */
  predicate Resolvable(input: seq<ImageRows>, evalIds: map<string, int>, cls2coco: map<int, int>) {
    forall i :: 0 <= i < |input| ==>
      input[i].image in evalIds && forall j :: 0 <= j < |input[i].classes| ==> input[i].classes[j].cls in cls2coco
  }

  /** What the export leaves in a caller's box: columns 2 and 3 become width and height, the rest is kept. */
  function ToWidthHeight(row: seq<real>): (w: seq<real>)
    requires |row| >= 4
    ensures |w| == |row|
    ensures w[0] == row[0] && w[1] == row[1] && w[2] == row[2] - row[0] && w[3] == row[3] - row[1]
    ensures forall c :: 4 <= c < |row| ==> w[c] == row[c]
  {
    row[2 := row[2] - row[0]][3 := row[3] - row[1]]
  }

  function ToWidthHeightRows(rows: seq<seq<real>>): (ws: seq<seq<real>>)
    requires WideRows(rows)
  {
    seq(|rows|, k requires 0 <= k < |rows| => ToWidthHeight(rows[k]))
  }

  /** The record of one corner-form scored row. */
  function ToRecord(row: seq<real>, imageId: int, categoryId: int, round: real -> real): CocoDet
    requires |row| >= 5
  {
    CocoDet(imageId, categoryId, [round(row[0]), round(row[1]), round(row[2] - row[0]), round(row[3] - row[1])], round(row[4]))
  }

  /** The records of one class of one image: one per box, in row order. */
  function ClassRecords(rows: seq<seq<real>>, imageId: int, categoryId: int, round: real -> real): (ds: seq<CocoDet>)
    requires WideRows(rows)
    ensures |ds| == |rows|
    ensures forall k :: 0 <= k < |rows| ==> ds[k] == ToRecord(rows[k], imageId, categoryId, round)
  {
    if rows == [] then []
    else ClassRecords(rows[..|rows| - 1], imageId, categoryId, round) + [ToRecord(rows[|rows| - 1], imageId, categoryId, round)]
  }

  function ImageRecords(classes: seq<ClassRows>, imageId: int, cls2coco: map<int, int>, round: real -> real): seq<CocoDet>
    requires forall j :: 0 <= j < |classes| ==> classes[j].cls in cls2coco && WideRows(classes[j].rows)
  {
    if classes == [] then []
    else
      var last := classes[|classes| - 1];
      ImageRecords(classes[..|classes| - 1], imageId, cls2coco, round)
        + ClassRecords(last.rows, imageId, cls2coco[last.cls], round)
  }

  /** `convert_to_coco`'s output: images in order, classes in order within an image, boxes in row order. */
  function Records(input: seq<ImageRows>, evalIds: map<string, int>, cls2coco: map<int, int>, round: real -> real): seq<CocoDet>
    requires Resolvable(input, evalIds, cls2coco) && Wide(input)
  {
    if input == [] then []
    else
      var last := input[|input| - 1];
      Records(input[..|input| - 1], evalIds, cls2coco, round)
        + ImageRecords(last.classes, evalIds[last.image], cls2coco, round)
  }

  function ImageBoxCount(classes: seq<ClassRows>): nat {
    if classes == [] then 0 else ImageBoxCount(classes[..|classes| - 1]) + |classes[|classes| - 1].rows|
  }

  function BoxCount(input: seq<ImageRows>): nat {
    if input == [] then 0 else BoxCount(input[..|input| - 1]) + ImageBoxCount(input[|input| - 1].classes)
  }

  lemma {:induction false} ImageRecordCount(classes: seq<ClassRows>, imageId: int, cls2coco: map<int, int>, round: real -> real)
    requires forall j :: 0 <= j < |classes| ==> classes[j].cls in cls2coco && WideRows(classes[j].rows)
    ensures |ImageRecords(classes, imageId, cls2coco, round)| == ImageBoxCount(classes)
  {
    if classes != [] {
      ImageRecordCount(classes[..|classes| - 1], imageId, cls2coco, round);
    }
  }

  /** The export emits exactly one record per input box. */
  lemma {:induction false} RecordCount(input: seq<ImageRows>, evalIds: map<string, int>, cls2coco: map<int, int>, round: real -> real)
    requires Resolvable(input, evalIds, cls2coco) && Wide(input)
    ensures |Records(input, evalIds, cls2coco, round)| == BoxCount(input)
  {
    if input != [] {
      var last := input[|input| - 1];
      RecordCount(input[..|input| - 1], evalIds, cls2coco, round);
      ImageRecordCount(last.classes, evalIds[last.image], cls2coco, round);
    }
  }

  // The two directions of `RecordsMembers`, image by image and then over the whole input.
  lemma {:induction false} ImageRecordsOrigin(classes: seq<ClassRows>, imageId: int, cls2coco: map<int, int>, round: real -> real, d: CocoDet)
    returns (j: nat, k: nat)
    requires forall q :: 0 <= q < |classes| ==> classes[q].cls in cls2coco && WideRows(classes[q].rows)
    requires d in ImageRecords(classes, imageId, cls2coco, round)
    ensures j < |classes| && k < |classes[j].rows|
    ensures d == ToRecord(classes[j].rows[k], imageId, cls2coco[classes[j].cls], round)
  {
    var n := |classes| - 1;
    var recs := ClassRecords(classes[n].rows, imageId, cls2coco[classes[n].cls], round);
    if d in recs {
      j := n;
      k :| 0 <= k < |recs| && recs[k] == d;
    } else {
      j, k := ImageRecordsOrigin(classes[..n], imageId, cls2coco, round, d);
      assert classes[..n][j] == classes[j];
    }
  }

  lemma {:induction false} ImageRecordsHas(classes: seq<ClassRows>, imageId: int, cls2coco: map<int, int>, round: real -> real, j: nat, k: nat)
    requires forall q :: 0 <= q < |classes| ==> classes[q].cls in cls2coco && WideRows(classes[q].rows)
    requires j < |classes| && k < |classes[j].rows|
    ensures WideRows(classes[j].rows) && |classes[j].rows[k]| >= 5
    ensures ToRecord(classes[j].rows[k], imageId, cls2coco[classes[j].cls], round) in ImageRecords(classes, imageId, cls2coco, round)
  {
    var n := |classes| - 1;
    var recs := ClassRecords(classes[n].rows, imageId, cls2coco[classes[n].cls], round);
    if j == n {
      assert recs[k] == ToRecord(classes[j].rows[k], imageId, cls2coco[classes[j].cls], round);
    } else {
      ImageRecordsHas(classes[..n], imageId, cls2coco, round, j, k);
      assert classes[..n][j] == classes[j];
    }
  }

  lemma {:induction false} RecordsOrigin(input: seq<ImageRows>, evalIds: map<string, int>, cls2coco: map<int, int>, round: real -> real, d: CocoDet)
    returns (i: nat, j: nat, k: nat)
    requires Resolvable(input, evalIds, cls2coco) && Wide(input)
    requires d in Records(input, evalIds, cls2coco, round)
    ensures i < |input| && j < |input[i].classes| && k < |input[i].classes[j].rows|
    ensures d == ToRecord(input[i].classes[j].rows[k], evalIds[input[i].image], cls2coco[input[i].classes[j].cls], round)
  {
    var n := |input| - 1;
    var last := input[n];
    if d in ImageRecords(last.classes, evalIds[last.image], cls2coco, round) {
      i := n;
      j, k := ImageRecordsOrigin(last.classes, evalIds[last.image], cls2coco, round, d);
    } else {
      i, j, k := RecordsOrigin(input[..n], evalIds, cls2coco, round, d);
      assert input[..n][i] == input[i];
    }
  }

  lemma {:induction false} RecordsHas(input: seq<ImageRows>, evalIds: map<string, int>, cls2coco: map<int, int>, round: real -> real, i: nat, j: nat, k: nat)
    requires Resolvable(input, evalIds, cls2coco) && Wide(input)
    requires i < |input| && j < |input[i].classes| && k < |input[i].classes[j].rows|
    ensures ToRecord(input[i].classes[j].rows[k], evalIds[input[i].image], cls2coco[input[i].classes[j].cls], round)
      in Records(input, evalIds, cls2coco, round)
  {
    var n := |input| - 1;
    if i == n {
      ImageRecordsHas(input[n].classes, evalIds[input[n].image], cls2coco, round, j, k);
    } else {
      RecordsHas(input[..n], evalIds, cls2coco, round, i, j, k);
      assert input[..n][i] == input[i];
    }
  }

  /**
   * The export holds exactly the records of the input boxes: each carries the
   * COCO id of its image's file name and of its class.
   */
  lemma RecordsMembers(input: seq<ImageRows>, evalIds: map<string, int>, cls2coco: map<int, int>, round: real -> real, d: CocoDet)
    requires Resolvable(input, evalIds, cls2coco) && Wide(input)
    ensures d in Records(input, evalIds, cls2coco, round) <==>
      exists i, j, k :: 0 <= i < |input| && 0 <= j < |input[i].classes| && 0 <= k < |input[i].classes[j].rows|
                        && d == ToRecord(input[i].classes[j].rows[k], evalIds[input[i].image], cls2coco[input[i].classes[j].cls], round)
  {
    if d in Records(input, evalIds, cls2coco, round) {
      var i, j, k := RecordsOrigin(input, evalIds, cls2coco, round, d);
    }
    if exists i, j, k :: 0 <= i < |input| && 0 <= j < |input[i].classes| && 0 <= k < |input[i].classes[j].rows|
                         && d == ToRecord(input[i].classes[j].rows[k], evalIds[input[i].image], cls2coco[input[i].classes[j].cls], round) {
      var i, j, k :| 0 <= i < |input| && 0 <= j < |input[i].classes| && 0 <= k < |input[i].classes[j].rows|
                     && d == ToRecord(input[i].classes[j].rows[k], evalIds[input[i].image], cls2coco[input[i].classes[j].cls], round);
      RecordsHas(input, evalIds, cls2coco, round, i, j, k);
    }
  }

  /**
   * Exporting a ground-truth row without rounding gives back the annotation
   * box it was built from: the corner form and the export invert each other.
   */
  lemma CornerThenExport(b: BoxWH, cls: int, score: real, imageId: int, categoryId: int)
    ensures var g := Corner(b, cls);
      ToRecord([g.x1, g.y1, g.x2, g.y2, score], imageId, categoryId, x => x) == CocoDet(imageId, categoryId, [b.x, b.y, b.w, b.h], score)
  {
  }

  /** `w` is `row` with columns 2 and 3 turned into width and height. */
  predicate IsWidthHeightOf(w: seq<real>, row: seq<real>)
    requires |row| >= 5
  {
    && |w| == |row|
    && w[0] == row[0] && w[1] == row[1] && w[2] == row[2] - row[0] && w[3] == row[3] - row[1]
    && forall c :: 4 <= c < |row| ==> w[c] == row[c]
  }

  lemma WidthHeightRows(after: seq<seq<real>>, before: seq<seq<real>>)
    requires WideRows(before) && |after| == |before|
    requires forall p :: 0 <= p < |before| ==> IsWidthHeightOf(after[p], before[p])
    ensures after == ToWidthHeightRows(before)
  {
    forall p | 0 <= p < |before| ensures after[p] == ToWidthHeight(before[p]) {
      assert IsWidthHeightOf(after[p], before[p]);
    }
  }

  /**
   * One step of the innermost loop: rewrite box `k`, whose cells are `row`,
   * in place and build its record from the rewritten cells.
   */
  method ConvertBox(boxes: array2<real>, k: int, ghost row: seq<real>, imageId: int, categoryId: int, round: real -> real)
    returns (d: CocoDet)
    requires 0 <= k < boxes.Length0 && boxes.Length1 >= 5 && |row| == boxes.Length1
    requires forall c :: 0 <= c < boxes.Length1 ==> boxes[k, c] == row[c]
    modifies boxes
    ensures d == ToRecord(row, imageId, categoryId, round)
    ensures boxes[k, 2] == row[2] - row[0] && boxes[k, 3] == row[3] - row[1]
    ensures forall p, c :: 0 <= p < boxes.Length0 && 0 <= c < boxes.Length1 && (p != k || (c != 2 && c != 3)) ==>
      boxes[p, c] == old(boxes[p, c])
  {
    boxes[k, 2] := boxes[k, 2] - boxes[k, 0];
    boxes[k, 3] := boxes[k, 3] - boxes[k, 1];
    var score := boxes[k, 4];
    var bbox := [round(boxes[k, 0]), round(boxes[k, 1]), round(boxes[k, 2]), round(boxes[k, 3])];
    d := CocoDet(imageId, categoryId, bbox, round(score));
  }

  /** The innermost loop of `convert_to_coco`: rewrite each box in place and emit its record. */
  method ConvertBoxes(boxes: array2<real>, imageId: int, categoryId: int, round: real -> real) returns (recs: seq<CocoDet>)
    requires boxes.Length1 >= 5
    modifies boxes
    ensures WideRows(old(Rows(boxes)))
    ensures Rows(boxes) == ToWidthHeightRows(old(Rows(boxes)))
    ensures recs == ClassRecords(old(Rows(boxes)), imageId, categoryId, round)
  {
    ghost var before := Rows(boxes);
    RowsAt(boxes);
    recs := [];
    var k := 0;
    while k < boxes.Length0
      invariant 0 <= k <= boxes.Length0
      invariant forall p, c :: 0 <= p < boxes.Length0 && 0 <= c < boxes.Length1 && (k <= p || (c != 2 && c != 3)) ==>
        boxes[p, c] == before[p][c]
      invariant forall p :: 0 <= p < k ==> boxes[p, 2] == before[p][2] - before[p][0] && boxes[p, 3] == before[p][3] - before[p][1]
      invariant |recs| == k && forall p :: 0 <= p < k ==> recs[p] == ToRecord(before[p], imageId, categoryId, round)
    {
      var d := ConvertBox(boxes, k, before[k], imageId, categoryId, round);
      recs := recs + [d];
      k := k + 1;
    }
    ghost var after := Rows(boxes);
    RowsAt(boxes);
    forall p | 0 <= p < boxes.Length0
      ensures IsWidthHeightOf(after[p], before[p])
    {
    }
    WidthHeightRows(after, before);
  }

  lemma ImageRecordsSnoc(classes: seq<ClassRows>, j: nat, imageId: int, cls2coco: map<int, int>, round: real -> real)
    requires j < |classes|
    requires forall q :: 0 <= q <= j ==> classes[q].cls in cls2coco && WideRows(classes[q].rows)
    ensures ImageRecords(classes[..j + 1], imageId, cls2coco, round)
      == ImageRecords(classes[..j], imageId, cls2coco, round) + ClassRecords(classes[j].rows, imageId, cls2coco[classes[j].cls], round)
  {
    assert classes[..j + 1][..j] == classes[..j];
  }

  lemma RecordsSnoc(input: seq<ImageRows>, i: nat, evalIds: map<string, int>, cls2coco: map<int, int>, round: real -> real)
    requires i < |input|
    requires Resolvable(input[..i], evalIds, cls2coco) && Wide(input[..i])
    requires input[i].image in evalIds
    requires forall j :: 0 <= j < |input[i].classes| ==> input[i].classes[j].cls in cls2coco && WideRows(input[i].classes[j].rows)
    ensures Resolvable(input[..i + 1], evalIds, cls2coco) && Wide(input[..i + 1])
    ensures Records(input[..i + 1], evalIds, cls2coco, round)
      == Records(input[..i], evalIds, cls2coco, round) + ImageRecords(input[i].classes, evalIds[input[i].image], cls2coco, round)
  {
    assert input[..i + 1][..i] == input[..i];
    assert input[..i + 1][i] == input[i];
  }

  /** Each class of one image holds its own array. */
  predicate OwnClassArrays(classes: seq<ClassBoxes>) {
    forall j1, j2 :: 0 <= j1 < j2 < |classes| ==> classes[j1].boxes != classes[j2].boxes
  }

  /** The position of the first class whose id `cls2coco` does not know, or `|classes|` when it knows them all. */
  function FirstUnknownClass(classes: seq<ClassBoxes>, cls2coco: map<int, int>): (k: nat)
    ensures k <= |classes|
    ensures forall q :: 0 <= q < k ==> classes[q].cls in cls2coco
    ensures k < |classes| ==> classes[k].cls !in cls2coco
  {
    if classes == [] || classes[0].cls !in cls2coco then 0
    else 1 + FirstUnknownClass(classes[1..], cls2coco)
  }

  /** One turn of the class loop: class `j`'s boxes are converted and the other classes' arrays are left alone. */
  method ConvertClassAt(classes: seq<ClassBoxes>, j: nat, imageId: int, categoryId: int, round: real -> real)
    returns (rs: seq<CocoDet>)
    requires j < |classes| && classes[j].boxes.Length1 >= 5
    requires OwnClassArrays(classes)
    modifies classes[j].boxes
    ensures rs == ClassRecords(old(Rows(classes[j].boxes)), imageId, categoryId, round)
    ensures Rows(classes[j].boxes) == ToWidthHeightRows(old(Rows(classes[j].boxes)))
    ensures forall q :: 0 <= q < |classes| && q != j ==> Rows(classes[q].boxes) == old(Rows(classes[q].boxes))
  {
    rs := ConvertBoxes(classes[j].boxes, imageId, categoryId, round);
    forall q | 0 <= q < |classes| && q != j
      ensures Rows(classes[q].boxes) == old(Rows(classes[q].boxes))
    {
      assert classes[q].boxes != classes[j].boxes;
    }
  }

  /** The classes after a class loop that stopped at position `k`: those before `k` rewritten, the rest as they were. */
  function PartlyConverted(before: seq<ClassRows>, k: nat): (after: seq<ClassRows>)
    requires k <= |before| && forall j :: 0 <= j < k ==> WideRows(before[j].rows)
    ensures |after| == |before|
    ensures forall j :: 0 <= j < |before| ==> after[j].cls == before[j].cls
    ensures forall j :: 0 <= j < |before| ==>
      after[j].rows == if j < k then ToWidthHeightRows(before[j].rows) else before[j].rows
  {
    seq(|before|, j requires 0 <= j < |before| =>
      ClassRows(before[j].cls, if j < k then ToWidthHeightRows(before[j].rows) else before[j].rows))
  }

  /** Classes that agree with `PartlyConverted` position by position are equal to it. */
  lemma PartlyConvertedAt(after: seq<ClassRows>, before: seq<ClassRows>, k: nat)
    requires |after| == |before| && k <= |before| && forall j :: 0 <= j < k ==> WideRows(before[j].rows)
    requires forall j :: 0 <= j < |before| ==> after[j].cls == before[j].cls
    requires forall j :: 0 <= j < k ==> after[j].rows == ToWidthHeightRows(before[j].rows)
    requires forall j :: k <= j < |before| ==> after[j].rows == before[j].rows
    ensures after == PartlyConverted(before, k)
  {
  }

  /** A class that `cls2coco` does not know, after classes it all knows, is the first unknown one. */
  lemma FirstUnknownClassAt(classes: seq<ClassBoxes>, cls2coco: map<int, int>, j: nat)
    requires j < |classes| && classes[j].cls !in cls2coco
    requires forall q :: 0 <= q < j ==> classes[q].cls in cls2coco
    ensures FirstUnknownClass(classes, cls2coco) == j
  {
  }

  /**
   * The class loop of `convert_to_coco` for one image: every class id must be
   * known (otherwise KeyError); each class's boxes are rewritten in place and
   * their records follow one another in class order.
   */
  method ConvertImage(classes: seq<ClassBoxes>, imageId: int, cls2coco: map<int, int>, round: real -> real)
    returns (r: Result<seq<CocoDet>>)
    requires forall j :: 0 <= j < |classes| ==> classes[j].boxes.Length1 >= 5
    requires OwnClassArrays(classes)
    modifies ClassArrays(classes)
    ensures r.Success? <==> forall j :: 0 <= j < |classes| ==> classes[j].cls in cls2coco
    ensures r.Failure? ==> r.error == KeyError
    ensures r.Success? ==> r.value == ImageRecords(old(ClassSnapshot(classes)), imageId, cls2coco, round)
    ensures r.Success? ==> forall j :: 0 <= j < |classes| ==>
      Rows(classes[j].boxes) == ToWidthHeightRows(old(Rows(classes[j].boxes)))
    ensures r.Failure? ==> forall j :: 0 <= j < |classes| ==>
      Rows(classes[j].boxes) ==
        if j < FirstUnknownClass(classes, cls2coco) then ToWidthHeightRows(old(Rows(classes[j].boxes)))
        else old(Rows(classes[j].boxes))
  {
    ghost var before := ClassSnapshot(classes);
    ClassSnapshotAt(classes);
    forall q | 0 <= q < |classes|
      ensures WideRows(before[q].rows)
    {
      RowsAt(classes[q].boxes);
    }
    var recs := [];
    var j := 0;
    while j < |classes| && classes[j].cls in cls2coco
      invariant 0 <= j <= |classes|
      invariant forall q :: 0 <= q < |classes| ==> WideRows(before[q].rows)
      invariant forall q :: 0 <= q < j ==> classes[q].cls in cls2coco
      invariant recs == ImageRecords(before[..j], imageId, cls2coco, round)
      invariant forall q :: 0 <= q < j ==> Rows(classes[q].boxes) == ToWidthHeightRows(before[q].rows)
      invariant forall q :: j <= q < |classes| ==> Rows(classes[q].boxes) == before[q].rows
    {
      ImageRecordsSnoc(before, j, imageId, cls2coco, round);
      var rs := ConvertClassAt(classes, j, imageId, cls2coco[classes[j].cls], round);
      recs := recs + rs;
      j := j + 1;
    }
    if j < |classes| {
      FirstUnknownClassAt(classes, cls2coco, j);
      forall q | 0 <= q < |classes|
        ensures Rows(classes[q].boxes) == if q < j then ToWidthHeightRows(before[q].rows) else before[q].rows
      {
      }
      return Failure(KeyError);
    }
    assert before[..j] == before;
    return Success(recs);
  }

  /**
   * One turn of the image loop of `convert_to_coco` for image `i`, whose
   * current contents are `current`: its file name must be known (otherwise
   * KeyError), then its classes are converted; the arrays of every other
   * image are left as they were.
   */
  method ConvertImageAt(input: seq<ImageBoxes>, i: nat, ghost current: ImageRows,
                        evalIds: map<string, int>, cls2coco: map<int, int>, round: real -> real)
    returns (r: Result<seq<CocoDet>>)
    requires i < |input| && WideArrays(input) && OwnArrays(input)
    requires current == ImageRows(input[i].image, ClassSnapshot(input[i].classes))
    modifies ClassArrays(input[i].classes)
    ensures forall j :: 0 <= j < |current.classes| ==> WideRows(current.classes[j].rows)
    ensures r.Success? <==>
      current.image in evalIds && forall j :: 0 <= j < |current.classes| ==> current.classes[j].cls in cls2coco
    ensures r.Failure? ==> r.error == KeyError
    ensures r.Success? ==> r.value == ImageRecords(current.classes, evalIds[current.image], cls2coco, round)
    ensures r.Success? ==> forall j :: 0 <= j < |input[i].classes| ==>
      Rows(input[i].classes[j].boxes) == ToWidthHeightRows(current.classes[j].rows)
    ensures r.Failure? && current.image !in evalIds ==> ClassSnapshot(input[i].classes) == current.classes
    ensures r.Failure? && current.image in evalIds ==>
      ClassSnapshot(input[i].classes) == PartlyConverted(current.classes, FirstUnknownClass(input[i].classes, cls2coco))
    ensures forall p, j :: 0 <= p < |input| && p != i && 0 <= j < |input[p].classes| ==>
      Rows(input[p].classes[j].boxes) == old(Rows(input[p].classes[j].boxes))
  {
    var classes := input[i].classes;
    ClassSnapshotAt(classes);
    forall j | 0 <= j < |classes|
      ensures WideRows(current.classes[j].rows)
    {
      RowsAt(classes[j].boxes);
    }
    var image := input[i].image;
    if image !in evalIds {
      return Failure(KeyError);
    }
    r := ConvertImage(classes, evalIds[image], cls2coco, round);
    if r.Failure? {
      var k := FirstUnknownClass(classes, cls2coco);
      ClassSnapshotAt(classes);
      forall j | 0 <= j < |classes|
        ensures ClassSnapshot(classes)[j].rows == if j < k then ToWidthHeightRows(current.classes[j].rows) else current.classes[j].rows
      {
      }
      PartlyConvertedAt(ClassSnapshot(classes), current.classes, k);
    }
    forall p, j | 0 <= p < |input| && p != i && 0 <= j < |input[p].classes|
      ensures Rows(input[p].classes[j].boxes) == old(Rows(input[p].classes[j].boxes))
    {
      assert input[p].classes[j].boxes !in ClassArrays(classes);
    }
  }
}
