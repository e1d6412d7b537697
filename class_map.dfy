/**
 * The four class dictionaries of the CUSTOM dataset, built from the parallel
 * lists of COCO category ids and names: internal id -> COCO id, its inverse,
 * COCO id -> name, and name -> COCO id. Internal ids are 1..K.
 */
module ClassMap {
  import opened Wrappers
  import opened Py

  // The category lists the dataset is configured with.
  const CocoClsIds: seq<int> := [1]
  const CocoClsNames: seq<string> := ["insects"]

  /** `_cls2coco = {ind + 1: coco_id for ind, coco_id in enumerate(ids)}` */
  function Cls2Coco(ids: seq<int>): map<int, int> {
    FromPairs(Enumerate1(ids))
  }

  /** `_coco2cls = {coco_id: cls_id for cls_id, coco_id in _cls2coco.items()}` */
  function Coco2Cls(ids: seq<int>): map<int, int> {
    FromPairs(Swap(Items(Enumerate1(ids))))
  }

  /** `_coco2name = {cls_id: cls_name for cls_id, cls_name in zip(ids, names)}` */
  function Coco2Name(ids: seq<int>, names: seq<string>): map<int, string> {
    FromPairs(Zip(ids, names))
  }

  /**
   * `_name2coco = {cls_name: cls_id for cls_name, cls_id in _coco2name.items()}`
   * as written: `.items()` yields `(coco_id, name)` pairs and the comprehension
   * unpacks them in that order, so the COCO id stays the key and the name the value.
   */
  function Name2CocoAsWritten(ids: seq<int>, names: seq<string>): map<int, string> {
    FromPairs(Items(Zip(ids, names)))
  }

  /** The name-to-COCO-id dictionary the field's name promises: `_coco2name` with every pair swapped. */
  function Name2Coco(ids: seq<int>, names: seq<string>): map<string, int> {
    FromPairs(Swap(Items(Zip(ids, names))))
  }

  /** `cls2name`: the name of an internal class, through its COCO id; a missing key raises KeyError. */
  function NameOf(cls2coco: map<int, int>, coco2name: map<int, string>, cls: int): (r: Result<string>)
    ensures r.Success? <==> cls in cls2coco && cls2coco[cls] in coco2name
    ensures r.Success? ==> r.value == coco2name[cls2coco[cls]]
    ensures r.Failure? ==> r.error == KeyError
  {
    if cls !in cls2coco then Failure(KeyError)
    else
      var coco := cls2coco[cls];
      if coco !in coco2name then Failure(KeyError) else Success(coco2name[coco])
  }

  lemma EnumerateKeysDistinct(ids: seq<int>)
    ensures Distinct(Firsts(Enumerate1(ids)))
  {
  }

  /** The internal ids are exactly 1..K and internal id c names the c-th COCO id. */
  lemma Cls2CocoAt(ids: seq<int>)
    ensures forall c :: c in Cls2Coco(ids) <==> 1 <= c <= |ids|
    ensures forall c :: 1 <= c <= |ids| ==> Cls2Coco(ids)[c] == ids[c - 1]
  {
    var ps := Enumerate1(ids);
    forall c | 1 <= c <= |ids|
      ensures c in Cls2Coco(ids) && Cls2Coco(ids)[c] == ids[c - 1]
    {
      FromPairsAt(ps, c - 1);
    }
    forall c | c in Cls2Coco(ids)
      ensures 1 <= c <= |ids|
    {
      assert c in Firsts(ps);
    }
  }

  /** `_coco2cls` is `_cls2coco` swapped: a later class wins a shared COCO id. */
  lemma Coco2ClsIsSwap(ids: seq<int>)
    ensures Coco2Cls(ids) == FromPairs(Swap(Enumerate1(ids)))
  {
    EnumerateKeysDistinct(ids);
    ItemsOfDistinct(Enumerate1(ids));
  }

  /** From COCO id to internal id and back always returns the COCO id, duplicates or not. */
  lemma Coco2ClsThenCls2Coco(ids: seq<int>, k: int)
    requires k in Coco2Cls(ids)
    ensures Coco2Cls(ids)[k] in Cls2Coco(ids) && Cls2Coco(ids)[Coco2Cls(ids)[k]] == k
  {
    Coco2ClsIsSwap(ids);
    var i := FromPairsOrigin(Swap(Enumerate1(ids)), k);
    Cls2CocoAt(ids);
  }

  /** With distinct COCO ids, from internal id to COCO id and back returns the internal id. */
  lemma Cls2CocoThenCoco2Cls(ids: seq<int>, c: int)
    requires Distinct(ids)
    requires 1 <= c <= |ids|
    ensures c in Cls2Coco(ids) && Cls2Coco(ids)[c] == ids[c - 1]
    ensures Cls2Coco(ids)[c] in Coco2Cls(ids) && Coco2Cls(ids)[Cls2Coco(ids)[c]] == c
  {
    Cls2CocoAt(ids);
    Coco2ClsIsSwap(ids);
    var sw := Swap(Enumerate1(ids));
    assert sw[c - 1] == (ids[c - 1], c);
    forall j | c - 1 < j < |sw|
      ensures sw[j].0 != sw[c - 1].0
    {
      assert sw[j].0 == ids[j];
    }
    FromPairsAt(sw, c - 1);
  }

  /** With distinct COCO ids, the first min(K, |names|) classes are named in list order. */
  lemma Coco2NameAt(ids: seq<int>, names: seq<string>, c: int)
    requires Distinct(ids)
    requires 1 <= c <= |ids| && c <= |names|
    ensures ids[c - 1] in Coco2Name(ids, names) && Coco2Name(ids, names)[ids[c - 1]] == names[c - 1]
  {
    FromPairsAt(Zip(ids, names), c - 1);
  }

  /** With distinct names, the COCO-id-to-name dictionary never gives two ids one name. */
  lemma Coco2NameInjective(ids: seq<int>, names: seq<string>, k1: int, k2: int)
    requires Distinct(names)
    requires k1 in Coco2Name(ids, names) && k2 in Coco2Name(ids, names) && k1 != k2
    ensures Coco2Name(ids, names)[k1] != Coco2Name(ids, names)[k2]
  {
    var i1 := FromPairsOrigin(Zip(ids, names), k1);
    var i2 := FromPairsOrigin(Zip(ids, names), k2);
  }

  /** With distinct names, from a COCO id to its name and back through the swapped dictionary returns the COCO id. */
  lemma Name2CocoInverse(ids: seq<int>, names: seq<string>, k: int)
    requires Distinct(names)
    requires k in Coco2Name(ids, names)
    ensures Coco2Name(ids, names)[k] in Name2Coco(ids, names)
    ensures Name2Coco(ids, names)[Coco2Name(ids, names)[k]] == k
  {
    var ps := Zip(ids, names);
    var items := Items(ps);
    var m := Coco2Name(ids, names);
    assert k in Firsts(ps);
    assert k in Firsts(items);
    var i :| 0 <= i < |items| && items[i].0 == k;
    forall j | i < j < |items|
      ensures Swap(items)[j].0 != Swap(items)[i].0
    {
      assert Firsts(items)[i] != Firsts(items)[j];
      Coco2NameInjective(ids, names, items[i].0, items[j].0);
    }
    FromPairsAt(Swap(items), i);
  }

  /**
   * As written, `_name2coco` is a copy of `_coco2name`, whatever the lists:
   * it is keyed by COCO id and holds names.
   */
  lemma Name2CocoAsWrittenIsCopy(ids: seq<int>, names: seq<string>)
    ensures Name2CocoAsWritten(ids, names) == Coco2Name(ids, names)
  {
    FromPairsOfItems(Zip(ids, names));
  }

  /**
   * So the lookup the field's name promises fails: the name of the configured
   * class is not a key (the only key is the COCO id 1), and
   * `_name2coco[_coco2name[1]]` raises KeyError; the swapped dictionary
   * `Name2Coco` answers it with 1.
   */
  lemma Name2CocoAsWrittenMissesNames()
    ensures Coco2Name(CocoClsIds, CocoClsNames)[1] == "insects"
    ensures Name2CocoAsWritten(CocoClsIds, CocoClsNames).Keys == {1}
    ensures Name2Coco(CocoClsIds, CocoClsNames)["insects"] == 1
  {
    ConfiguredClasses();
    Name2CocoAsWrittenIsCopy(CocoClsIds, CocoClsNames);
  }

  /**
   * For any class lists with distinct COCO ids, internal class `c` is named by
   * the `c`-th name, as far as the names go.
   */
  lemma NameOfAt(ids: seq<int>, names: seq<string>, c: int)
    requires Distinct(ids)
    requires 1 <= c <= |ids| && c <= |names|
    ensures NameOf(Cls2Coco(ids), Coco2Name(ids, names), c) == Success(names[c - 1])
  {
    Cls2CocoAt(ids);
    Coco2NameAt(ids, names, c);
  }

  /** The configured lists: one class, COCO id 1, named "insects", and the maps built from them. */
  lemma ConfiguredClasses()
    ensures Cls2Coco(CocoClsIds) == map[1 := 1]
    ensures Coco2Cls(CocoClsIds) == map[1 := 1]
    ensures Coco2Name(CocoClsIds, CocoClsNames) == map[1 := "insects"]
    ensures Name2CocoAsWritten(CocoClsIds, CocoClsNames) == map[1 := "insects"]
    ensures Name2Coco(CocoClsIds, CocoClsNames) == map["insects" := 1]
  {
    ItemsOfDistinct(Enumerate1(CocoClsIds));
    ItemsOfDistinct(Zip(CocoClsIds, CocoClsNames));
    assert Zip(CocoClsIds, CocoClsNames) == [(1, "insects")];
    assert Enumerate1(CocoClsIds) == [(1, 1)];
  }
}
