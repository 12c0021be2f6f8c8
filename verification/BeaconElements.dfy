/** Beacon elements as a list, their encoding, and what adding and removing one does to the list. */
module BeaconElements {

  import opened Basics

  /** An information element; its length octet is the length of its data. */
  datatype Element = Element(id: Byte, data: seq<Byte>)

  predicate Fits(e: Element) {
    |e.data| < 256
  }

  predicate AllFit(es: seq<Element>) {
    forall k :: 0 <= k < |es| ==> Fits(es[k])
  }

  function EncodeOne(e: Element): (bytes: seq<Byte>)
    requires Fits(e)
    ensures |bytes| == |e.data| + 2
  {
    [e.id, |e.data|] + e.data
  }

  function Encode(es: seq<Element>): seq<Byte>
    requires AllFit(es)
  {
    if es == [] then [] else EncodeOne(es[0]) + Encode(es[1..])
  }

  lemma {:induction false} EncodeConcat(a: seq<Element>, b: seq<Element>)
    requires AllFit(a) && AllFit(b)
    ensures AllFit(a + b) && Encode(a + b) == Encode(a) + Encode(b)
  {
    assert forall k :: 0 <= k < |a + b| ==> Fits((a + b)[k]);
    if a == [] {
      assert a + b == b;
    } else {
      assert (a + b)[1..] == a[1..] + b;
      EncodeConcat(a[1..], b);
    }
  }

  /** Element e in the encoding, with what is before and after it. */
  lemma EncodeAround(a: seq<Element>, e: Element, b: seq<Element>)
    requires AllFit(a) && Fits(e) && AllFit(b)
    ensures AllFit(a + [e] + b) && Encode(a + [e] + b) == Encode(a) + EncodeOne(e) + Encode(b)
    ensures AllFit(a + [e]) && Encode(a + [e]) == Encode(a) + EncodeOne(e)
  {
    EncodeConcat(a, [e]);
    EncodeConcat(a + [e], b);
    assert Encode([e]) == EncodeOne(e) + Encode([]);
  }

  // ---------------------------------------------------------------------------
  // Adding and removing, as the driver does it on any list
  // ---------------------------------------------------------------------------

  /** The first element whose id is not below the given one. */
  function Position(es: seq<Element>, id: Byte): (k: nat)
    ensures k <= |es|
    ensures forall j :: 0 <= j < k ==> es[j].id < id
    ensures k < |es| ==> es[k].id >= id
  {
    if es == [] || es[0].id >= id then 0 else 1 + Position(es[1..], id)
  }

  /** `rtw_add_bcn_ie`. */
  function Add(es: seq<Element>, id: Byte, data: seq<Byte>): seq<Element> {
    var k := Position(es, id);
    if k < |es| && es[k].id == id then
      if es[k].data == [] then es else es[k := Element(id, data)]
    else if k == 0 || es[k - 1].data == [] then es
    else es[..k] + [Element(id, data)] + es[k..]
  }

  /** By how many bytes the encoding grows; negative when a longer element is replaced. */
  function Growth(es: seq<Element>, id: Byte, data: seq<Byte>): int {
    var k := Position(es, id);
    if k < |es| && es[k].id == id then
      if es[k].data == [] then 0 else |data| - |es[k].data|
    else if k == 0 || es[k - 1].data == [] then 0
    else |data| + 2
  }

  /** `rtw_get_ie`: the first element with the id, anywhere. */
  function Find(es: seq<Element>, id: Byte): (k: nat)
    ensures k <= |es|
    ensures forall j :: 0 <= j < k ==> es[j].id != id
    ensures k < |es| ==> es[k].id == id
  {
    if es == [] || es[0].id == id then 0 else 1 + Find(es[1..], id)
  }

  /** `rtw_remove_bcn_ie`. */
  function Remove(es: seq<Element>, id: Byte): seq<Element> {
    var k := Find(es, id);
    if k < |es| && es[k].data != [] then es[..k] + es[k + 1..] else es
  }

  // ---------------------------------------------------------------------------
  // On sorted lists
  // ---------------------------------------------------------------------------

  ghost predicate Sorted(es: seq<Element>) {
    forall i, j :: 0 <= i < j < |es| ==> es[i].id < es[j].id
  }

  ghost predicate NonEmpty(es: seq<Element>) {
    forall k :: 0 <= k < |es| ==> es[k].data != []
  }

  ghost predicate Has(es: seq<Element>, id: Byte) {
    exists k :: 0 <= k < |es| && es[k].id == id
  }

  lemma HasOnlyAt(es: seq<Element>, id: Byte)
    requires Sorted(es)
    ensures Has(es, id) <==> Position(es, id) < |es| && es[Position(es, id)].id == id
  {
  }

  lemma InsertSorted(es: seq<Element>, k: nat, e: Element)
    requires Sorted(es) && k <= |es|
    requires forall j :: 0 <= j < k ==> es[j].id < e.id
    requires k < |es| ==> e.id < es[k].id
    ensures Sorted(es[..k] + [e] + es[k..])
  {
    var r := es[..k] + [e] + es[k..];
    assert forall j :: 0 <= j < k ==> r[j] == es[j];
    assert forall j :: k < j < |r| ==> r[j] == es[j - 1];
  }

  /**
    On a sorted list whose first id is not above the given id, with no empty
    element: the element is replaced, or put between the smaller and the greater
    ids; every other element stays, in order, and the list stays sorted.
   */
  lemma AddIsExact(es: seq<Element>, id: Byte, data: seq<Byte>)
    requires Sorted(es) && NonEmpty(es) && es != [] && es[0].id <= id
    ensures var r, k := Add(es, id, data), Position(es, id);
            && Sorted(r)
            && k < |r| && r[k] == Element(id, data)
            && r[..k] == es[..k]
            && r[k + 1..] == es[if Has(es, id) then k + 1 else k..]
    ensures Has(es, id) <==> Position(es, id) < |es| && es[Position(es, id)].id == id
  {
    var r, k := Add(es, id, data), Position(es, id);
    if k < |es| && es[k].id == id {
      assert r[..k] == es[..k] && r[k + 1..] == es[k + 1..];
    } else {
      var front, back := es[..k], es[k..];
      HasOnlyAt(es, id);
      InsertSorted(es, k, Element(id, data));
      assert r == front + [Element(id, data)] + back;
      assert r[..k] == front && r[k + 1..] == back;
    }
  }

  /**
    Exactly when adding an absent element to any list has any effect: there
    is an element in front of its place, and that one is not empty.
   */
  lemma AddWorksExactly(es: seq<Element>, id: Byte, data: seq<Byte>)
    requires !Has(es, id)
    ensures Has(Add(es, id, data), id)
       <==> Position(es, id) > 0 && es[Position(es, id) - 1].data != []
    ensures !Has(Add(es, id, data), id) ==> Add(es, id, data) == es
  {
    var k := Position(es, id);
    if k > 0 && es[k - 1].data != [] {
      assert Add(es, id, data)[k] == Element(id, data);
    }
  }

  /** One element more in the encoding. */
  lemma EncodedSize(a: seq<Element>, e: Element, b: seq<Element>)
    requires AllFit(a) && Fits(e) && AllFit(b)
    ensures AllFit(a + [e] + b) && AllFit(a + b)
    ensures |Encode(a + [e] + b)| == |Encode(a + b)| + |e.data| + 2
  {
    EncodeAround(a, e, b);
    EncodeConcat(a, b);
  }

  lemma PutSize(es: seq<Element>, k: nat, e: Element)
    requires AllFit(es) && Fits(e) && k < |es|
    ensures AllFit(es[k := e]) && |Encode(es[k := e])| == |Encode(es)| + |e.data| - |es[k].data|
  {
    var front, back := es[..k], es[k + 1..];
    EncodedSize(front, e, back);
    EncodedSize(front, es[k], back);
    assert es == front + [es[k]] + back && es[k := e] == front + [e] + back;
  }

  /** The encoding grows by exactly what the capacity test reckons with. */
  lemma GrowthIsExact(es: seq<Element>, id: Byte, data: seq<Byte>)
    requires AllFit(es) && |data| < 256
    ensures var r := Add(es, id, data);
            AllFit(r) && |Encode(r)| == |Encode(es)| + Growth(es, id, data)
  {
    var e, k := Element(id, data), Position(es, id);
    if k < |es| && es[k].id == id {
      PutSize(es, k, e);
    } else {
      EncodedSize(es[..k], e, es[k..]);
      assert es == es[..k] + es[k..];
    }
  }

  /** Removing undoes adding, when the element was absent and is not empty. */
  lemma RemoveUndoesAdd(es: seq<Element>, id: Byte, data: seq<Byte>)
    requires !Has(es, id) && data != []
    ensures Remove(Add(es, id, data), id) == es
  {
    var r, k := Add(es, id, data), Position(es, id);
    if r != es {
      assert r[k] == Element(id, data);
      assert forall j :: 0 <= j < k ==> r[j] == es[j];
      assert Find(r, id) == k;
      assert r[..k] + r[k + 1..] == es;
    } else {
      assert Find(es, id) == |es|;
    }
  }

  /** An empty element, once added, cannot be removed: its round trip fails. */
  lemma EmptyElementStays(es: seq<Element>, id: Byte)
    requires !Has(es, id) && Has(Add(es, id, []), id)
    ensures Remove(Add(es, id, []), id) == Add(es, id, []) != es
  {
    var k := Position(es, id);
    AddWorksExactly(es, id, []);
    var r := Add(es, id, []);
    assert r[k] == Element(id, []);
    assert forall j :: 0 <= j < k ==> r[j] == es[j];
    assert Find(r, id) == k;
  }
}
