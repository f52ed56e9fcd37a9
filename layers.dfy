/**
 * The editor's layer record (`EditorLayer`) and the array operations the editor's handlers apply
 * to the layer stack: `find`, `findIndex`, `map` over one id, `filter` by id and a two-element swap.
 * Array order is z-order: index 0 is drawn first, at the bottom.
 */
module Layers {
  import opened Wrappers
  import Seqs

  /** The reserved id of the base layer. */
  const BaseId: string := "base"

  /** Position and size are percentages of the canvas; rotation is in degrees. */
  datatype Layer = Layer(
    id: string,
    image: string,
    x: real,
    y: real,
    width: real,
    height: real,
    rotation: real,
    opacity: real,
    isBase: bool)

  /** The layer the editor opens with: the whole canvas, unrotated, opaque. */
  function BaseLayer(image: string): Layer
  {
    Layer(BaseId, image, 0.0, 0.0, 100.0, 100.0, 0.0, 1.0, true)
  }

  /** The numeric fields the property inputs edit. */
  datatype Property = X | Y | Width | Height | Rotation | Opacity

  function Get(l: Layer, p: Property): real
  {
    match p
    case X => l.x
    case Y => l.y
    case Width => l.width
    case Height => l.height
    case Rotation => l.rotation
    case Opacity => l.opacity
  }

  /** `{ ...l, [property]: value }`: the named field takes the value, every other field is kept. */
  function WithProperty(l: Layer, p: Property, v: real): (r: Layer)
    ensures Get(r, p) == v
    ensures forall q :: q != p ==> Get(r, q) == Get(l, q)
    ensures r.id == l.id && r.image == l.image && r.isBase == l.isBase
  {
    match p
    case X => l.(x := v)
    case Y => l.(y := v)
    case Width => l.(width := v)
    case Height => l.(height := v)
    case Rotation => l.(rotation := v)
    case Opacity => l.(opacity := v)
  }

  /** The three kinds of per-layer update the handlers perform inside `layers.map`. */
  datatype Edit =
    | SetField(p: Property, v: real)  // a property input, or a rotate move
    | MoveTo(x: real, y: real)        // a drag move
    | SizeTo(w: real, h: real)        // a resize move

  function Apply(l: Layer, e: Edit): (r: Layer)
    ensures r.id == l.id && r.image == l.image && r.isBase == l.isBase
    ensures e.MoveTo? ==> r.x == e.x && r.y == e.y
    ensures e.SizeTo? ==> r.width == e.w && r.height == e.h
    ensures e.MoveTo? ==> forall q :: q != X && q != Y ==> Get(r, q) == Get(l, q)
    ensures e.SizeTo? ==> forall q :: q != Width && q != Height ==> Get(r, q) == Get(l, q)
  {
    match e
    case SetField(p, v) => WithProperty(l, p, v)
    case MoveTo(x, y) => l.(x := x, y := y)
    case SizeTo(w, h) => l.(width := w, height := h)
  }

  /** `s.map(l => l.id === id ? edit(l) : l)`: every layer carrying the id is edited, the rest are kept. */
  function UpdateId(s: seq<Layer>, id: string, e: Edit): (r: seq<Layer>)
    ensures |r| == |s|
    ensures forall i :: 0 <= i < |s| ==> r[i] == if s[i].id == id then Apply(s[i], e) else s[i]
  {
    if s == [] then [] else [if s[0].id == id then Apply(s[0], e) else s[0]] + UpdateId(s[1..], id, e)
  }

  predicate HasId(s: seq<Layer>, id: string)
  {
    exists i :: 0 <= i < |s| && s[i].id == id
  }

  /** `s.findIndex(l => l.id === id)`: the first position carrying the id, or -1. */
  function IndexOf(s: seq<Layer>, id: string): (r: int)
    ensures -1 <= r < |s|
    ensures r >= 0 ==> s[r].id == id && forall j :: 0 <= j < r ==> s[j].id != id
    ensures r == -1 <==> !HasId(s, id)
  {
    if s == [] then -1
    else if s[0].id == id then 0
    else
      var k := IndexOf(s[1..], id);
      if k == -1 then -1 else k + 1
  }

  /** `s.find(l => l.id === id)`: the first layer carrying the id, if there is one. */
  function Find(s: seq<Layer>, id: string): (r: Option<Layer>)
    ensures r.None? <==> !HasId(s, id)
    ensures r.Some? ==> r.value.id == id && r.value in s
    ensures r.Some? ==> r.value == s[IndexOf(s, id)]
  {
    var k := IndexOf(s, id);
    if k == -1 then None else Some(s[k])
  }

  /** `[a[i], a[j]] = [a[j], a[i]]` on a copy. */
  function Swap(s: seq<Layer>, i: int, j: int): (r: seq<Layer>)
    requires 0 <= i < |s| && 0 <= j < |s|
    ensures |r| == |s| && r[i] == s[j] && r[j] == s[i]
    ensures forall k :: 0 <= k < |s| && k != i && k != j ==> r[k] == s[k]
    ensures multiset(r) == multiset(s)
  {
    s[i := s[j]][j := s[i]]
  }

  /** The keep-predicate of `l => l.id !== id`. */
  function KeepOthers(id: string): Layer -> bool
  {
    (l: Layer) => l.id != id
  }

  /** `s.filter(l => l.id !== id)`. */
  function Without(s: seq<Layer>, id: string): (r: seq<Layer>)
    ensures !HasId(r, id)
    ensures forall k :: 0 <= k < |r| ==> r[k] in s
    ensures forall k :: 0 <= k < |s| && s[k].id != id ==> s[k] in r
    ensures !HasId(s, id) ==> r == s
    ensures multiset(r) <= multiset(s)
  {
    if !HasId(s, id) then
      Seqs.FilterKeepsAll(s, KeepOthers(id));
      Seqs.Filter(s, KeepOthers(id))
    else
      Seqs.Filter(s, KeepOthers(id))
  }

  /** Each layer without the id stays exactly as often as it occurs; layers with the id are gone. */
  lemma WithoutCount(s: seq<Layer>, id: string, l: Layer)
    ensures multiset(Without(s, id))[l] == if l.id != id then multiset(s)[l] else 0
  {
    Seqs.FilterCount(s, KeepOthers(id), l);
  }

  /** Removing an id keeps every other layer in its relative order. */
  lemma WithoutPreservesOrder(s: seq<Layer>, id: string, i: int, j: int)
    requires 0 <= i < j < |s| && s[i].id != id && s[j].id != id
    ensures |Without(s[..i], id)| < |Without(s[..j], id)| < |Without(s, id)|
    ensures Without(s, id)[|Without(s[..i], id)|] == s[i]
    ensures Without(s, id)[|Without(s[..j], id)|] == s[j]
  {
    Seqs.FilterPreservesOrder(s, KeepOthers(id), i, j);
  }

  predicate UniqueIds(s: seq<Layer>)
  {
    forall i, j :: 0 <= i < j < |s| ==> s[i].id != s[j].id
  }

  /**
   * A well-formed stack: the untouched base layer at index 0, no other base layer, distinct ids.
   * (The base layer's id is then carried by no other layer.)
   */
  predicate WellFormed(s: seq<Layer>, baseImage: string)
  {
    && |s| > 0
    && s[0] == BaseLayer(baseImage)
    && (forall i :: 1 <= i < |s| ==> !s[i].isBase)
    && UniqueIds(s)
  }

  /** With distinct ids, the layer carrying an id is the one `find` returns. */
  lemma FindUnique(s: seq<Layer>, id: string, k: int)
    requires UniqueIds(s) && 0 <= k < |s| && s[k].id == id
    ensures Find(s, id) == Some(s[k])
  {
    assert HasId(s, id);
  }

  /** An edit that leaves every layer carrying the id as it was leaves the stack as it was. */
  lemma UpdateIdFixed(s: seq<Layer>, id: string, e: Edit)
    requires forall k :: 0 <= k < |s| && s[k].id == id ==> Apply(s[k], e) == s[k]
    ensures UpdateId(s, id, e) == s
  {
    assert forall k :: 0 <= k < |s| ==> UpdateId(s, id, e)[k] == s[k];
  }

  /** In a well-formed stack the base id is found at 0 and only there. */
  lemma BaseIdAtZero(s: seq<Layer>, baseImage: string)
    requires WellFormed(s, baseImage)
    ensures IndexOf(s, BaseId) == 0
    ensures forall i :: 1 <= i < |s| ==> s[i].id != BaseId
  {
  }

  lemma {:induction false} FilterKeepsUniqueIds(s: seq<Layer>, keep: Layer -> bool)
    requires UniqueIds(s)
    ensures UniqueIds(Seqs.Filter(s, keep))
  {
    if s != [] {
      FilterKeepsUniqueIds(s[1..], keep);
      var tail := Seqs.Filter(s[1..], keep);
      forall k | 0 <= k < |tail|
        ensures tail[k].id != s[0].id
      {
        var m :| 0 <= m < |s[1..]| && s[1..][m] == tail[k];
        assert s[m + 1] == tail[k];
      }
    }
  }

  /** Removing a non-base id from a well-formed stack leaves it well formed. */
  lemma WithoutPreservesWellFormed(s: seq<Layer>, baseImage: string, id: string)
    requires WellFormed(s, baseImage) && id != BaseId
    ensures WellFormed(Without(s, id), baseImage)
  {
    WithoutKeepsHead(s, id);
    FilterKeepsUniqueIds(s, KeepOthers(id));
    assert forall x :: x in s[1..] ==> !x.isBase;
  }

  /** A layer not carrying the id stays in front when the id is filtered out. */
  lemma WithoutKeepsHead(s: seq<Layer>, id: string)
    requires |s| > 0 && s[0].id != id
    ensures Without(s, id) == [s[0]] + Seqs.Filter(s[1..], KeepOthers(id))
  {
  }

  /** Swapping two positions above the base keeps a stack well formed. */
  lemma SwapPreservesWellFormed(s: seq<Layer>, baseImage: string, i: int, j: int)
    requires WellFormed(s, baseImage) && 1 <= i < |s| && 1 <= j < |s|
    ensures WellFormed(Swap(s, i, j), baseImage)
  {
    var r := Swap(s, i, j);
    // Each position of r holds the layer of a distinct position of s.
    var from := (k: int) => if k == i then j else if k == j then i else k;
    assert forall k :: 0 <= k < |s| ==> r[k] == s[from(k)];
    forall a, b | 0 <= a < b < |r|
      ensures r[a].id != r[b].id
    {
      assert from(a) != from(b);
      if from(a) < from(b) {
        assert s[from(a)].id != s[from(b)].id;
      } else {
        assert s[from(b)].id != s[from(a)].id;
      }
    }
  }

  /** An edit under an id other than the base id keeps a stack well formed. */
  lemma UpdateIdPreservesWellFormed(s: seq<Layer>, baseImage: string, id: string, e: Edit)
    requires WellFormed(s, baseImage) && id != BaseId
    ensures WellFormed(UpdateId(s, id, e), baseImage)
  {
    var r := UpdateId(s, id, e);
    assert forall k :: 0 <= k < |s| ==> r[k].id == s[k].id && r[k].isBase == s[k].isBase;
  }

  /** Appending a non-base layer with a fresh id keeps a stack well formed. */
  lemma AppendPreservesWellFormed(s: seq<Layer>, baseImage: string, l: Layer)
    requires WellFormed(s, baseImage) && !l.isBase && !HasId(s, l.id)
    ensures WellFormed(s + [l], baseImage)
  {
  }

  /** Editing an id that no layer carries changes nothing. */
  lemma UpdateAbsentId(s: seq<Layer>, id: string, e: Edit)
    requires !HasId(s, id)
    ensures UpdateId(s, id, e) == s
  {
  }
}
