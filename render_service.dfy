/** src/core/render/render_service.c: the render layer stack, a fixed array of
    `MAX_RENDER_LAYERS` slots of which the first `layer_count` are live. Slots
    past the count keep whatever was last written to them, and the insert path
    can observe that, so the model keeps the whole array. */
module Render {
  import opened Handles

  /** `MAX_RENDER_LAYERS` (render_service.h). */
  const MAX_RENDER_LAYERS: nat := 32
  /** Longest name a slot holds: `name[32]` less the terminator. */
  const NAME_MAX: nat := 31

  /** `RenderLayer`: the identity of `render_func`, the `userdata` pointer and the
      C string in `name`. */
  datatype RenderLayer = RenderLayer(fn: Ptr, userdata: object?, name: string)

  /** An all-zero slot. */
  const EmptyLayer := RenderLayer(Null, null, "")

  /** One `render_func(renderer, userdata)` call made by `renderer_present`. */
  datatype Draw = Draw(fn: Ptr, userdata: object?)

  /** The calls `renderer_present` makes for `s`: every non-NULL callback, in order. */
  function Drawn(s: seq<RenderLayer>): (r: seq<Draw>)
    ensures |r| <= |s|
  {
    if s == [] then []
    else (if s[0].fn != Null then [Draw(s[0].fn, s[0].userdata)] else []) + Drawn(s[1..])
  }

  /** Slots after removing live layer `i` of `count`: the tail moves down one place
      and the vacated last live slot keeps only its userdata. */
  function Compacted(slots: seq<RenderLayer>, count: nat, i: nat): (r: seq<RenderLayer>)
    requires i < count <= |slots|
    ensures |r| == |slots|
  {
    slots[..i] + slots[i + 1..count] + [RenderLayer(Null, slots[count - 1].userdata, "")] + slots[count..]
  }

  /** Slots after inserting `fn`/`name` at `pos` of `count`: the live tail moves
      up one place and the slot at `pos` keeps the userdata it already had. */
  function Shifted(slots: seq<RenderLayer>, count: nat, pos: nat, fn: Ptr, name: string): (r: seq<RenderLayer>)
    requires pos <= count < |slots|
    ensures |r| == |slots|
  {
    slots[..pos] + [RenderLayer(fn, slots[pos].userdata, Truncate(name, NAME_MAX))]
      + slots[pos..count] + slots[count + 1..]
  }

  /** Position of the first live layer called `name`, or `|s|`. */
  function FirstNamed(s: seq<RenderLayer>, name: string): (k: nat)
    ensures k <= |s|
    ensures forall j :: 0 <= j < k ==> s[j].name != name
    ensures k < |s| ==> s[k].name == name
  {
    FirstIndex(s, (l: RenderLayer) => l.name == name)
  }

  class RenderService {
    /** The SDL renderer handle; `renderer_present` draws nothing without one. */
    var renderer: Ptr
    const layers: array<RenderLayer>
    var layerCount: nat

    ghost predicate Valid()
      reads this
    {
      layers.Length == MAX_RENDER_LAYERS && layerCount <= MAX_RENDER_LAYERS
    }

    /** The whole slot array. */
    ghost function Slots(): seq<RenderLayer>
      reads this, layers
    {
      layers[..]
    }

    /** The live layers, bottom (drawn first) to top. */
    ghost function Contents(): seq<RenderLayer>
      reads this, layers
      requires Valid()
    {
      layers[..layerCount]
    }

    /** The layer part of `renderer_init`: zero layers, all slots zeroed. */
    constructor (renderer: Ptr)
      ensures Valid() && fresh(layers) && this.renderer == renderer
      ensures layerCount == 0 && Slots() == seq(MAX_RENDER_LAYERS, _ => EmptyLayer)
    {
      this.renderer := renderer;
      layers := new RenderLayer[MAX_RENDER_LAYERS](_ => EmptyLayer);
      layerCount := 0;
    }
  }

  /** Frame of an operation that may receive a NULL service. */
  ghost function Footprint(R: RenderService?): set<object>
  {
    if R == null then {} else {R, R.layers}
  }

  /** `renderer_begin_frame`: whether the screen is cleared, i.e. there is a
      service and it holds a renderer. */
  function BeginFrame(R: RenderService?): (cleared: bool)
    reads R
    ensures cleared <==> R != null && R.renderer != Null
  {
    R != null && R.renderer != Null
  }

  /** `renderer_present`: with a service and a renderer, calls every non-NULL
      callback among the live layers in index order, each with its own
      userdata; otherwise calls nothing. */
  method Present(R: RenderService?) returns (calls: seq<Draw>)
    requires R != null ==> R.Valid()
    ensures R == null || R.renderer == Null ==> calls == []
    ensures R != null && R.renderer != Null ==> calls == Drawn(R.Contents())
  {
    calls := [];
    if R == null || R.renderer == Null {
      return;
    }
    var i := 0;
    while i < R.layerCount
      invariant i <= R.layerCount
      invariant calls == Drawn(R.layers[..i])
    {
      DrawnAppend(R.layers[..i], R.layers[i]);
      assert R.layers[..i + 1] == R.layers[..i] + [R.layers[i]];
      var L := R.layers[i];
      if L.fn != Null {
        calls := calls + [Draw(L.fn, L.userdata)];
      }
      i := i + 1;
    }
  }

  lemma {:induction false} DrawnAppend(s: seq<RenderLayer>, x: RenderLayer)
    ensures Drawn(s + [x]) == Drawn(s) + (if x.fn != Null then [Draw(x.fn, x.userdata)] else [])
  {
    if s != [] {
      assert (s + [x])[1..] == s[1..] + [x];
      DrawnAppend(s[1..], x);
    }
  }

  /** When no live callback is NULL, every live layer is drawn, in order. */
  lemma {:induction false} DrawnAll(s: seq<RenderLayer>)
    requires forall i :: 0 <= i < |s| ==> s[i].fn != Null
    ensures |Drawn(s)| == |s|
    ensures forall i :: 0 <= i < |s| ==> Drawn(s)[i] == Draw(s[i].fn, s[i].userdata)
  {
    if s != [] {
      DrawnAll(s[1..]);
    }
  }

  /** `renderer_add_layer`: fails with -1 and changes nothing without a service,
      with a NULL callback or with a full array; otherwise writes the next slot
      (callback, userdata, name cut to 31 characters) and returns its index. */
  method AddLayer(R: RenderService?, fn: Ptr, userdata: object?, name: string) returns (r: int)
    requires R != null ==> R.Valid()
    modifies Footprint(R)
    ensures R != null ==> R.Valid()
    ensures R == null || fn == Null || old(R.layerCount) >= MAX_RENDER_LAYERS ==>
      r == -1 && (R != null ==> R.layerCount == old(R.layerCount) && R.Slots() == old(R.Slots()))
    ensures R != null && fn != Null && old(R.layerCount) < MAX_RENDER_LAYERS ==>
      r == old(R.layerCount) && R.layerCount == old(R.layerCount) + 1 &&
      R.Slots() == old(R.Slots())[r := RenderLayer(fn, userdata, Truncate(name, NAME_MAX))]
    ensures R != null ==> R.renderer == old(R.renderer)
  {
    if R == null || fn == Null || R.layerCount >= MAX_RENDER_LAYERS {
      return -1;
    }
    R.layers[R.layerCount] := RenderLayer(fn, userdata, Truncate(name, NAME_MAX));
    R.layerCount := R.layerCount + 1;
    r := R.layerCount - 1;
  }

  /** `renderer_remove_layer_index`: an index outside the live range (or no
      service) changes nothing; otherwise the layers above `index` move down one
      slot, the freed slot loses its callback and name, and the count drops. */
  method RemoveLayerIndex(R: RenderService?, index: int)
    requires R != null ==> R.Valid()
    modifies Footprint(R)
    ensures R != null ==> R.Valid() && R.renderer == old(R.renderer)
    ensures R != null && !(0 <= index < old(R.layerCount)) ==>
      R.layerCount == old(R.layerCount) && R.Slots() == old(R.Slots())
    ensures R != null && 0 <= index < old(R.layerCount) ==>
      R.layerCount == old(R.layerCount) - 1 &&
      R.Slots() == Compacted(old(R.Slots()), old(R.layerCount), index)
  {
    if R == null || index < 0 || index >= R.layerCount {
      return;
    }
    ghost var a := R.layers[..];
    var i := index;
    while i < R.layerCount - 1
      invariant index <= i <= R.layerCount - 1
      invariant forall j :: index <= j < i ==> R.layers[j] == a[j + 1]
      invariant forall j :: 0 <= j < index || i <= j < MAX_RENDER_LAYERS ==> R.layers[j] == a[j]
      modifies R.layers
    {
      R.layers[i] := R.layers[i + 1];
      i := i + 1;
    }
    var last := R.layerCount - 1;
    R.layers[last] := R.layers[last].(fn := Null, name := "");
    R.layerCount := R.layerCount - 1;
    CompactedPointwise(a, R.layers[..], last + 1, index);
  }

  /** `Compacted` slot by slot: the slots outside the shifted range are kept,
      those in it come from one place up, and the last live one is cleared. */
  lemma CompactedPointwise(a: seq<RenderLayer>, b: seq<RenderLayer>, count: nat, i: nat)
    requires i < count <= |a| == |b|
    requires forall j :: 0 <= j < i || count <= j < |a| ==> b[j] == a[j]
    requires forall j :: i <= j < count - 1 ==> b[j] == a[j + 1]
    requires b[count - 1] == RenderLayer(Null, a[count - 1].userdata, "")
    ensures b == Compacted(a, count, i)
  {
    var c := Compacted(a, count, i);
    forall j | 0 <= j < |b| ensures b[j] == c[j] {
      if j < i {
        assert c[j] == a[j];
      } else if j < count - 1 {
        assert c[j] == a[j + 1];
      } else if j == count - 1 {
        assert c[j] == RenderLayer(Null, a[count - 1].userdata, "");
      } else {
        assert c[j] == a[j];
      }
    }
  }

  /** Removing live layer `i` takes exactly that layer out of the live sequence
      and keeps the order of the rest. */
  lemma CompactedContents(slots: seq<RenderLayer>, count: nat, i: nat)
    requires i < count <= |slots|
    ensures Compacted(slots, count, i)[..count - 1] == slots[..i] + slots[i + 1..count]
  {
  }

  /** `renderer_remove_layer_name`: removes the first live layer called `name`
      through `renderer_remove_layer_index`; an absent name changes nothing.
      The C code does not check `R` for NULL here. */
  method RemoveLayerName(R: RenderService, name: string)
    requires R.Valid()
    modifies R, R.layers
    ensures R.Valid() && R.renderer == old(R.renderer)
    ensures FirstNamed(old(R.Contents()), name) == old(R.layerCount) ==>
      R.layerCount == old(R.layerCount) && R.Slots() == old(R.Slots())
    ensures FirstNamed(old(R.Contents()), name) < old(R.layerCount) ==>
      R.layerCount == old(R.layerCount) - 1 &&
      R.Slots() == Compacted(old(R.Slots()), old(R.layerCount), FirstNamed(old(R.Contents()), name))
  {
    ghost var s := R.Contents();
    var i := 0;
    while i < R.layerCount
      invariant i <= R.layerCount
      invariant forall j :: 0 <= j < i ==> s[j].name != name
    {
      if R.layers[i].name == name {
        assert s[i].name == name;
        assert FirstNamed(s, name) == i;
        RemoveLayerIndex(R, i);
        return;
      }
      i := i + 1;
    }
    assert FirstNamed(s, name) == |s|;
  }

  /** `renderer_remove_all_layers`: zero live layers and every slot zeroed. */
  method RemoveAllLayers(R: RenderService?)
    requires R != null ==> R.Valid()
    modifies Footprint(R)
    ensures R != null ==> R.Valid() && R.renderer == old(R.renderer)
    ensures R != null ==> R.layerCount == 0 && R.Slots() == seq(MAX_RENDER_LAYERS, _ => EmptyLayer)
  {
    if R == null {
      return;
    }
    R.layerCount := 0;
    var i := 0;
    while i < MAX_RENDER_LAYERS
      invariant i <= MAX_RENDER_LAYERS
      invariant forall j :: 0 <= j < i ==> R.layers[j] == EmptyLayer
      modifies R.layers
    {
      R.layers[i] := EmptyLayer;
      i := i + 1;
    }
  }

  /** `renderer_insert_layer`: fails without a service, with a NULL callback, with
      a position outside [0, count] or with a full array, and then changes
      nothing; otherwise the live layers from `position` move up one slot and the
      slot at `position` gets the new callback and name but keeps its userdata. */
  method InsertLayer(R: RenderService?, layer: Ptr, name: string, position: int) returns (ok: bool)
    requires R != null ==> R.Valid()
    modifies Footprint(R)
    ensures R != null ==> R.Valid() && R.renderer == old(R.renderer)
    ensures ok <==> R != null && layer != Null && 0 <= position <= old(R.layerCount) &&
                    old(R.layerCount) < MAX_RENDER_LAYERS
    ensures !ok && R != null ==> R.layerCount == old(R.layerCount) && R.Slots() == old(R.Slots())
    ensures ok ==> R.layerCount == old(R.layerCount) + 1
    ensures ok ==> R.Slots() == Shifted(old(R.Slots()), old(R.layerCount), position, layer, name)
  {
    if R == null || layer == Null || position < 0 || position > R.layerCount || R.layerCount >= MAX_RENDER_LAYERS {
      return false;
    }
    ghost var a := R.layers[..];
    var i := R.layerCount;
    while i > position
      invariant position <= i <= R.layerCount
      invariant forall j :: i < j <= R.layerCount ==> R.layers[j] == a[j - 1]
      invariant forall j :: 0 <= j <= i || R.layerCount < j < MAX_RENDER_LAYERS ==> R.layers[j] == a[j]
      modifies R.layers
    {
      R.layers[i] := R.layers[i - 1];
      i := i - 1;
    }
    R.layers[position] := R.layers[position].(fn := layer, name := Truncate(name, NAME_MAX));
    R.layerCount := R.layerCount + 1;
    ShiftedPointwise(a, R.layers[..], R.layerCount - 1, position, layer, name);
    return true;
  }

  /** `Shifted` slot by slot: the slots outside the shifted range are kept,
      those above `pos` come from one place down, and `pos` holds the new layer. */
  lemma ShiftedPointwise(a: seq<RenderLayer>, b: seq<RenderLayer>, count: nat, pos: nat, fn: Ptr, name: string)
    requires pos <= count < |a| == |b|
    requires forall j :: 0 <= j < pos || count < j < |a| ==> b[j] == a[j]
    requires forall j :: pos < j <= count ==> b[j] == a[j - 1]
    requires b[pos] == RenderLayer(fn, a[pos].userdata, Truncate(name, NAME_MAX))
    ensures b == Shifted(a, count, pos, fn, name)
  {
    var c := Shifted(a, count, pos, fn, name);
    forall j | 0 <= j < |b| ensures b[j] == c[j] {
      if j < pos {
        assert c[j] == a[j];
      } else if j == pos {
        assert c[j] == RenderLayer(fn, a[pos].userdata, Truncate(name, NAME_MAX));
      } else if j <= count {
        assert c[j] == a[j - 1];
      } else {
        assert c[j] == a[j];
      }
    }
  }

  /** A successful insert puts the new layer at `pos` of the live sequence and
      keeps the other live layers in order around it. */
  lemma ShiftedContents(slots: seq<RenderLayer>, count: nat, pos: nat, fn: Ptr, name: string)
    requires pos <= count < |slots|
    ensures Shifted(slots, count, pos, fn, name)[..count + 1] ==
      slots[..pos] + [RenderLayer(fn, slots[pos].userdata, Truncate(name, NAME_MAX))] + slots[pos..count]
  {
  }

  /** Inserting at the end of the live layers differs from adding in the
      userdata: add writes it, insert keeps the stale one of that slot. */
  lemma InsertKeepsStaleUserdata(slots: seq<RenderLayer>, count: nat, fn: Ptr, name: string)
    requires count < |slots|
    ensures Shifted(slots, count, count, fn, name)[count].userdata == slots[count].userdata
    ensures Shifted(slots, count, count, fn, name) ==
      slots[count := RenderLayer(fn, slots[count].userdata, Truncate(name, NAME_MAX))]
  {
  }
}
