/**
 * The layered drawable registry of include/drawable_container.h: a fixed record
 * of thirteen named layers, each a sequence of drawables, with bulk operations
 * that visit every layer in one fixed order.
 *
 * A layer holds references to Drawable objects, so the same object may sit in
 * a layer of an owning registry and in a layer of a draft registry built from it.
 */
module Registry {
  import opened Wrappers
  import opened Drawables

  /** The thirteen layers, one per rendering pass. */
  datatype LayerName =
    | TwoDim | NormalNoblend | NormalNoblendNolighting | CarNoblend | NormalBlend
    | SkyboxBlend | SkyboxNoblend | Text | Particle | NocamtransBlend | NocamtransNoblend
    | LightsEmissive | LightsOmni

  /** The order in which ForEach and AppendTo visit the layers. */
  const LayerOrder: seq<LayerName> :=
    [TwoDim, NormalNoblend, NormalNoblendNolighting, CarNoblend, NormalBlend,
     SkyboxBlend, SkyboxNoblend, Text, Particle, NocamtransBlend, NocamtransNoblend,
     LightsEmissive, LightsOmni]

  /** size() counts in an unsigned int, so it wraps modulo 2^32. */
  const Word: nat := 0x1_0000_0000

  /** The member name of each layer, as GetByName matches it. */
  function Name(l: LayerName): string {
    match l
    case TwoDim => "twodim"
    case NormalNoblend => "normal_noblend"
    case NormalNoblendNolighting => "normal_noblend_nolighting"
    case CarNoblend => "car_noblend"
    case NormalBlend => "normal_blend"
    case SkyboxBlend => "skybox_blend"
    case SkyboxNoblend => "skybox_noblend"
    case Text => "text"
    case Particle => "particle"
    case NocamtransBlend => "nocamtrans_blend"
    case NocamtransNoblend => "nocamtrans_noblend"
    case LightsEmissive => "lights_emissive"
    case LightsOmni => "lights_omni"
  }

  /** The layer whose member name is exactly the given string, or None for any other string. */
  function GetByName(name: string): (r: Option<LayerName>)
    ensures r.Some? ==> Name(r.value) == name
    ensures r.None? <==> forall l :: Name(l) != name
  {
    if name == "twodim" then Some(TwoDim)
    else if name == "text" then Some(Text)
    else if name == "normal_noblend" then Some(NormalNoblend)
    else if name == "normal_noblend_nolighting" then Some(NormalNoblendNolighting)
    else if name == "car_noblend" then Some(CarNoblend)
    else if name == "normal_blend" then Some(NormalBlend)
    else if name == "skybox_blend" then Some(SkyboxBlend)
    else if name == "skybox_noblend" then Some(SkyboxNoblend)
    else if name == "particle" then Some(Particle)
    else if name == "nocamtrans_blend" then Some(NocamtransBlend)
    else if name == "nocamtrans_noblend" then Some(NocamtransNoblend)
    else if name == "lights_emissive" then Some(LightsEmissive)
    else if name == "lights_omni" then Some(LightsOmni)
    else None
  }

  /** Every layer is found under its own name. */
  lemma GetByNameFindsEveryLayer(l: LayerName)
    ensures GetByName(Name(l)) == Some(l)
  {
  }

  /** The position of each layer in the layer order. */
  function Index(l: LayerName): nat {
    match l
    case TwoDim => 0
    case NormalNoblend => 1
    case NormalNoblendNolighting => 2
    case CarNoblend => 3
    case NormalBlend => 4
    case SkyboxBlend => 5
    case SkyboxNoblend => 6
    case Text => 7
    case Particle => 8
    case NocamtransBlend => 9
    case NocamtransNoblend => 10
    case LightsEmissive => 11
    case LightsOmni => 12
  }

  /** The layer order lists each of the thirteen layers exactly once. */
  lemma LayerOrderIsComplete()
    ensures |LayerOrder| == 13
    ensures forall l :: l in LayerOrder
    ensures NoDuplicates(LayerOrder)
  {
    forall l: LayerName ensures l in LayerOrder {
      assert LayerOrder[Index(l)] == l;
    }
    forall i, j | 0 <= i < j < |LayerOrder| ensures LayerOrder[i] != LayerOrder[j] {
      assert Index(LayerOrder[i]) == i && Index(LayerOrder[j]) == j;
    }
  }

  /**
   * The fold read from the back: the last layer is handed over last, to the
   * state the earlier layers left behind. The reference ForEach is proved against.
   */
  function FoldFromBack<A>(ls: seq<LayerName>, func: (A, LayerName) -> A, acc: A): A
    decreases |ls|
  {
    if ls == [] then acc else func(FoldFromBack(ls[..|ls| - 1], func, acc), ls[|ls| - 1])
  }

  /** Read from the back, the fold still hands the first layer over first. */
  lemma {:induction false} FoldFromBackFirst<A>(ls: seq<LayerName>, func: (A, LayerName) -> A, acc: A)
    requires ls != []
    ensures FoldFromBack(ls, func, acc) == FoldFromBack(ls[1..], func, func(acc, ls[0]))
    decreases |ls|
  {
    if |ls| > 1 {
      var n := |ls| - 1;
      FoldFromBackFirst(ls[..n], func, acc);
      assert ls[..n][1..] == ls[1..][..n - 1];
    }
  }

  /**
   * ForEach: hand the layers, one after the other, to a functor that threads
   * its own state through the calls.
   */
  function ForEach<A>(ls: seq<LayerName>, func: (A, LayerName) -> A, acc: A): (r: A)
    ensures r == FoldFromBack(ls, func, acc)
    decreases |ls|
  {
    if ls == [] then acc
    else
      FoldFromBackFirst(ls, func, acc);
      ForEach(ls[1..], func, func(acc, ls[0]))
  }

  /** A functor that records which layer it was handed. */
  function Visit(trace: seq<LayerName>, l: LayerName): seq<LayerName> {
    trace + [l]
  }

  lemma {:induction false} VisitTrace(ls: seq<LayerName>, trace: seq<LayerName>)
    ensures FoldFromBack(ls, Visit, trace) == trace + ls
    decreases |ls|
  {
    if ls != [] {
      var n := |ls| - 1;
      VisitTrace(ls[..n], trace);
      assert trace + ls[..n] + [ls[n]] == trace + ls;
    }
  }

  /** ForEach hands the functor each of the thirteen layers exactly once, in the fixed order. */
  lemma ForEachVisitsEachLayerOnce()
    ensures ForEach(LayerOrder, Visit, []) == LayerOrder
    ensures forall l :: multiset(ForEach(LayerOrder, Visit, []))[l] == 1
  {
    VisitTrace(LayerOrder, []);
    assert [] + LayerOrder == LayerOrder;
    LayerOrderIsComplete();
    forall l ensures multiset(LayerOrder)[l] == 1 {
      OccursOnce(LayerOrder, l);
    }
  }

  /** f applied n times. */
  function Iterate(f: DrawableState -> DrawableState, s: DrawableState, n: nat): DrawableState
    decreases n
  {
    if n == 0 then s else f(Iterate(f, s, n - 1))
  }

  lemma {:induction false} IterateAdd(f: DrawableState -> DrawableState, s: DrawableState, m: nat, n: nat)
    ensures Iterate(f, Iterate(f, s, m), n) == Iterate(f, s, m + n)
    decreases n
  {
    if n > 0 {
      IterateAdd(f, s, m, n - 1);
    }
  }

  /** Applying f v times and then k times more is applying it v + k times. */
  lemma IterateThen(f: DrawableState -> DrawableState, s: DrawableState, v: nat, k: nat, n: nat)
    requires n == v + k
    ensures Iterate(f, Iterate(f, s, v), k) == Iterate(f, s, n)
  {
    IterateAdd(f, s, v, k);
  }

  /** The layer order gains one new layer at each step. */
  lemma LayerOrderStep(i: nat)
    requires i < |LayerOrder|
    ensures forall m :: m in LayerOrder[..i + 1] <==> m in LayerOrder[..i] || m == LayerOrder[i]
    ensures LayerOrder[i] !in LayerOrder[..i]
  {
    LayerOrderIsComplete();
    PrefixStep(LayerOrder, i);
  }

  /** One more element of a prefix. */
  lemma PrefixStep<T>(s: seq<T>, j: nat)
    requires j < |s|
    ensures s[..j + 1] == s[..j] + [s[j]]
    ensures s[..j + 1][..j] == s[..j]
  {
  }

  lemma AppendAssoc<T>(a: seq<T>, b: seq<T>, c: seq<T>)
    ensures a + b + c == a + (b + c)
  {
  }

  /** No element occurs twice (the layers of an owning registry, the layer order). */
  predicate NoDuplicates<T(==)>(s: seq<T>) {
    forall i, j :: 0 <= i < j < |s| ==> s[i] != s[j]
  }

  lemma {:induction false} OccursOnce<T>(s: seq<T>, d: T)
    requires NoDuplicates(s)
    requires d in s
    ensures multiset(s)[d] == 1
    decreases |s|
  {
    var last := s[|s| - 1];
    assert s == s[..|s| - 1] + [last];
    if d == last {
      assert d !in s[..|s| - 1];
    } else {
      OccursOnce(s[..|s| - 1], d);
    }
  }

  /** A drawable whose recorded state has draw-enable set. */
  predicate EnabledIn(states: map<Drawable, DrawableState>, d: Drawable) {
    d in states && states[d].drawEnable
  }

  /** The drawables of a layer that are enabled in the given states, in layer order. */
  function EnabledOf(s: seq<Drawable>, states: map<Drawable, DrawableState>): (r: seq<Drawable>)
    ensures |r| <= |s|
    decreases |s|
  {
    if s == [] then []
    else EnabledOf(s[..|s| - 1], states) + (if EnabledIn(states, s[|s| - 1]) then [s[|s| - 1]] else [])
  }

  /** EnabledOf keeps exactly the enabled drawables: every one it keeps is enabled and from the layer, and none is dropped. */
  lemma {:induction false} EnabledOfMembers(s: seq<Drawable>, states: map<Drawable, DrawableState>)
    ensures forall d :: d in EnabledOf(s, states) <==> d in s && EnabledIn(states, d)
    decreases |s|
  {
    if s != [] {
      EnabledOfMembers(s[..|s| - 1], states);
      assert forall d :: d in s <==> d in s[..|s| - 1] || d == s[|s| - 1];
    }
  }

  lemma EnabledOfSnoc(s: seq<Drawable>, d: Drawable, states: map<Drawable, DrawableState>)
    ensures EnabledOf(s + [d], states) == EnabledOf(s, states) + (if EnabledIn(states, d) then [d] else [])
  {
    assert (s + [d])[..|s|] == s;
  }

  /** EnabledOf sees only the draw-enable flags. */
  lemma {:induction false} EnabledOfAgree(s: seq<Drawable>, m1: map<Drawable, DrawableState>, m2: map<Drawable, DrawableState>)
    requires forall d :: d in s ==> EnabledIn(m1, d) == EnabledIn(m2, d)
    ensures EnabledOf(s, m1) == EnabledOf(s, m2)
    decreases |s|
  {
    if s != [] {
      EnabledOfAgree(s[..|s| - 1], m1, m2);
    }
  }

  /** The states of the given drawables, as a value. */
  function StatesOf(s: seq<Drawable>): (m: map<Drawable, DrawableState>)
    reads s
    ensures m.Keys == set d | d in s
  {
    map d | d in s :: d.Snapshot()
  }

  /** What AppendTo does to one source drawable: an enabled one takes the transform when asked to. */
  function Stamped(s: DrawableState, transform: Matrix4, useTransform: bool): DrawableState {
    if useTransform && s.drawEnable then s.(transform := transform, uniformsChanged := true) else s
  }

  /** Taking the transform twice is taking it once; this is what makes a drawable held by two layers safe. */
  lemma StampedIdempotent(s: DrawableState, transform: Matrix4, useTransform: bool)
    ensures Stamped(Stamped(s, transform, useTransform), transform, useTransform) == Stamped(s, transform, useTransform)
  {
  }

  /** Part way through a pass of an idempotent update g: the drawables visited so far have taken it. */
  predicate UpdatedUpTo(g: DrawableState -> DrawableState, before: map<Drawable, DrawableState>,
                        now: map<Drawable, DrawableState>, visited: seq<Drawable>, d: Drawable)
    requires d in before && d in now
  {
    now[d] == if d in visited then g(before[d]) else before[d]
  }

  /** One more layer of such a pass; a drawable met again is left as it was. */
  lemma UpdateStep(g: DrawableState -> DrawableState, before: map<Drawable, DrawableState>,
                   mid: map<Drawable, DrawableState>, now: map<Drawable, DrawableState>,
                   visited: seq<Drawable>, layer: seq<Drawable>, next: seq<Drawable>)
    requires next == visited + layer
    requires mid.Keys == before.Keys && now.Keys == before.Keys
    requires forall s :: g(g(s)) == g(s)
    requires forall d :: d in before ==> UpdatedUpTo(g, before, mid, visited, d)
    requires forall d :: d in before ==> now[d] == if d in layer then g(mid[d]) else mid[d]
    ensures forall d :: d in before ==> UpdatedUpTo(g, before, now, next, d)
  {
  }

  /** Part way through such a pass, an update that keeps the draw-enable flag has kept it for every drawable. */
  lemma UpdateKeepsEnabled(g: DrawableState -> DrawableState, before: map<Drawable, DrawableState>,
                           mid: map<Drawable, DrawableState>, visited: seq<Drawable>, layer: seq<Drawable>)
    requires forall s :: g(s).drawEnable == s.drawEnable
    requires mid.Keys == before.Keys
    requires forall d :: d in layer ==> d in before
    requires forall d :: d in before ==> UpdatedUpTo(g, before, mid, visited, d)
    ensures forall d :: d in layer ==> EnabledIn(mid, d) == EnabledIn(before, d)
  {
  }

  /** Part way through ForEachDrawable: each drawable has taken the functor once per visit so far. */
  predicate IteratedUpTo(f: DrawableState -> DrawableState, before: map<Drawable, DrawableState>,
                         now: map<Drawable, DrawableState>, visited: multiset<Drawable>, d: Drawable)
    requires d in before && d in now
  {
    now[d] == Iterate(f, before[d], visited[d])
  }

  /** One more layer of ForEachDrawable: the visits add up. */
  lemma IterateStep(f: DrawableState -> DrawableState, before: map<Drawable, DrawableState>,
                    mid: map<Drawable, DrawableState>, now: map<Drawable, DrawableState>,
                    visited: multiset<Drawable>, layer: multiset<Drawable>, next: multiset<Drawable>)
    requires next == visited + layer
    requires mid.Keys == before.Keys && now.Keys == before.Keys
    requires forall d :: d in before ==> IteratedUpTo(f, before, mid, visited, d)
    requires forall d :: d in before ==> now[d] == Iterate(f, mid[d], layer[d])
    ensures forall d :: d in before ==> IteratedUpTo(f, before, now, next, d)
  {
    forall d | d in before
      ensures IteratedUpTo(f, before, now, next, d)
    {
      IterateThen(f, before[d], visited[d], layer[d], next[d]);
    }
  }

  /** The SetVisibility functor on one layer. */
  method SetVisibilityIn(container: seq<Drawable>, vis: bool)
    modifies container
    ensures forall d :: d in container ==> d.Snapshot() == old(d.Snapshot()).(drawEnable := vis)
  {
    for j := 0 to |container|
      invariant forall d :: d in container ==>
        d.Snapshot() == if d in container[..j] then old(d.Snapshot()).(drawEnable := vis) else old(d.Snapshot())
    {
      PrefixStep(container, j);
      container[j].SetDrawEnable(vis);
    }
    assert container[..|container|] == container;
  }

  /** The SetAlpha functor on one layer. */
  method SetAlphaIn(container: seq<Drawable>, alpha: real)
    modifies container
    ensures forall d :: d in container ==> d.Snapshot() == old(d.Snapshot()).(a := alpha, uniformsChanged := true)
  {
    for j := 0 to |container|
      invariant forall d :: d in container ==>
        d.Snapshot() == if d in container[..j] then old(d.Snapshot()).(a := alpha, uniformsChanged := true)
                        else old(d.Snapshot())
    {
      PrefixStep(container, j);
      container[j].SetAlpha(alpha);
    }
    assert container[..|container|] == container;
  }

  /** The ApplyFunctor functor on one layer: a drawable met k times has the functor applied k times. */
  method ApplyFunctorIn(container: seq<Drawable>, f: DrawableState -> DrawableState)
    modifies container
    ensures forall d :: d in container ==> d.Snapshot() == Iterate(f, old(StatesOf(container))[d], multiset(container)[d])
  {
    ghost var before := StatesOf(container);
    for j := 0 to |container|
      invariant forall d :: d in container ==> d.Snapshot() == Iterate(f, before[d], multiset(container[..j])[d])
    {
      var c := container[j];
      PrefixStep(container, j);
      ghost var mid := StatesOf(container);
      c.Apply(f);
      forall d | d in container
        ensures d.Snapshot() == Iterate(f, before[d], multiset(container[..j + 1])[d])
      {
        if d == c {
          assert multiset(container[..j + 1])[d] == multiset(container[..j])[d] + 1;
          assert d.Snapshot() == f(mid[d]);
        } else {
          assert multiset(container[..j + 1])[d] == multiset(container[..j])[d];
          assert d.Snapshot() == mid[d];
        }
      }
    }
    assert container[..|container|] == container;
  }

  /** AddDrawableToContainer: an enabled drawable is appended by reference, after taking the transform if asked. */
  method AddDrawableToContainer(drawable: Drawable, container: seq<Drawable>, transform: Matrix4, useTransform: bool)
    returns (result: seq<Drawable>)
    modifies drawable
    ensures result == container + (if old(drawable.drawEnable) then [drawable] else [])
    ensures drawable.Snapshot() == Stamped(old(drawable.Snapshot()), transform, useTransform)
  {
    result := container;
    if drawable.drawEnable {
      if useTransform {
        drawable.SetTransform(transform);
      }
      result := result + [drawable];
    }
  }

  /** AddDrawablesToContainer: the enabled drawables of the source, in order, after the destination's own. */
  method AddDrawablesToContainer(source: seq<Drawable>, dest: seq<Drawable>, transform: Matrix4, useTransform: bool)
    returns (result: seq<Drawable>)
    modifies source
    ensures result == dest + EnabledOf(source, old(StatesOf(source)))
    ensures forall d :: d in source ==> d.Snapshot() == Stamped(old(d.Snapshot()), transform, useTransform)
  {
    ghost var before := StatesOf(source);
    ghost var g := (s: DrawableState) => Stamped(s, transform, useTransform);
    assert forall s :: g(g(s)) == g(s) by {
      forall s { StampedIdempotent(s, transform, useTransform); }
    }
    assert forall s :: g(s).drawEnable == s.drawEnable;
    result := dest;
    for j := 0 to |source|
      invariant result == dest + EnabledOf(source[..j], before)
      invariant StatesOf(source).Keys == before.Keys
      invariant forall d :: d in before ==> UpdatedUpTo(g, before, StatesOf(source), source[..j], d)
    {
      var d := source[j];
      PrefixStep(source, j);
      EnabledOfSnoc(source[..j], d, before);
      ghost var mid := StatesOf(source);
      UpdateKeepsEnabled(g, before, mid, source[..j], [d]);
      ghost var enabled := d.drawEnable;
      result := AddDrawableToContainer(d, result, transform, useTransform);
      AppendAssoc(dest, EnabledOf(source[..j], before), if enabled then [d] else []);
      ghost var now := StatesOf(source);
      assert now.Keys == before.Keys;
      forall e | e in before ensures now[e] == if e in [d] then g(mid[e]) else mid[e] {
        if e == d {
          assert now[e] == g(mid[e]);
        } else {
          assert now[e] == e.Snapshot() == mid[e];
        }
      }
      UpdateStep(g, before, mid, now, source[..j], [d], source[..j + 1]);
    }
    assert source[..|source|] == source;
    forall d | d in source ensures d.Snapshot() == Stamped(before[d], transform, useTransform) {
      assert UpdatedUpTo(g, before, StatesOf(source), source, d);
    }
  }

  /** An unsigned int holds its value modulo 2^32. */
  function Wrap(x: nat): (w: nat)
    ensures w < Word
    ensures x < Word ==> w == x
  {
    x % Word
  }

  /** Wrapping after every addition is wrapping once at the end. */
  lemma WrapAdd(x: nat, y: nat)
    ensures Wrap(Wrap(x) + y) == Wrap(x + y)
  {
    var q := x / Word;
    assert x == q * Word + x % Word;
    assert x + y == q * Word + (x % Word + y);
  }

  /** DRAWABLE_CONTAINER: one sequence of drawables per layer. */
  class DrawableContainer {
    var twodim: seq<Drawable>
    var normalNoblend: seq<Drawable>
    var normalNoblendNolighting: seq<Drawable>
    var carNoblend: seq<Drawable>
    var normalBlend: seq<Drawable>
    var skyboxBlend: seq<Drawable>
    var skyboxNoblend: seq<Drawable>
    var text: seq<Drawable>
    var particle: seq<Drawable>
    var nocamtransBlend: seq<Drawable>
    var nocamtransNoblend: seq<Drawable>
    var lightsEmissive: seq<Drawable>
    var lightsOmni: seq<Drawable>

    /** The member that holds a layer. */
    function Layer(l: LayerName): seq<Drawable>
      reads this
    {
      match l
      case TwoDim => twodim
      case NormalNoblend => normalNoblend
      case NormalNoblendNolighting => normalNoblendNolighting
      case CarNoblend => carNoblend
      case NormalBlend => normalBlend
      case SkyboxBlend => skyboxBlend
      case SkyboxNoblend => skyboxNoblend
      case Text => text
      case Particle => particle
      case NocamtransBlend => nocamtransBlend
      case NocamtransNoblend => nocamtransNoblend
      case LightsEmissive => lightsEmissive
      case LightsOmni => lightsOmni
    }

    /** Writing through the reference to a layer (what GetByName hands out). */
    method SetLayer(l: LayerName, s: seq<Drawable>)
      modifies this
      ensures Layer(l) == s
      ensures forall m :: m != l ==> Layer(m) == old(Layer(m))
    {
      match l
      case TwoDim => twodim := s;
      case NormalNoblend => normalNoblend := s;
      case NormalNoblendNolighting => normalNoblendNolighting := s;
      case CarNoblend => carNoblend := s;
      case NormalBlend => normalBlend := s;
      case SkyboxBlend => skyboxBlend := s;
      case SkyboxNoblend => skyboxNoblend := s;
      case Text => text := s;
      case Particle => particle := s;
      case NocamtransBlend => nocamtransBlend := s;
      case NocamtransNoblend => nocamtransNoblend := s;
      case LightsEmissive => lightsEmissive := s;
      case LightsOmni => lightsOmni := s;
    }

    constructor ()
      ensures forall l :: Layer(l) == []
    {
      twodim, normalNoblend, normalNoblendNolighting, carNoblend, normalBlend := [], [], [], [], [];
      skyboxBlend, skyboxNoblend, text, particle := [], [], [], [];
      nocamtransBlend, nocamtransNoblend, lightsEmissive, lightsOmni := [], [], [], [];
    }

    /** The given layers' drawables, concatenated in the given order. */
    function Concat(ls: seq<LayerName>): seq<Drawable>
      reads this
      decreases |ls|
    {
      if ls == [] then [] else Concat(ls[..|ls| - 1]) + Layer(ls[|ls| - 1])
    }

    lemma ConcatStep(i: nat)
      requires i < |LayerOrder|
      ensures Concat(LayerOrder[..i + 1]) == Concat(LayerOrder[..i]) + Layer(LayerOrder[i])
    {
      assert LayerOrder[..i + 1][..i] == LayerOrder[..i];
    }

    lemma LayerAllocated(l: LayerName)
      ensures forall d :: d in Layer(l) ==> allocated(d)
    {
      match l
      case TwoDim =>
      case NormalNoblend =>
      case NormalNoblendNolighting =>
      case CarNoblend =>
      case NormalBlend =>
      case SkyboxBlend =>
      case SkyboxNoblend =>
      case Text =>
      case Particle =>
      case NocamtransBlend =>
      case NocamtransNoblend =>
      case LightsEmissive =>
      case LightsOmni =>
    }

    lemma {:induction false} ConcatAllocated(ls: seq<LayerName>)
      ensures forall d :: d in Concat(ls) ==> allocated(d)
      decreases |ls|
    {
      if ls != [] {
        ConcatAllocated(ls[..|ls| - 1]);
        LayerAllocated(ls[|ls| - 1]);
      }
    }

    /** The elements are objects that exist. */
    lemma ElementsAllocated()
      ensures forall d :: d in Elements() ==> allocated(d)
    {
      ConcatAllocated(LayerOrder);
    }

    /** Every drawable of every layer, in the order ForEachDrawable meets them. */
    function Flatten(): seq<Drawable>
      reads this
    {
      Concat(LayerOrder)
    }

    function Elements(): set<Drawable>
      reads this
    {
      set d | d in Flatten()
    }

    /** The sum of the given layers' lengths. */
    function SumSizes(ls: seq<LayerName>): nat
      reads this
      decreases |ls|
    {
      if ls == [] then 0 else SumSizes(ls[..|ls| - 1]) + |Layer(ls[|ls| - 1])|
    }

    /** The number of drawables over all thirteen layers, without wrap-around. */
    function TotalSize(): nat
      reads this
    {
      SumSizes(LayerOrder)
    }

    /** Every layer is empty. */
    predicate Cleared()
      reads this
    {
      forall l :: Layer(l) == []
    }

    lemma {:induction false} ConcatContainsLayers(ls: seq<LayerName>)
      ensures forall l, d :: l in ls && d in Layer(l) ==> d in Concat(ls)
      ensures forall d :: d in Concat(ls) ==> exists l :: l in ls && d in Layer(l)
      decreases |ls|
    {
      if ls != [] {
        ConcatContainsLayers(ls[..|ls| - 1]);
        assert forall l :: l in ls ==> l in ls[..|ls| - 1] || l == ls[|ls| - 1];
      }
    }

    /** A drawable is an element of the registry iff it sits in some layer. */
    lemma ElementsAreLayerMembers()
      ensures forall l, d :: d in Layer(l) ==> d in Elements()
      ensures forall d :: d in Elements() ==> exists l :: d in Layer(l)
    {
      LayerOrderIsComplete();
      ConcatContainsLayers(LayerOrder);
    }

    lemma LayerWithinElements(l: LayerName)
      ensures forall d :: d in Layer(l) ==> d in Elements()
    {
      ElementsAreLayerMembers();
    }

    lemma {:induction false} SumSizesIsConcatLength(ls: seq<LayerName>)
      ensures SumSizes(ls) == |Concat(ls)|
      decreases |ls|
    {
      if ls != [] {
        SumSizesIsConcatLength(ls[..|ls| - 1]);
      }
    }

    /** The size is the number of drawables ForEachDrawable meets. */
    lemma TotalSizeIsFlattenLength()
      ensures TotalSize() == |Flatten()|
    {
      SumSizesIsConcatLength(LayerOrder);
    }

    lemma {:induction false} SumSizesZero(ls: seq<LayerName>)
      ensures SumSizes(ls) == 0 <==> forall l :: l in ls ==> Layer(l) == []
      decreases |ls|
    {
      if ls != [] {
        SumSizesZero(ls[..|ls| - 1]);
        assert forall l :: l in ls <==> l in ls[..|ls| - 1] || l == ls[|ls| - 1];
      }
    }

    /** The total size is 0 exactly when every layer is empty. */
    lemma TotalSizeZeroIffCleared()
      ensures TotalSize() == 0 <==> Cleared()
    {
      LayerOrderIsComplete();
      SumSizesZero(LayerOrder);
    }

    /** size(): AccumulateSize adds every layer's length into an unsigned counter. */
    method Size() returns (count: nat)
      ensures count == Wrap(TotalSize())
      ensures TotalSize() < Word ==> count == TotalSize()
    {
      count := 0;
      for i := 0 to |LayerOrder|
        invariant count == Wrap(SumSizes(LayerOrder[..i]))
      {
        var n := |Layer(LayerOrder[i])|;
        ghost var sum := SumSizes(LayerOrder[..i]);
        assert LayerOrder[..i + 1][..i] == LayerOrder[..i];
        assert SumSizes(LayerOrder[..i + 1]) == sum + n;
        WrapAdd(sum, n);
        count := Wrap(count + n);
        assert count == Wrap(sum + n);
      }
      assert LayerOrder[..|LayerOrder|] == LayerOrder;
    }

    /** empty(): size() == 0. */
    method Empty() returns (e: bool)
      ensures e <==> Wrap(TotalSize()) == 0
      ensures TotalSize() < Word ==> (e <==> Cleared())
    {
      var n := Size();
      e := n == 0;
      TotalSizeZeroIffCleared();
    }

    /** clear(): ClearContainer empties every layer; on an already empty registry nothing changes. */
    method Clear()
      modifies this
      ensures Cleared()
      ensures old(Cleared()) ==> forall l :: Layer(l) == old(Layer(l))
    {
      for i := 0 to |LayerOrder|
        invariant forall l :: l in LayerOrder[..i] ==> Layer(l) == []
      {
        assert forall l :: l in LayerOrder[..i + 1] ==> l in LayerOrder[..i] || l == LayerOrder[i];
        SetLayer(LayerOrder[i], []);
      }
      LayerOrderIsComplete();
      assert LayerOrder[..|LayerOrder|] == LayerOrder;
    }

    /** The state of every element, as a value. */
    function States(): (m: map<Drawable, DrawableState>)
      reads this, Elements()
      ensures m.Keys == Elements()
      ensures forall l, d :: d in Layer(l) ==> d in m
    {
      ElementsAreLayerMembers();
      map d | d in Elements() :: d.Snapshot()
    }

    /** SetVisibility(v): every drawable of every layer gets draw-enable v and nothing else changes. */
    method SetVisibility(vis: bool)
      modifies Elements()
      ensures unchanged(this)
      ensures forall d :: d in Elements() ==> d.Snapshot() == old(States())[d].(drawEnable := vis)
    {
      ghost var before := States();
      ghost var g := (s: DrawableState) => s.(drawEnable := vis);
      assert forall s :: g(g(s)) == g(s);
      ghost var visited: seq<Drawable> := [];
      for i := 0 to |LayerOrder|
        invariant visited == Concat(LayerOrder[..i])
        invariant States().Keys == before.Keys
        invariant forall d :: d in before ==> UpdatedUpTo(g, before, States(), visited, d)
      {
        ConcatStep(i);
        var l := LayerOrder[i];
        ghost var mid := States();
        LayerWithinElements(l);
        SetVisibilityOfLayer(l, vis);
        ghost var now := States();
        assert now.Keys == before.Keys;
        UpdateStep(g, before, mid, now, visited, Layer(l), visited + Layer(l));
        visited := visited + Layer(l);
      }
      assert LayerOrder[..|LayerOrder|] == LayerOrder;
      forall d | d in Elements() ensures d.Snapshot() == before[d].(drawEnable := vis) {
        assert UpdatedUpTo(g, before, States(), visited, d);
      }
    }

    /** SetVisibility's share for one layer. */
    method SetVisibilityOfLayer(l: LayerName, vis: bool)
      modifies Layer(l)
      ensures forall d :: d in Elements() ==>
        States()[d] == if d in Layer(l) then old(States())[d].(drawEnable := vis) else old(States())[d]
    {
      ElementsAreLayerMembers();
      ElementsAllocated();
      SetVisibilityIn(Layer(l), vis);
    }

    /** SetAlpha(a): every drawable of every layer gets alpha a (raising its uniform flag) and nothing else changes. */
    method SetAlpha(alpha: real)
      modifies Elements()
      ensures unchanged(this)
      ensures forall d :: d in Elements() ==> d.Snapshot() == old(States())[d].(a := alpha, uniformsChanged := true)
    {
      ghost var before := States();
      ghost var g := (s: DrawableState) => s.(a := alpha, uniformsChanged := true);
      assert forall s :: g(g(s)) == g(s);
      ghost var visited: seq<Drawable> := [];
      for i := 0 to |LayerOrder|
        invariant visited == Concat(LayerOrder[..i])
        invariant States().Keys == before.Keys
        invariant forall d :: d in before ==> UpdatedUpTo(g, before, States(), visited, d)
      {
        ConcatStep(i);
        var l := LayerOrder[i];
        ghost var mid := States();
        LayerWithinElements(l);
        SetAlphaOfLayer(l, alpha);
        ghost var now := States();
        assert now.Keys == before.Keys;
        UpdateStep(g, before, mid, now, visited, Layer(l), visited + Layer(l));
        visited := visited + Layer(l);
      }
      assert LayerOrder[..|LayerOrder|] == LayerOrder;
      forall d | d in Elements() ensures d.Snapshot() == before[d].(a := alpha, uniformsChanged := true) {
        assert UpdatedUpTo(g, before, States(), visited, d);
      }
    }

    /** SetAlpha's share for one layer. */
    method SetAlphaOfLayer(l: LayerName, alpha: real)
      modifies Layer(l)
      ensures forall d :: d in Elements() ==>
        States()[d] == if d in Layer(l) then old(States())[d].(a := alpha, uniformsChanged := true) else old(States())[d]
    {
      ElementsAreLayerMembers();
      ElementsAllocated();
      SetAlphaIn(Layer(l), alpha);
    }

    /**
     * ForEachDrawable(f): f is applied once per position in every layer; a drawable
     * held at k positions has f applied k times, an owning registry's drawables once each.
     */
    method ForEachDrawable(f: DrawableState -> DrawableState)
      modifies Elements()
      ensures unchanged(this)
      ensures forall d :: d in Elements() ==> d.Snapshot() == Iterate(f, old(States())[d], multiset(Flatten())[d])
      ensures NoDuplicates(Flatten()) ==> forall d :: d in Elements() ==> d.Snapshot() == f(old(States())[d])
    {
      ghost var before := States();
      ghost var visited: multiset<Drawable> := multiset{};
      for i := 0 to |LayerOrder|
        invariant visited == multiset(Concat(LayerOrder[..i]))
        invariant States().Keys == before.Keys
        invariant forall d :: d in before ==> IteratedUpTo(f, before, States(), visited, d)
      {
        ConcatStep(i);
        var l := LayerOrder[i];
        ghost var layer: multiset<Drawable> := multiset(Layer(l));
        ghost var mid := States();
        LayerWithinElements(l);
        ApplyFunctorToLayer(l, f);
        ghost var now := States();
        assert now.Keys == before.Keys;
        IterateStep(f, before, mid, now, visited, layer, visited + layer);
        visited := visited + layer;
      }
      assert LayerOrder[..|LayerOrder|] == LayerOrder;
      forall d | d in Elements() ensures d.Snapshot() == Iterate(f, before[d], multiset(Flatten())[d]) {
        assert IteratedUpTo(f, before, States(), visited, d);
      }
      if NoDuplicates(Flatten()) {
        forall d | d in Elements() ensures d.Snapshot() == f(before[d]) {
          OccursOnce(Flatten(), d);
        }
      }
    }

    /** The share of ForEachDrawable that belongs to one layer. */
    method ApplyFunctorToLayer(l: LayerName, f: DrawableState -> DrawableState)
      modifies Layer(l)
      ensures forall d :: d in Elements() ==> States()[d] == Iterate(f, old(States())[d], multiset(Layer(l))[d])
    {
      ghost var before := States();
      ghost var layerBefore := StatesOf(Layer(l));
      ElementsAreLayerMembers();
      ElementsAllocated();
      ApplyFunctorIn(Layer(l), f);
      forall d | d in Elements() ensures States()[d] == Iterate(f, before[d], multiset(Layer(l))[d]) {
        if d in Layer(l) {
          assert layerBefore[d] == before[d];
        } else {
          assert multiset(Layer(l))[d] == 0;
        }
      }
    }

    /** ADDTOCONTAINER(x): the share of AppendTo that belongs to one layer. */
    method AppendLayerTo(dest: DrawableContainer, l: LayerName, transform: Matrix4, useTransform: bool)
      requires dest != this
      modifies dest, Layer(l)
      ensures dest.Layer(l) == old(dest.Layer(l)) + EnabledOf(Layer(l), old(States()))
      ensures forall m :: m != l ==> dest.Layer(m) == old(dest.Layer(m))
      ensures forall d :: d in Elements() ==>
        States()[d] == if d in Layer(l) then Stamped(old(States())[d], transform, useTransform) else old(States())[d]
    {
      ghost var before := States();
      ghost var layerBefore := StatesOf(Layer(l));
      ElementsAreLayerMembers();
      ElementsAllocated();
      EnabledOfAgree(Layer(l), layerBefore, before);
      var appended := AddDrawablesToContainer(Layer(l), dest.Layer(l), transform, useTransform);
      dest.SetLayer(l, appended);
    }

    /**
     * AppendTo(dest, transform) with use_transform: every destination layer gains the
     * enabled drawables of the same-named source layer, in source order; with
     * useTransform those source drawables themselves take the transform.
     */
    method AppendTo(dest: DrawableContainer, transform: Matrix4, useTransform: bool)
      requires dest != this
      modifies dest, Elements()
      ensures forall l :: Layer(l) == old(Layer(l))
      ensures forall l :: dest.Layer(l) == old(dest.Layer(l)) + EnabledOf(Layer(l), old(States()))
      ensures forall d :: d in Elements() ==> States()[d] == Stamped(old(States())[d], transform, useTransform)
    {
      ghost var before := States();
      ghost var g := (s: DrawableState) => Stamped(s, transform, useTransform);
      assert forall s :: g(g(s)) == g(s) by {
        forall s { StampedIdempotent(s, transform, useTransform); }
      }
      ghost var visited: seq<Drawable> := [];
      for i := 0 to |LayerOrder|
        invariant forall m :: dest.Layer(m) == old(dest.Layer(m)) + if m in LayerOrder[..i] then EnabledOf(Layer(m), before) else []
        invariant visited == Concat(LayerOrder[..i])
        invariant States().Keys == before.Keys
        invariant forall d :: d in before ==> UpdatedUpTo(g, before, States(), visited, d)
      {
        var l := LayerOrder[i];
        ConcatStep(i);
        LayerOrderStep(i);
        ghost var mid := States();
        var layer := Layer(l);
        LayerWithinElements(l);
        UpdateKeepsEnabled(g, before, mid, visited, layer);
        EnabledOfAgree(layer, mid, before);
        AppendLayerTo(dest, l, transform, useTransform);
        ghost var now := States();
        assert now.Keys == before.Keys;
        UpdateStep(g, before, mid, now, visited, layer, visited + layer);
        assert dest.Layer(l) == old(dest.Layer(l)) + EnabledOf(Layer(l), before);
        visited := visited + layer;
      }
      assert LayerOrder[..|LayerOrder|] == LayerOrder;
      LayerOrderIsComplete();
      forall d | d in Elements() ensures States()[d] == Stamped(before[d], transform, useTransform) {
        assert UpdatedUpTo(g, before, States(), visited, d);
      }
    }
  }
}
