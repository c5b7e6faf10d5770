/** Per-buffer damage tracking in AnlandEglLayer (v5 variant with the mask), over buffers that the
    consumer rotates: an incremental renderer that has to agree with painting everything. */
module Damage {
  import opened Protocol
  import opened DamageMask

  datatype Pixel = Pixel(x: int, y: int)
  type Color = nat
  type Image = Pixel -> Color

  datatype Region = Infinite | Finite(pixels: set<Pixel>)

  const NoRegion := Finite({})

  predicate In(p: Pixel, r: Region) {
    r.Infinite? || p in r.pixels
  }

  function Union(a: Region, b: Region): Region {
    if a.Infinite? || b.Infinite? then Infinite else Finite(a.pixels + b.pixels)
  }

  /** `buffers` and `scene` are what the pixels hold and what they ought to show. `owed` is where
      the scene changed since the last frame ended. */
  datatype State = State(
    count: nat,
    current: nat,
    accum: seq<Region>,
    flags: bv8,
    mask: bv8,
    buffers: seq<Image>,
    scene: Image,
    owed: Region)

  ghost predicate Shape(s: State) {
    |s.accum| == MAX_BUFS && |s.buffers| == MAX_BUFS && s.count <= MAX_BUFS
  }

  function Initial(buffers: seq<Image>, scene: Image): State {
    State(0, 0, seq(MAX_BUFS, _ => NoRegion), 0, 0, buffers, scene, NoRegion)
  }

  function Release(s: State): State {
    s.(accum := seq(MAX_BUFS, _ => NoRegion), flags := 0, mask := 0, count := 0)
  }

  /** `bad` says which buffer of the set fails to import, if one does. The contents of imported
      buffers are not known. */
  function Import(s: State, count: nat, bad: Option<nat>, contents: seq<Image>): State
    requires count <= MAX_BUFS
  {
    if bad.Some? && bad.value < count then Release(s)
    else
      s.(accum := seq(MAX_BUFS, i => if 0 <= i < count then Infinite else NoRegion),
         count := count, mask := Full(count), flags := Full(count), buffers := contents)
  }

  function TransformChanged(s: State, scene: Image): State
    requires |s.accum| == MAX_BUFS
  {
    s.(accum := seq(MAX_BUFS, i requires 0 <= i < MAX_BUFS => if i < s.count then Infinite else s.accum[i]),
       flags := s.mask, scene := scene)
  }

  function SceneChanged(s: State, damage: Region, scene: Image): State {
    s.(scene := scene, owed := Union(s.owed, damage))
  }

  function Paint(image: Image, scene: Image, region: Region): Image {
    p => if In(p, region) then scene(p) else image(p)
  }

  /** doBeginFrame, then the renderer, which paints the requested repaint and the new damage. */
  function BeginFrame(s: State, selected: nat): State {
    s.(current := selected)
  }

  function Render(s: State, damage: Region): State
    requires Shape(s) && s.current < s.count
  {
    var c := s.current;
    s.(buffers := s.buffers[c := Paint(s.buffers[c], s.scene, Union(s.accum[c], damage))], owed := NoRegion)
  }

  function AddDamage(s: State, damage: Region): State
    requires |s.accum| == MAX_BUFS
  {
    s.(accum := seq(MAX_BUFS, i requires 0 <= i < MAX_BUFS => if i < s.count then Union(s.accum[i], damage) else s.accum[i]))
  }

  function NextFlags(flags: bv8, mask: bv8, damage: Region, c: nat): bv8
    requires c < MAX_BUFS
  {
    (if damage != NoRegion then mask else flags) & !Bit(c)
  }

  function EndFrame(s: State, damage: Region): State
    requires Shape(s) && s.current < s.count
  {
    s.(accum := AddDamage(s, damage).accum[s.current := NoRegion], flags := NextFlags(s.flags, s.mask, damage, s.current))
  }

  function Frame(s: State, selected: nat, damage: Region): State
    requires Shape(s) && selected < s.count
  {
    EndFrame(Render(BeginFrame(s, selected), damage), damage)
  }

  /** Outside its accumulated damage and the latest scene changes a buffer is up to date. */
  ghost predicate Current(buffer: Image, scene: Image, accum: Region, owed: Region) {
    forall p: Pixel :: !In(p, accum) && !In(p, owed) ==> buffer(p) == scene(p)
  }

  ghost predicate UpToDate(s: State)
    requires Shape(s)
  {
    forall i: nat | i < s.count :: Current(s.buffers[i], s.scene, s.accum[i], s.owed)
  }

  /** Bit i says exactly whether buffer i has damage; there are no bits above the buffer count. */
  ghost predicate MaskExact(s: State)
    requires Shape(s)
  {
    && s.mask == Full(s.count)
    && forall i: nat | i < MAX_BUFS :: Has(s.flags, i) <==> i < s.count && s.accum[i] != NoRegion
  }

  ghost predicate Inv(s: State) {
    Shape(s) && UpToDate(s) && MaskExact(s)
  }

  lemma InitialHolds(buffers: seq<Image>, scene: Image)
    requires |buffers| == MAX_BUFS
    ensures Inv(Initial(buffers, scene))
  {
    FullTable();
    ZeroHasNone(0);
  }

  lemma ReleaseKeeps(s: State)
    requires Inv(s)
    ensures Inv(Release(s))
  {
    FullTable();
    ZeroHasNone(0);
  }

  lemma ImportKeeps(s: State, count: nat, bad: Option<nat>, contents: seq<Image>)
    requires Inv(s) && count <= MAX_BUFS && |contents| == MAX_BUFS
    ensures Inv(Import(s, count, bad, contents))
  {
    if bad.Some? && bad.value < count {
      ReleaseKeeps(s);
    } else {
      forall i: nat | i < MAX_BUFS ensures Has(Full(count), i) <==> i < count {
        FullHas(count, i);
      }
    }
  }

  lemma TransformKeeps(s: State, scene: Image)
    requires Inv(s)
    ensures Inv(TransformChanged(s, scene))
  {
    forall i: nat | i < MAX_BUFS ensures Has(Full(s.count), i) <==> i < s.count {
      FullHas(s.count, i);
    }
  }

  lemma SceneKeeps(s: State, damage: Region, scene: Image)
    requires Inv(s) && forall p: Pixel :: !In(p, damage) ==> scene(p) == s.scene(p)
    ensures Inv(SceneChanged(s, damage, scene))
  {
  }

  lemma RenderPaints(s: State, damage: Region)
    requires Shape(s) && UpToDate(s) && s.current < s.count
    requires forall p: Pixel :: In(p, s.owed) ==> In(p, damage)
    ensures forall p: Pixel :: Render(s, damage).buffers[s.current](p) == s.scene(p)
    ensures forall i: nat | i < s.count && i != s.current :: Current(s.buffers[i], s.scene, Union(s.accum[i], damage), NoRegion)
  {
    forall i: nat | i < s.count ensures Current(s.buffers[i], s.scene, Union(s.accum[i], damage), NoRegion) {
      assert Current(s.buffers[i], s.scene, s.accum[i], s.owed);
    }
  }

  lemma EndAccum(s: State, damage: Region, i: nat)
    requires Shape(s) && s.current < s.count && i < s.count
    ensures EndFrame(s, damage).accum[i] != NoRegion <==> i != s.current && (s.accum[i] != NoRegion || damage != NoRegion)
  {
    UnionEmpty(s.accum[i], damage);
  }

  lemma NextFlagsHas(flags: bv8, count: nat, damage: Region, c: nat, i: nat)
    requires count <= MAX_BUFS && c < MAX_BUFS && i < MAX_BUFS
    ensures Has(NextFlags(flags, Full(count), damage, c), i) <==>
              i != c && if damage != NoRegion then i < count else Has(flags, i)
  {
    if damage != NoRegion {
      FullHas(count, i);
      ClearHas(Full(count), c, i);
    } else {
      ClearHas(flags, c, i);
    }
  }

  lemma UnionEmpty(a: Region, b: Region)
    ensures Union(a, b) == NoRegion <==> a == NoRegion && b == NoRegion
  {
    if a.Finite? && b.Finite? && a.pixels + b.pixels == {} {
      assert a.pixels <= a.pixels + b.pixels && b.pixels <= a.pixels + b.pixels;
    }
  }

  lemma EndKeepsMask(s: State, damage: Region)
    requires Shape(s) && MaskExact(s) && s.current < s.count
    ensures MaskExact(EndFrame(s, damage))
  {
    forall i: nat | i < MAX_BUFS
      ensures Has(EndFrame(s, damage).flags, i) <==> i < s.count && EndFrame(s, damage).accum[i] != NoRegion
    {
      NextFlagsHas(s.flags, s.count, damage, s.current, i);
      if i < s.count {
        EndAccum(s, damage, i);
      }
    }
  }

  /** The buffer just ended shows the whole scene, though only repaint and damage were painted,
      and the other buffers stay correct outside what they are owed. */
  lemma FrameShowsScene(s: State, selected: nat, damage: Region)
    requires Inv(s) && selected < s.count
    requires forall p: Pixel :: In(p, s.owed) ==> In(p, damage)
    ensures Inv(Frame(s, selected, damage))
    ensures forall p: Pixel :: Frame(s, selected, damage).buffers[selected](p) == s.scene(p)
  {
    var begun := BeginFrame(s, selected);
    RenderPaints(begun, damage);
    EndKeepsMask(Render(begun, damage), damage);
  }

  datatype Event =
    | Imported(count: nat, bad: Option<nat>, contents: seq<Image>)
    | Released
    | Rotated(scene: Image)
    | Changed(damage: Region, scene: Image)
    | Framed(selected: nat, damage: Region)

  /** A frame is composed only while there are buffers, for a selected one of them, and its
      damage covers whatever changed since the last frame. */
  ghost predicate Possible(s: State, e: Event) {
    && Shape(s)
    && match e
       case Imported(count, _, contents) => count <= MAX_BUFS && |contents| == MAX_BUFS
       case Released => true
       case Rotated(_) => true
       case Changed(damage, scene) => forall p: Pixel :: !In(p, damage) ==> scene(p) == s.scene(p)
       case Framed(selected, damage) => selected < s.count && forall p: Pixel :: In(p, s.owed) ==> In(p, damage)
  }

  ghost function Do(s: State, e: Event): State
    requires Possible(s, e)
  {
    match e
    case Imported(count, bad, contents) => Import(s, count, bad, contents)
    case Released => Release(s)
    case Rotated(scene) => TransformChanged(s, scene)
    case Changed(damage, scene) => SceneChanged(s, damage, scene)
    case Framed(selected, damage) => Frame(s, selected, damage)
  }

  ghost function Run(s: State, events: seq<Event>): State {
    if events == [] then s
    else
      var before := Run(s, events[..|events| - 1]);
      if Possible(before, events[|events| - 1]) then Do(before, events[|events| - 1]) else before
  }

  lemma {:induction false} RunKeeps(buffers: seq<Image>, scene: Image, events: seq<Event>)
    requires |buffers| == MAX_BUFS
    ensures Inv(Run(Initial(buffers, scene), events))
  {
    if events == [] {
      InitialHolds(buffers, scene);
    } else {
      RunKeeps(buffers, scene, events[..|events| - 1]);
      var s := Run(Initial(buffers, scene), events[..|events| - 1]);
      var e := events[|events| - 1];
      if Possible(s, e) {
        match e
        case Imported(count, bad, contents) => ImportKeeps(s, count, bad, contents);
        case Released => ReleaseKeeps(s);
        case Rotated(newScene) => TransformKeeps(s, newScene);
        case Changed(damage, newScene) => SceneKeeps(s, damage, newScene);
        case Framed(selected, damage) => FrameShowsScene(s, selected, damage);
      }
    }
  }

  /** Incremental rendering equals a full repaint, after any history. */
  lemma IncrementalEqualsFull(buffers: seq<Image>, scene: Image, events: seq<Event>, selected: nat, damage: Region)
    requires |buffers| == MAX_BUFS
    requires Possible(Run(Initial(buffers, scene), events), Framed(selected, damage))
    ensures var s := Run(Initial(buffers, scene), events);
            var t := Do(s, Framed(selected, damage));
            Inv(t) && t.scene == s.scene && forall p: Pixel :: t.buffers[selected](p) == t.scene(p)
  {
    RunKeeps(buffers, scene, events);
    FrameShowsScene(Run(Initial(buffers, scene), events), selected, damage);
  }

  /** The simple form of the Arch variant: look for any buffer with damage. */
  ghost predicate AnyDamaged(accum: seq<Region>, count: nat)
    requires count <= |accum|
  {
    exists i :: 0 <= i < count && accum[i] != NoRegion
  }

  lemma FlagsMeanDamage(s: State)
    requires Inv(s)
    ensures s.flags != 0 <==> AnyDamaged(s.accum, s.count)
  {
    ZeroHasNone(s.flags);
    assert forall i: nat | i < MAX_BUFS :: Has(s.flags, i) <==> i < s.count && s.accum[i] != NoRegion;
  }

  /** The mask and the scan ask for another repaint after the same frames, for up to and including
      eight buffers, whatever happened before. */
  lemma MaskRefinesScan(buffers: seq<Image>, scene: Image, events: seq<Event>)
    requires |buffers| == MAX_BUFS
    ensures var s := Run(Initial(buffers, scene), events);
            Shape(s) && (s.flags != 0 <==> AnyDamaged(s.accum, s.count))
  {
    RunKeeps(buffers, scene, events);
    FlagsMeanDamage(Run(Initial(buffers, scene), events));
  }

  /** Frames of an idle scene, for the buffers selected in turn. */
  ghost function Idle(s: State, visits: seq<nat>): State
    requires Inv(s) && s.owed == NoRegion
    requires forall k :: 0 <= k < |visits| ==> visits[k] < s.count
    ensures Inv(Idle(s, visits)) && Idle(s, visits).owed == NoRegion && Idle(s, visits).count == s.count
    decreases |visits|
  {
    if visits == [] then s
    else
      var before := Idle(s, visits[..|visits| - 1]);
      FrameShowsScene(before, visits[|visits| - 1], NoRegion);
      Frame(before, visits[|visits| - 1], NoRegion)
  }

  /** An idle frame settles the buffer it draws and no other. */
  lemma IdleFrame(s: State, c: nat, i: nat)
    requires Inv(s) && c < s.count && i < MAX_BUFS
    ensures Has(Frame(s, c, NoRegion).flags, i) <==> Has(s.flags, i) && i != c
  {
    ClearHas(s.flags, c, i);
  }

  /** With an idle scene, exactly the buffers not visited yet remain marked. */
  lemma {:induction false} IdleClearsVisited(s: State, visits: seq<nat>, i: nat)
    requires Inv(s) && s.owed == NoRegion && i < MAX_BUFS
    requires forall k :: 0 <= k < |visits| ==> visits[k] < s.count
    ensures Has(Idle(s, visits).flags, i) <==> Has(s.flags, i) && i !in visits
    decreases |visits|
  {
    if visits != [] {
      var k := |visits| - 1;
      IdleClearsVisited(s, visits[..k], i);
      IdleFrame(Idle(s, visits[..k]), visits[k], i);
      assert visits == visits[..k] + [visits[k]];
    }
  }

  /** Self-scheduled repaints of an idle scene stop exactly when every damaged buffer was drawn. */
  lemma IdleRepaintsStop(s: State, visits: seq<nat>)
    requires Inv(s) && s.owed == NoRegion
    requires forall k :: 0 <= k < |visits| ==> visits[k] < s.count
    ensures Idle(s, visits).flags == 0 <==> forall i: nat | i < s.count && s.accum[i] != NoRegion :: i in visits
  {
    ZeroHasNone(Idle(s, visits).flags);
    forall i: nat | i < MAX_BUFS
      ensures Has(Idle(s, visits).flags, i) <==> i < s.count && s.accum[i] != NoRegion && i !in visits
    {
      IdleClearsVisited(s, visits, i);
    }
  }

  /** The number of marked buffers among the first n. */
  function Marked(flags: bv8, n: nat): nat
    requires n <= MAX_BUFS
  {
    if n == 0 then 0 else Marked(flags, n - 1) + if Has(flags, n - 1) then 1 else 0
  }

  /** Each idle frame lowers the count by one if it draws a marked buffer, else leaves it. */
  lemma {:induction false} IdleLowersCount(s: State, c: nat, n: nat)
    requires Inv(s) && c < s.count && n <= MAX_BUFS
    ensures Marked(Frame(s, c, NoRegion).flags, n) == Marked(s.flags, n) - if c < n && Has(s.flags, c) then 1 else 0
  {
    if n > 0 {
      IdleLowersCount(s, c, n - 1);
      IdleFrame(s, c, n - 1);
    }
  }
}
