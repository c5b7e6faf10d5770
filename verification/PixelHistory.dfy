/** Damage tracking seen one pixel at a time: when a buffer owes a pixel, what each buffer shows
    there, and that a frame paints no pixel that is not owed. */
module PixelHistory {
  import opened Protocol
  import DamageMask
  import opened Damage

  predicate Imports(e: Event) {
    e.Imported? && !(e.bad.Some? && e.bad.value < e.count)
  }

  /** How many buffers there are. */
  ghost function CountAfter(s: State, events: seq<Event>): nat {
    if events == [] then s.count
    else
      var k := |events| - 1;
      var before, e := CountAfter(s, events[..k]), events[k];
      if !Possible(Run(s, events[..k]), e) then before
      else if Imports(e) then e.count
      else if e.Imported? || e.Released? then 0
      else before
  }

  /** Buffer i owes pixel p: it has not been drawn since it was imported, since the output was rotated,
      or since a frame that another buffer got changed the pixel. */
  ghost predicate Owes(s: State, events: seq<Event>, i: nat, p: Pixel) {
    events != [] &&
    var k := |events| - 1;
    var before, e := Owes(s, events[..k], i, p), events[k];
    if !Possible(Run(s, events[..k]), e) then before
    else
      match e
      case Imported(count, _, _) => Imports(e) && i < count
      case Released => false
      case Rotated(_) => before || i < CountAfter(s, events[..k])
      case Changed(_, _) => before
      case Framed(selected, damage) => i != selected && (before || (i < CountAfter(s, events[..k]) && In(p, damage)))
  }

  /** The scene changed at p since the last frame ended. */
  ghost predicate Unpainted(s: State, events: seq<Event>, p: Pixel) {
    if events == [] then In(p, s.owed)
    else
      var k := |events| - 1;
      var before, e := Unpainted(s, events[..k], p), events[k];
      if !Possible(Run(s, events[..k]), e) then before
      else (before && !e.Framed?) || (e.Changed? && In(p, e.damage))
  }

  /** What the scene is at p. */
  ghost function SceneAt(s: State, events: seq<Event>, p: Pixel): Color {
    if events == [] then s.scene(p)
    else
      var k := |events| - 1;
      var e := events[k];
      if Possible(Run(s, events[..k]), e) && e.Rotated? then e.scene(p)
      else if Possible(Run(s, events[..k]), e) && e.Changed? then e.scene(p)
      else SceneAt(s, events[..k], p)
  }

  /** What buffer i shows at p: what the scene was there at the last frame that drew the pixel, or what
      the buffer held when it was imported. */
  ghost function Shown(s: State, events: seq<Event>, i: nat, p: Pixel): Color
    requires i < MAX_BUFS && Shape(s)
  {
    if events == [] then s.buffers[i](p)
    else
      var k := |events| - 1;
      var e := events[k];
      if !Possible(Run(s, events[..k]), e) then Shown(s, events[..k], i, p)
      else if Imports(e) then e.contents[i](p)
      else if e.Framed? && i == e.selected && (Owes(s, events[..k], i, p) || In(p, e.damage)) then SceneAt(s, events[..k], p)
      else Shown(s, events[..k], i, p)
  }

  /** Over any run, every buffer owes exactly those pixels, and shows exactly that. */
  ghost predicate Tells(s: State, events: seq<Event>, i: nat, p: Pixel)
    requires i < MAX_BUFS && Shape(s)
  {
    var t := Run(s, events);
    && Shape(t) && t.count == CountAfter(s, events)
    && (In(p, t.accum[i]) <==> Owes(s, events, i, p))
    && (In(p, t.owed) <==> Unpainted(s, events, p))
    && t.scene(p) == SceneAt(s, events, p)
    && t.buffers[i](p) == Shown(s, events, i, p)
  }

  lemma UnionIn(p: Pixel, a: Region, b: Region)
    ensures In(p, Union(a, b)) <==> In(p, a) || In(p, b)
  {
  }

  /** One frame: pixels that are neither owed nor damaged keep what they hold, in the drawn buffer as in
      every other. */
  lemma FramePaints(s: State, selected: nat, damage: Region, i: nat, p: Pixel)
    requires Shape(s) && selected < s.count && i < MAX_BUFS
    ensures var t := Frame(s, selected, damage);
            && Shape(t) && t.count == s.count && t.scene == s.scene && t.mask == s.mask && t.owed == NoRegion
            && t.buffers[i](p) == (if i == selected && (In(p, s.accum[i]) || In(p, damage)) then s.scene(p) else s.buffers[i](p))
            && (In(p, t.accum[i]) <==> i != selected && (In(p, s.accum[i]) || (i < s.count && In(p, damage))))
  {
    UnionIn(p, s.accum[i], damage);
  }

  lemma RegionMeans(p: Pixel, pixels: set<Pixel>)
    ensures In(p, Finite(pixels)) <==> p in pixels
    ensures In(p, Infinite) && !In(p, NoRegion)
  {
  }

  /** A count of zero means that no buffer is marked. */
  lemma {:induction false} MarkedNone(flags: bv8, n: nat)
    requires n <= MAX_BUFS
    ensures Marked(flags, n) == 0 <==> forall i: nat | i < n :: !DamageMask.Has(flags, i)
  {
    if n > 0 { MarkedNone(flags, n - 1); }
  }

  lemma EventTells(s: State, events: seq<Event>, k: nat, i: nat, p: Pixel)
    requires Shape(s) && i < MAX_BUFS && |events| == k + 1 && Tells(s, events[..k], i, p)
    ensures Tells(s, events, i, p)
  {
    var before, e := Run(s, events[..k]), events[k];
    if Possible(before, e) {
      match e
      case Framed(selected, damage) =>
        FramePaints(before, selected, damage, i, p);
        hide Frame;
      case Changed(damage, _) => UnionIn(p, before.owed, damage);
      case _ =>
    }
  }

  lemma {:induction false} PixelsTold(buffers: seq<Image>, scene: Image, events: seq<Event>, i: nat, p: Pixel)
    requires |buffers| == MAX_BUFS && i < MAX_BUFS
    ensures Tells(Initial(buffers, scene), events, i, p)
  {
    if events != [] {
      PixelsTold(buffers, scene, events[..|events| - 1], i, p);
      EventTells(Initial(buffers, scene), events, |events| - 1, i, p);
    }
  }
}
