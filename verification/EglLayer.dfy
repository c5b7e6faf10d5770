/** AnlandEglLayer with its damage array and mask updated in place. The pixels are ghost state,
    painted by KWin's renderer between the beginning and the end of a frame. */
module EglLayer {
  import opened Protocol
  import opened DamageMask
  import opened Damage

  class AnlandEglLayer {
    const accumDamage: array<Region>
    var bufCount: nat
    var currentIndex: nat
    var damageFlags: bv8
    var damageMask: bv8
    ghost var buffers: seq<Image>
    ghost var scene: Image
    ghost var owed: Region

    ghost function Abs(): State
      reads this, accumDamage
    {
      State(bufCount, currentIndex, accumDamage[..], damageFlags, damageMask, buffers, scene, owed)
    }

    constructor (ghost contents: seq<Image>, ghost shown: Image)
      requires |contents| == MAX_BUFS
      ensures Abs() == Initial(contents, shown) && Inv(Abs()) && fresh(accumDamage)
    {
      accumDamage := new Region[MAX_BUFS](_ => NoRegion);
      bufCount, currentIndex, damageFlags, damageMask := 0, 0, 0, 0;
      buffers, scene, owed := contents, shown, NoRegion;
      new;
      InitialHolds(contents, shown);
      assert accumDamage[..] == Initial(contents, shown).accum;
    }

    method ReleaseBuffers()
      requires Shape(Abs())
      modifies this`bufCount, this`damageFlags, this`damageMask, accumDamage
      ensures Abs() == Release(old(Abs()))
    {
      for i := 0 to MAX_BUFS
        invariant forall j :: 0 <= j < i ==> accumDamage[j] == NoRegion
      {
        accumDamage[i] := NoRegion;
      }
      damageFlags := 0;
      damageMask := 0;
      bufCount := 0;
      assert accumDamage[..] == Release(old(Abs())).accum;
    }

    /** `bad` is the buffer whose descriptor, texture or framebuffer turns out unusable. */
    method ImportBuffers(count: nat, bad: Option<nat>, ghost contents: seq<Image>) returns (ok: bool)
      requires Inv(Abs()) && count <= MAX_BUFS && |contents| == MAX_BUFS
      modifies this, accumDamage
      ensures Inv(Abs()) && Abs() == Import(old(Abs()), count, bad, contents)
      ensures ok <==> bufCount == count && (bad.Some? ==> bad.value >= count)
    {
      ImportKeeps(Abs(), count, bad, contents);
      ReleaseBuffers();
      for i := 0 to count
        invariant bufCount == 0 && damageFlags == 0 && damageMask == 0
        invariant Abs() == old(Abs()).(accum := accumDamage[..], flags := 0, mask := 0, count := 0)
        invariant bad.Some? ==> bad.value >= i
        invariant forall j :: 0 <= j < i ==> accumDamage[j] == Infinite
        invariant forall j :: i <= j < MAX_BUFS ==> accumDamage[j] == NoRegion
      {
        if bad == Some(i) {
          ReleaseBuffers();
          return false;
        }
        accumDamage[i] := Infinite;
      }
      bufCount := count;
      damageMask := Full(count);
      damageFlags := damageMask;
      buffers := contents;
      assert accumDamage[..] == Import(old(Abs()), count, bad, contents).accum;
      return true;
    }

    method OnOutputTransformChanged(ghost shown: Image)
      requires Inv(Abs())
      modifies this, accumDamage
      ensures Inv(Abs()) && Abs() == TransformChanged(old(Abs()), shown)
    {
      TransformKeeps(Abs(), shown);
      for i := 0 to bufCount
        invariant Abs() == old(Abs()).(accum := accumDamage[..])
        invariant forall j :: 0 <= j < i ==> accumDamage[j] == Infinite
        invariant forall j :: i <= j < MAX_BUFS ==> accumDamage[j] == old(accumDamage[j])
      {
        accumDamage[i] := Infinite;
      }
      damageFlags := damageMask;
      scene := shown;
      assert accumDamage[..] == TransformChanged(old(Abs()), shown).accum;
    }

    method DoBeginFrame(selected: nat) returns (repaint: Region)
      requires Shape(Abs()) && selected < bufCount
      modifies this`currentIndex
      ensures Abs() == BeginFrame(old(Abs()), selected) && repaint == accumDamage[selected]
    {
      currentIndex := selected;
      return accumDamage[selected];
    }

    /** What KWin does between the two calls. */
    ghost method Draw(repaint: Region, damage: Region)
      requires Shape(Abs()) && currentIndex < bufCount && repaint == accumDamage[currentIndex]
      modifies this`buffers, this`owed
      ensures Abs() == Render(old(Abs()), damage)
    {
      buffers := buffers[currentIndex := Paint(buffers[currentIndex], scene, Union(repaint, damage))];
      owed := NoRegion;
    }

    method AccumulateDamage(damage: Region)
      requires Shape(Abs())
      modifies accumDamage
      ensures Abs() == AddDamage(old(Abs()), damage)
    {
      for i := 0 to bufCount
        invariant Abs() == old(Abs()).(accum := accumDamage[..])
        invariant forall j :: 0 <= j < i ==> accumDamage[j] == Union(old(accumDamage[j]), damage)
        invariant forall j :: i <= j < MAX_BUFS ==> accumDamage[j] == old(accumDamage[j])
      {
        accumDamage[i] := Union(accumDamage[i], damage);
      }
      assert accumDamage[..] == AddDamage(old(Abs()), damage).accum;
    }

    method UpdateFlags(damage: Region)
      requires currentIndex < MAX_BUFS
      modifies this`damageFlags
      ensures damageFlags == NextFlags(old(damageFlags), damageMask, damage, currentIndex)
    {
      if damage != NoRegion {
        damageFlags := damageMask;
      }
      damageFlags := damageFlags & !Bit(currentIndex);
    }

    method DoEndFrame(damage: Region) returns (repaintNeeded: bool)
      requires Shape(Abs()) && currentIndex < bufCount
      modifies this`damageFlags, accumDamage
      ensures Abs() == EndFrame(old(Abs()), damage)
      ensures repaintNeeded <==> damageFlags != 0
    {
      AccumulateDamage(damage);
      accumDamage[currentIndex] := NoRegion;
      assert accumDamage[..] == AddDamage(old(Abs()), damage).accum[currentIndex := NoRegion];
      UpdateFlags(damage);
      return damageFlags != 0;
    }

    /** One composed frame: what the chosen buffer holds afterwards is the scene. */
    method ComposeFrame(selected: nat, damage: Region) returns (repaintNeeded: bool)
      requires Inv(Abs()) && selected < bufCount
      requires forall p: Pixel :: In(p, owed) ==> In(p, damage)
      modifies this, accumDamage
      ensures Inv(Abs()) && Abs() == Frame(old(Abs()), selected, damage)
      ensures forall p: Pixel :: buffers[selected](p) == scene(p)
    {
      FrameShowsScene(Abs(), selected, damage);
      var repaint := DoBeginFrame(selected);
      Draw(repaint, damage);
      repaintNeeded := DoEndFrame(damage);
    }

    /** The Arch variant has no mask: it looks through the buffers and stops at the first hit. */
    method ScanForDamage() returns (repaintNeeded: bool)
      requires Shape(Abs())
      ensures repaintNeeded <==> AnyDamaged(accumDamage[..], bufCount)
      ensures Inv(Abs()) ==> (repaintNeeded <==> damageFlags != 0)
    {
      repaintNeeded := false;
      for i := 0 to bufCount
        invariant !repaintNeeded
        invariant forall j :: 0 <= j < i ==> accumDamage[j] == NoRegion
      {
        if accumDamage[i] != NoRegion {
          assert accumDamage[..][i] != NoRegion;
          repaintNeeded := true;
          break;
        }
      }
      if Inv(Abs()) {
        FlagsMeanDamage(Abs());
      }
    }
  }
}
