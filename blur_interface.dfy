/**
 * The compositor side of the mbition_blur_manager_v1 protocol: a registry
 * from surfaces to blur objects, each holding the buffer its client attached
 * as a mask and a texture uploaded from it on demand.
 *
 * Buffers are tokens. Whether a buffer can be viewed as shared memory and
 * whether an upload succeeds are inputs. Deleting a C++ object is modelled as
 * clearing its `alive` flag; a registry entry still pointing at such an
 * object is a dangling pointer.
 */
module BlurInterface {

  import opened Wrappers

  type SurfaceId = nat

  /** A client buffer attached as a mask; `shm` says whether it has shared-memory attributes. */
  datatype Buffer = Buffer(id: nat, shm: bool)

  /** A GL texture uploaded from a mask buffer. */
  class MaskTexture {
    const image: Buffer

    constructor (image: Buffer)
      ensures this.image == image
    {
      this.image := image;
    }
  }

  /** BlurNGSurfaceInterface with its private part: the mask buffer, the
      texture cache, and the blurChanged signals it has emitted. */
  class SurfaceBlur {
    const surface: SurfaceId
    var buffer: Option<Buffer>
    var texture: MaskTexture?
    var alive: bool
    var changed: seq<SurfaceId>

    constructor (surface: SurfaceId)
      ensures this.surface == surface && buffer == None && texture == null && alive && changed == []
    {
      this.surface := surface;
      buffer := None;
      texture := null;
      alive := true;
      changed := [];
    }

    /** set_mask: drop the cached texture, keep the new buffer (which must be
        a shared-memory buffer) and signal that the surface's blur changed. */
    method SetMask(mask: Buffer)
      requires mask.shm
      modifies this
      ensures texture == null && buffer == Some(mask)
      ensures changed == old(changed) + [surface] && alive == old(alive)
    {
      texture := null;
      buffer := Some(mask);
      changed := changed + [surface];
    }

    /** unset_mask: drop both the buffer and the texture, and signal. */
    method UnsetMask()
      modifies this
      ensures texture == null && buffer == None
      ensures changed == old(changed) + [surface] && alive == old(alive)
    {
      buffer := None;
      texture := null;
      changed := changed + [surface];
    }

    /** loadShmTexture: without a viewable buffer nothing happens and the
        answer is false; otherwise the texture is replaced by a fresh upload
        of the buffer, or by nothing when the upload fails. */
    method LoadShmTexture(viewOk: bool, uploadOk: bool) returns (ok: bool)
      modifies this
      ensures buffer == old(buffer) && alive == old(alive) && changed == old(changed)
      ensures buffer.None? || !viewOk ==> !ok && texture == old(texture)
      ensures buffer.Some? && viewOk ==> ok == uploadOk && (ok <==> texture != null)
      ensures ok ==> fresh(texture) && texture.image == buffer.value
    {
      if buffer.None? || !viewOk {
        return false;
      }
      if uploadOk {
        texture := new MaskTexture(buffer.value);
      } else {
        texture := null;
      }
      ok := texture != null;
    }

    /** destroy_resource as written: the object is deleted, and nothing tells
        the registry. */
    method DestroyResource()
      modifies this
      ensures !alive
      ensures buffer == old(buffer) && texture == old(texture) && changed == old(changed)
    {
      alive := false;
    }
  }

  /** How a get_blur request ends. */
  datatype GetBlurResult = InvalidSurface | NoMemory | BlurExists | Registered(blur: SurfaceBlur)

  /** What mask() hands back: the (possibly absent) texture, or a read through
      a pointer to a deleted blur object. */
  datatype MaskResult = Found(texture: MaskTexture?) | UseAfterFree

  /** BlurNGManagerInterface with its private part: the registry. */
  class Manager {
    var blurs: map<SurfaceId, SurfaceBlur?>

    constructor ()
      ensures blurs == map[]
    {
      blurs := map[];
    }

    /** Every registered object is alive and is filed under its own surface. */
    ghost predicate Live()
      reads this, blurs.Values
    {
      forall s :: s in blurs && blurs[s] != null ==> blurs[s].alive && blurs[s].surface == s
    }

    /** get_blur: a resource that is not a surface is an error, as is a
        failed allocation of the new resource; looking the surface up
        inserts an empty entry, and a surface that already has a blur object
        is an error that leaves it in place; otherwise a new object is
        registered for the surface. */
    method GetBlur(surface: Option<SurfaceId>, resourceCreated: bool) returns (r: GetBlurResult)
      modifies this
      ensures surface.None? ==> r == InvalidSurface && blurs == old(blurs)
      ensures surface.Some? && !resourceCreated ==> r == NoMemory && blurs == old(blurs)
      ensures surface.Some? && resourceCreated ==>
                var s := surface.value;
                if s in old(blurs) && old(blurs)[s] != null then r == BlurExists && blurs == old(blurs)
                else r.Registered? && fresh(r.blur) && blurs == old(blurs)[s := r.blur]
                     && r.blur.surface == s && r.blur.alive && r.blur.buffer == None
                     && r.blur.texture == null && r.blur.changed == []
      ensures old(Live()) ==> Live()
    {
      if surface.None? {
        return InvalidSurface;
      }
      if !resourceCreated {
        return NoMemory;
      }
      var s := surface.value;
      if s !in blurs {
        blurs := blurs[s := null];
      }
      var blur := blurs[s];
      if blur != null {
        return BlurExists;
      }
      blur := new SurfaceBlur(s);
      blurs := blurs[s := blur];
      r := Registered(blur);
    }

    /** mask(): looking the surface up inserts an empty entry; no blur object
        means no texture; otherwise the cached texture, uploaded first when
        there is none. Reading through a deleted object is undefined, here
        UseAfterFree. */
    method Mask(s: SurfaceId, viewOk: bool, uploadOk: bool) returns (r: MaskResult)
      modifies this, if s in blurs && blurs[s] != null then {blurs[s]} else {}
      ensures blurs == if s in old(blurs) then old(blurs) else old(blurs)[s := null]
      ensures s !in old(blurs) || old(blurs)[s] == null ==> r == Found(null)
      ensures s in old(blurs) && old(blurs)[s] != null ==>
                var b := old(blurs)[s];
                (!old(b.alive) ==> r == UseAfterFree && unchanged(b))
                && (old(b.alive) && old(b.texture) != null ==> r == Found(old(b.texture)) && unchanged(b))
                && (old(b.alive) && old(b.texture) == null ==>
                      r == Found(b.texture) && b.buffer == old(b.buffer)
                      && b.alive && b.changed == old(b.changed)
                      && (old(b.buffer).None? || !viewOk || !uploadOk ==> b.texture == null)
                      && (old(b.buffer).Some? && viewOk && uploadOk ==>
                            b.texture != null && fresh(b.texture) && b.texture.image == old(b.buffer).value))
      ensures old(Live()) ==> Live() && !r.UseAfterFree?
    {
      if s !in blurs {
        blurs := blurs[s := null];
      }
      var x := blurs[s];
      if x == null {
        return Found(null);
      }
      if !x.alive {
        return UseAfterFree;
      }
      if x.texture == null {
        var _ := x.LoadShmTexture(viewOk, uploadOk);
      }
      r := Found(x.texture);
    }

    /** Surface destruction as intended: the object is deleted and its entry
        erased along with it, so the surface can be registered again. */
    method DestroySurfaceBlur(s: SurfaceId)
      requires s in blurs && blurs[s] != null
      modifies this, blurs[s]
      ensures blurs == old(blurs) - {s}
      ensures !old(blurs[s]).alive
      ensures old(Live()) ==> Live()
    {
      var b := blurs[s];
      b.DestroyResource();
      blurs := blurs - {s};
    }
  }

  /** As written, a surface whose blur object was destroyed can never be
      registered again, and mask() reads the deleted object. */
  method ReRegisterAfterDestroyAsWritten() returns (again: GetBlurResult, mask: MaskResult)
    ensures again == BlurExists && mask == UseAfterFree
  {
    var m := new Manager();
    var first := m.GetBlur(Some(7), true);
    first.blur.DestroyResource();
    again := m.GetBlur(Some(7), true);
    mask := m.Mask(7, true, true);
  }

  /** With the entry erased on destruction, the surface registers again and
      mask() finds nothing to read. */
  method ReRegisterAfterDestroyCorrected() returns (again: GetBlurResult, maskBefore: MaskResult)
    ensures again.Registered? && again.blur.surface == 7 && maskBefore == Found(null)
  {
    var m := new Manager();
    var first := m.GetBlur(Some(7), true);
    m.DestroySurfaceBlur(7);
    maskBefore := m.Mask(7, true, true);
    again := m.GetBlur(Some(7), true);
  }

  /** Asking for the mask of a surface nobody registered gives nothing and
      leaves only an empty entry, which does not stop the surface's own
      registration; a second get_blur for it is then refused. */
  method MaskBeforeRegistration() returns (mask: MaskResult, first: GetBlurResult, second: GetBlurResult)
    ensures mask == Found(null) && first.Registered? && second == BlurExists
  {
    var m := new Manager();
    mask := m.Mask(3, true, true);
    first := m.GetBlur(Some(3), true);
    second := m.GetBlur(Some(3), true);
  }

  /** The texture is uploaded once: a second mask() returns the same texture
      even when the buffer could no longer be viewed, until set_mask drops it. */
  method MaskIsCached(buffer: Buffer) returns (t1: MaskResult, t2: MaskResult, t3: MaskResult)
    requires buffer.shm
    ensures t1.Found? && t1.texture != null && t1.texture.image == buffer
    ensures t2 == t1
    ensures t3 == Found(null)
  {
    var m := new Manager();
    var reg := m.GetBlur(Some(1), true);
    reg.blur.SetMask(buffer);
    t1 := m.Mask(1, true, true);
    t2 := m.Mask(1, false, false);
    reg.blur.SetMask(buffer);
    t3 := m.Mask(1, false, true);
  }

  /** A request naming something that is not a surface registers nothing. */
  method InvalidSurfaceRegistersNothing() returns (r: GetBlurResult, mask: MaskResult)
    ensures r == InvalidSurface && mask == Found(null)
  {
    var m := new Manager();
    r := m.GetBlur(None, true);
    mask := m.Mask(0, true, true);
  }
}
