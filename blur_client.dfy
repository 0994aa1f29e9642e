/**
 * The client side of the mbition_blur_v1 protocol: the per-window blur
 * surface objects a manager creates on demand, and the mask object whose
 * setters remember their state and turn changes into protocol requests.
 * Requests are recorded, in order, in a log on the object that sends them.
 */
module BlurClient {

  import opened Wrappers

  /** A QWindow, by identity. */
  type WindowRef = nat

  /** A wl_surface, by identity. */
  type NativeSurface = nat

  /** A QImage, compared by content; the default image is the null image. */
  datatype Image = NullImage | Pixels(width: nat, height: nat, data: seq<int>)

  /** A QRectF. */
  datatype RectF = RectF(x: real, y: real, width: real, height: real)

  /** A default-constructed QRectF. */
  const EmptyRectF := RectF(0.0, 0.0, 0.0, 0.0)

  /** A client blur surface object (mbition_blur_surface_v1) for one window. */
  class BlurSurface {
    const window: WindowRef
    const native: NativeSurface
    var destroyed: bool

    constructor (window: WindowRef, native: NativeSurface)
      ensures this.window == window && this.native == native && !destroyed
    {
      this.window := window;
      this.native := native;
      destroyed := false;
    }

    /** The destructor: the protocol object is destroyed with it. */
    method Destroy()
      modifies this
      ensures destroyed
    {
      destroyed := true;
    }
  }

  /** The requests a mask object sends. AddMaskTo is the add_mask request
      sent on the surface object with this mask as its argument. */
  datatype MaskRequest =
    | GeometrySent(x: real, y: real, width: real, height: real)
    | AddMaskTo(surface: BlurSurface)
    | MaskSent(image: Image, intensity: real)
    | Done

  /** BlurMask: a mask image and intensity that are sent on demand, a
      geometry sent as soon as it changes, and the surface it is attached to. */
  class BlurMask {
    var intensity: real
    var geo: RectF
    var mask: Image
    var dirty: bool
    var surface: BlurSurface?
    var sent: seq<MaskRequest>

    /** A new mask: full intensity, empty geometry, null image, nothing
        attached, and dirty, so that the first done carries the mask. */
    constructor ()
      ensures intensity == 1.0 && geo == EmptyRectF && mask == NullImage
      ensures dirty && surface == null && sent == []
    {
      intensity := 1.0;
      geo := EmptyRectF;
      mask := NullImage;
      dirty := true;
      surface := null;
      sent := [];
    }

    /** setMask: an image equal to the current one changes nothing; another
        one is stored and marks the mask dirty. Nothing is sent. */
    method SetMask(image: Image)
      modifies this
      ensures image == old(mask) ==> mask == old(mask) && dirty == old(dirty)
      ensures image != old(mask) ==> mask == image && dirty
      ensures intensity == old(intensity) && geo == old(geo) && surface == old(surface) && sent == old(sent)
    {
      if mask == image {
        return;
      }
      mask := image;
      dirty := true;
    }

    /** setIntensity: always stored, always dirty. Nothing is sent. */
    method SetIntensity(value: real)
      modifies this
      ensures intensity == value && dirty
      ensures mask == old(mask) && geo == old(geo) && surface == old(surface) && sent == old(sent)
    {
      intensity := value;
      dirty := true;
    }

    /** setGeometry: an unchanged rectangle sends nothing; a new one is
        stored and sent at once as one set_geometry request. */
    method SetGeometry(rect: RectF)
      modifies this
      ensures rect == old(geo) ==> sent == old(sent)
      ensures rect != old(geo) ==> sent == old(sent) + [GeometrySent(rect.x, rect.y, rect.width, rect.height)]
      ensures geo == rect
      ensures intensity == old(intensity) && mask == old(mask) && dirty == old(dirty) && surface == old(surface)
    {
      if rect == geo {
        return;
      }
      geo := rect;
      sent := sent + [GeometrySent(rect.x, rect.y, rect.width, rect.height)];
    }

    /** setSurface: the same surface changes nothing; another one is
        remembered, and the mask is added to it unless it is null. */
    method SetSurface(target: BlurSurface?)
      modifies this
      ensures surface == target
      ensures target == old(surface) || target == null ==> sent == old(sent)
      ensures target != old(surface) && target != null ==> sent == old(sent) + [AddMaskTo(target)]
      ensures intensity == old(intensity) && mask == old(mask) && dirty == old(dirty) && geo == old(geo)
    {
      if surface == target {
        return;
      }
      surface := target;
      if target != null {
        sent := sent + [AddMaskTo(target)];
      }
    }

    /** sendMask: the image and intensity go out. Its definition is not part
        of this model, so whether it leaves the mask clean is the input
        `dirtyAfter`. */
    method SendMask(dirtyAfter: bool)
      modifies this
      ensures sent == old(sent) + [MaskSent(mask, intensity)]
      ensures dirty == dirtyAfter
      ensures intensity == old(intensity) && mask == old(mask)
      ensures geo == old(geo) && surface == old(surface)
    {
      sent := sent + [MaskSent(mask, intensity)];
      dirty := dirtyAfter;
    }

    /** sendDone: the mask goes out first when it is dirty, then done. A mask
        that was not dirty stays so. */
    method SendDone(dirtyAfter: bool)
      modifies this
      ensures old(dirty) ==> sent == old(sent) + [MaskSent(mask, intensity), Done] && dirty == dirtyAfter
      ensures !old(dirty) ==> sent == old(sent) + [Done] && !dirty
      ensures intensity == old(intensity) && mask == old(mask)
      ensures geo == old(geo) && surface == old(surface)
    {
      if dirty {
        SendMask(dirtyAfter);
      }
      sent := sent + [Done];
    }
  }

  /** The requests the manager sends: get_blur for a native surface. */
  datatype ManagerRequest = GetBlur(native: NativeSurface)

  /** BlurManager: the cache from windows to their blur surface objects. */
  class BlurManager {
    var surfaces: map<WindowRef, BlurSurface>
    var sent: seq<ManagerRequest>

    constructor ()
      ensures surfaces == map[] && sent == []
      ensures Valid()
    {
      surfaces := map[];
      sent := [];
    }

    /** Every cached surface object belongs to its window and is not destroyed. */
    ghost predicate Valid()
      reads this, surfaces.Values
    {
      forall w :: w in surfaces ==> surfaces[w].window == w && !surfaces[w].destroyed
    }

    /** surface(): no window, or no native surface for it, gives null and
        touches nothing; a window seen before gets its cached object back;
        otherwise a new object is made with a get_blur request and cached.
        `native` is what the platform reports as the window's wl_surface. */
    method Surface(window: Option<WindowRef>, native: Option<NativeSurface>) returns (s: BlurSurface?)
      requires Valid()
      modifies this
      ensures Valid()
      ensures window.None? || native.None? ==> s == null && surfaces == old(surfaces) && sent == old(sent)
      ensures window.Some? && native.Some? && window.value in old(surfaces) ==>
                s == old(surfaces)[window.value] && surfaces == old(surfaces) && sent == old(sent)
      ensures window.Some? && native.Some? && window.value !in old(surfaces) ==>
                s != null && fresh(s) && s.window == window.value && s.native == native.value
                && surfaces == old(surfaces)[window.value := s]
                && sent == old(sent) + [GetBlur(native.value)]
    {
      if window.None? || native.None? {
        return null;
      }
      var w := window.value;
      if w in surfaces {
        return surfaces[w];
      }
      s := new BlurSurface(w, native.value);
      sent := sent + [GetBlur(native.value)];
      surfaces := surfaces[w := s];
    }

    /** forgetSurface: the window's entry is taken out and its object
        destroyed; a window without an entry changes nothing. */
    method ForgetSurface(window: WindowRef)
      requires Valid()
      modifies this, if window in surfaces then {surfaces[window]} else {}
      ensures Valid()
      ensures surfaces == old(surfaces) - {window} && sent == old(sent)
      ensures window in old(surfaces) ==> old(surfaces)[window].destroyed
    {
      if window in surfaces {
        var s := surfaces[window];
        surfaces := surfaces - {window};
        s.Destroy();
      }
    }

    /** The visibility handler each surface object installs: a window that
        becomes hidden has its surface object forgotten. */
    method VisibilityChanged(window: WindowRef, hidden: bool)
      requires Valid()
      modifies this, if window in surfaces then {surfaces[window]} else {}
      ensures Valid()
      ensures hidden ==> surfaces == old(surfaces) - {window}
      ensures !hidden ==> surfaces == old(surfaces)
      ensures sent == old(sent)
    {
      if hidden && window in surfaces {
        ForgetSurface(window);
      }
    }
  }

  /** The first done of a new mask carries the mask, with full intensity;
      once sending has left it clean, the next done goes out alone, until a
      setter marks it dirty again. */
  method FirstDoneSendsMask() returns (sent: seq<MaskRequest>)
    ensures sent == [MaskSent(NullImage, 1.0), Done, Done, MaskSent(NullImage, 0.5), Done]
  {
    var m := new BlurMask();
    m.SendDone(false);
    m.SendDone(false);
    m.SetIntensity(0.5);
    m.SendDone(false);
    sent := m.sent;
  }

  /** Setting the same geometry twice sends it once; setting the empty
      geometry a new mask already has sends nothing. */
  method GeometrySentOnce(rect: RectF) returns (sent: seq<MaskRequest>)
    ensures rect == EmptyRectF ==> sent == []
    ensures rect != EmptyRectF ==> sent == [GeometrySent(rect.x, rect.y, rect.width, rect.height)]
  {
    var m := new BlurMask();
    m.SetGeometry(rect);
    m.SetGeometry(rect);
    sent := m.sent;
  }

  /** Attaching a mask to the same surface twice adds it once; detaching sends nothing. */
  method AttachOnce() returns (sent: seq<MaskRequest>, surface: BlurSurface)
    ensures sent == [AddMaskTo(surface)]
  {
    var m := new BlurMask();
    surface := new BlurSurface(1, 2);
    m.SetSurface(surface);
    m.SetSurface(surface);
    m.SetSurface(null);
    sent := m.sent;
  }

  /** Asking twice for the same window's surface object gives the same
      object, created with a single get_blur; after forgetting it, a fresh one. */
  method SurfaceCache(w: WindowRef, n: NativeSurface)
    returns (first: BlurSurface?, second: BlurSurface?, third: BlurSurface?, sent: seq<ManagerRequest>)
    ensures first != null && second == first && first.window == w
    ensures third != null && third != first && first.destroyed && !third.destroyed
    ensures sent == [GetBlur(n), GetBlur(n)]
  {
    var m := new BlurManager();
    first := m.Surface(Some(w), Some(n));
    second := m.Surface(Some(w), Some(n));
    m.ForgetSurface(w);
    third := m.Surface(Some(w), Some(n));
    sent := m.sent;
  }

  /** No window, or a window without a native surface, gets no object and
      nothing is requested or cached. */
  method NoSurfaceNoEntry(w: WindowRef) returns (a: BlurSurface?, b: BlurSurface?, cached: bool)
    ensures a == null && b == null && !cached
  {
    var m := new BlurManager();
    a := m.Surface(None, Some(5));
    b := m.Surface(Some(w), None);
    cached := w in m.surfaces || |m.sent| > 0;
  }
}
