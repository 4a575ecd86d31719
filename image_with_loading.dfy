/** An image that shows a pulsing placeholder until it has loaded, fades in
    when it has, and is replaced by a fallback when it fails to load. */
module ImageWithLoading {

  datatype View =
    | Unavailable                                   // "Image not available"
    | Picture(placeholder: bool, opacity: nat)      // placeholder, then the image

  class ImageState {
    var src: string
    var isLoaded: bool
    var error: bool

    constructor (src: string)
      ensures this.src == src && !isLoaded && !error
    {
      this.src, isLoaded, error := src, false, false;
    }

    /** `img.onload`. */
    method OnLoad()
      modifies this`isLoaded
      ensures isLoaded
    {
      isLoaded := true;
    }

    /** `img.onerror`. */
    method OnError()
      modifies this`error
      ensures error
    {
      error := true;
    }

    /** A new `src` prop: the effect starts a new load and keeps both flags. */
    method SetSrc(s: string)
      modifies this`src
      ensures src == s && isLoaded == old(isLoaded) && error == old(error)
    {
      src := s;
    }

    function View(): (v: View)
      reads this
      ensures error <==> v.Unavailable?
      ensures v.Picture? ==> (v.placeholder <==> !isLoaded)
      ensures v.Picture? ==> (v.opacity == 1 <==> isLoaded) && v.opacity <= 1
    {
      if error then Unavailable else Picture(!isLoaded, if isLoaded then 1 else 0)
    }
  }

  /** A callback or a prop change. */
  datatype Event = Load | Fail | NewSrc(s: string)

  /** Event `k` is a source change and no source change follows it. */
  predicate LastChangeAt(events: seq<Event>, k: int) {
    0 <= k < |events| && events[k].NewSrc? && forall j :: k < j < |events| ==> !events[j].NewSrc?
  }

  /** The source after `events`: the last source change (`LastSrcIsLast`), or
      `src` when there is none. */
  function LastSrc(src: string, events: seq<Event>): (r: string)
    ensures r == src || NewSrc(r) in events
    ensures (forall e :: e in events ==> !e.NewSrc?) ==> r == src
  {
    if events == [] then src
    else if events[|events| - 1].NewSrc? then events[|events| - 1].s
    else LastSrc(src, events[..|events| - 1])
  }

  /** When there is a source change, the source is the last one. */
  lemma {:induction false} LastSrcIsLast(src: string, events: seq<Event>, k: int)
    requires LastChangeAt(events, k)
    ensures LastSrc(src, events) == events[k].s
  {
    var n := |events| - 1;
    if k < n {
      assert !events[n].NewSrc?;
      var init := events[..n];
      assert LastChangeAt(init, k);
      LastSrcIsLast(src, init, k);
    }
  }

  /** One more event changes the source only when it is a source change,
      and adds itself to the events seen. */
  lemma PrefixStep(src: string, events: seq<Event>, i: nat)
    requires i < |events|
    ensures LastSrc(src, events[..i + 1]) == if events[i].NewSrc? then events[i].s else LastSrc(src, events[..i])
    ensures Load in events[..i + 1] <==> Load in events[..i] || events[i] == Load
    ensures Fail in events[..i + 1] <==> Fail in events[..i] || events[i] == Fail
  {
    assert events[..i + 1] == events[..i] + [events[i]];
    assert events[..i + 1][..i] == events[..i];
  }

  /** Any sequence of callbacks and prop changes keeps a flag that is set. */
  method Replay(img: ImageState, events: seq<Event>)
    modifies img
    ensures old(img.isLoaded) ==> img.isLoaded
    ensures old(img.error) ==> img.error
    ensures img.isLoaded <==> old(img.isLoaded) || Load in events
    ensures img.error <==> old(img.error) || Fail in events
    ensures img.src == LastSrc(old(img.src), events)
  {
    ghost var src0, loaded0, error0 := img.src, img.isLoaded, img.error;
    var i := 0;
    while i < |events|
      invariant 0 <= i <= |events|
      invariant img.isLoaded <==> loaded0 || Load in events[..i]
      invariant img.error <==> error0 || Fail in events[..i]
      invariant img.src == LastSrc(src0, events[..i])
    {
      var e := events[i];
      PrefixStep(src0, events, i);
      if e.Load? {
        img.OnLoad();
      } else if e.Fail? {
        img.OnError();
      } else {
        img.SetSrc(e.s);
      }
      i := i + 1;
    }
    assert events[..|events|] == events;
  }
}
