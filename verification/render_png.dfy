/** `renderPNG` and the worker client behind it. Settings authored on the
    400-unit logical canvas are rescaled to the image's native width, the scene
    is laid out into an SVG document as wide as the image, and the document is
    posted to the rasterising worker. The client keeps a table of pending
    requests keyed by a per-request id; a worker reply resolves the promise
    registered under its id and removes that entry, and a reply with an
    unknown id is dropped. */
module RenderPng {
  import opened Types
  import ImageGenerator

  /** `CANVAS_SIZE`: the width of the logical canvas the settings are authored on. */
  const CanvasSize: real := 400.0

  /** The settings rescaled from the logical canvas to a document `width`
      pixels wide: padding, shadow and radius keep their share of the canvas
      width, and `size`, a percentage, is passed through. */
  function ScaleSettings(settings: Settings, width: real): (r: Settings)
    ensures r.size == settings.size
    ensures r.padding * CanvasSize == settings.padding * width
    ensures r.shadow * CanvasSize == settings.shadow * width
    ensures r.radius * CanvasSize == settings.radius * width
    ensures width == CanvasSize ==> r == settings
  {
    var scale := width / CanvasSize;
    Settings(settings.padding * scale, settings.shadow * scale, settings.radius * scale, settings.size)
  }

  /** Scaling to a width and then by the reciprocal factor restores the settings. */
  lemma ScaleInverse(settings: Settings, width: real)
    requires width > 0.0
    ensures ScaleSettings(ScaleSettings(settings, width), CanvasSize * CanvasSize / width) == settings
  {
    var once := ScaleSettings(settings, width);
    var back := CanvasSize * CanvasSize / width;
    assert back * width == CanvasSize * CanvasSize;
    var twice := ScaleSettings(once, back);
    assert twice.padding * CanvasSize * CanvasSize == settings.padding * width * back;
    assert twice.shadow * CanvasSize * CanvasSize == settings.shadow * width * back;
    assert twice.radius * CanvasSize * CanvasSize == settings.radius * width * back;
  }

  /** What satori produces: the scene laid out on a canvas `width` pixels wide. */
  datatype SvgDoc = SvgDoc(scene: ImageGenerator.Node, width: real)

  /** The document `renderPNG` has satori build: the scene for the rescaled
      settings, on a canvas as wide as the image's native width. */
  function Render(image: ImageInfo, settings: Settings, maxWidth: Option<real>): (doc: SvgDoc)
    requires image.src != "" ==> image.width > 0.0
    ensures doc.width == image.width
    ensures doc.scene.Warning? <==> image.src == ""
    ensures doc.scene.Container? ==>
      && doc.scene.padding * CanvasSize == settings.padding * image.width
      && doc.scene.img.shadow * CanvasSize == settings.shadow * image.width
      && doc.scene.img.radius * CanvasSize == settings.radius * image.width
      && doc.scene.img.width == ImageGenerator.ImageWidth(image.width, ImageGenerator.MaxWidthOrDefault(maxWidth), settings.size)
  {
    var scaled := ScaleSettings(settings, image.width);
    SvgDoc(ImageGenerator.Scene(Some(image), scaled, maxWidth), image.width)
  }

  /** The end-to-end case of an 800x600 image with the default settings and
      a 400-pixel clamp, as style values: padding 20, shadow 30, radius 10,
      image width 400, container width 440 with maxWidth 400, on an
      800-wide document. */
  lemma Render800Wide(name: string, src: string)
    requires src != ""
    ensures Render(ImageInfo(name, src, 800.0, 600.0), Settings(10.0, 15.0, 5.0, 100.0), Some(400.0))
         == SvgDoc(ImageGenerator.Container(20.0, 440.0, 400.0, ImageGenerator.Img(src, 400.0, 30.0, 10.0)), 800.0)
  {
  }

  /** The end-to-end case of a 300x200 image below the clamp at size 50 with
      everything else zero: the image is shown 150 wide. */
  lemma Render300WideHalfSize(name: string, src: string)
    requires src != ""
    ensures Render(ImageInfo(name, src, 300.0, 200.0), Settings(0.0, 0.0, 0.0, 50.0), Some(400.0))
         == SvgDoc(ImageGenerator.Container(0.0, 150.0, 400.0, ImageGenerator.Img(src, 150.0, 0.0, 0.0)), 300.0)
  {
  }

  /** `Math.random()` ids; the model takes them from the caller. */
  type RequestId = real
  /** The rasterised image carried by a worker reply. */
  type Blob = seq<bv8>

  /** The message posted to the worker: `{ _id, svg, width }`. */
  datatype Request = Request(id: RequestId, svg: SvgDoc, width: real)
  /** The data of a worker message: its `_id` and the PNG it carries. */
  datatype Reply = Reply(id: RequestId, blob: Blob)
  /** Promise number `promise` was resolved with `data`. */
  datatype Resolution = Resolution(promise: nat, data: Reply)

  /** The ids carried by a sequence of replies. */
  function Ids(replies: seq<Reply>): set<RequestId> {
    set k | 0 <= k < |replies| :: replies[k].id
  }

  predicate DistinctIds(replies: seq<Reply>) {
    forall i, j :: 0 <= i < j < |replies| ==> replies[i].id != replies[j].id
  }

  /** The effect of the message handler on the pending table when `replies`
      arrive one after the other: the table that is left, and the promises
      resolved, in order. Each resolution goes to the promise registered
      under the reply's id, and the table only ever loses entries. */
  function Deliver(pending: map<RequestId, nat>, replies: seq<Reply>): (r: (map<RequestId, nat>, seq<Resolution>))
    decreases |replies|
    ensures r.0.Keys <= pending.Keys
    ensures forall id :: id in r.0 ==> r.0[id] == pending[id]
    ensures |r.1| <= |replies|
    ensures forall k :: 0 <= k < |r.1| ==> r.1[k].data.id in pending && r.1[k].promise == pending[r.1[k].data.id]
  {
    if replies == [] then (pending, [])
    else
      var before := Deliver(pending, replies[..|replies| - 1]);
      var last := replies[|replies| - 1];
      if last.id in before.0 then
        (before.0 - {last.id}, before.1 + [Resolution(before.0[last.id], last)])
      else
        before
  }

  /** Every promise is resolved with one of the replies that arrived. */
  lemma {:induction false} DeliverResolvesWithArrivals(pending: map<RequestId, nat>, replies: seq<Reply>)
    ensures forall k :: 0 <= k < |Deliver(pending, replies).1| ==> Deliver(pending, replies).1[k].data in replies
  {
    if replies != [] {
      var init := replies[..|replies| - 1];
      DeliverResolvesWithArrivals(pending, init);
      forall r | r in init ensures r in replies {
        var j :| 0 <= j < |init| && init[j] == r;
        assert replies[j] == r;
      }
    }
  }

  /** Replies whose ids are all unknown change nothing and resolve nothing. */
  lemma {:induction false} DeliverUnknown(pending: map<RequestId, nat>, replies: seq<Reply>)
    requires forall k :: 0 <= k < |replies| ==> replies[k].id !in pending
    ensures Deliver(pending, replies) == (pending, [])
  {
    if replies != [] {
      DeliverUnknown(pending, replies[..|replies| - 1]);
    }
  }

  /** Replies to distinct pending ids, in whatever order they arrive, each
      resolve the promise registered under their own id, in arrival order,
      and remove exactly their own entries. */
  lemma {:induction false} DeliverDistinct(pending: map<RequestId, nat>, replies: seq<Reply>)
    requires DistinctIds(replies)
    requires Ids(replies) <= pending.Keys
    ensures Deliver(pending, replies).0 == pending - Ids(replies)
    ensures |Deliver(pending, replies).1| == |replies|
    ensures forall k :: 0 <= k < |replies| ==>
      Deliver(pending, replies).1[k] == Resolution(pending[replies[k].id], replies[k])
  {
    if replies != [] {
      var n := |replies| - 1;
      var init := replies[..n];
      assert Ids(replies) == Ids(init) + {replies[n].id} by {
        forall id | id in Ids(replies) ensures id in Ids(init) + {replies[n].id} {
          var k :| 0 <= k < |replies| && replies[k].id == id;
          if k < n { assert init[k].id == id; }
        }
      }
      assert replies[n].id !in Ids(init);
      DeliverDistinct(pending, init);
    }
  }

  /** When the replies answer every pending id once, the table ends empty
      and every pending promise is resolved with its own reply. */
  lemma DeliverAnswersAll(pending: map<RequestId, nat>, replies: seq<Reply>)
    requires DistinctIds(replies)
    requires Ids(replies) == pending.Keys
    ensures Deliver(pending, replies).0 == map[]
    ensures |Deliver(pending, replies).1| == |replies|
    ensures forall id :: id in pending ==>
      exists k :: (0 <= k < |replies| && replies[k].id == id &&
                   Deliver(pending, replies).1[k] == Resolution(pending[id], replies[k]))
  {
    DeliverDistinct(pending, replies);
    forall id | id in pending
      ensures exists k :: (0 <= k < |replies| && replies[k].id == id &&
                           Deliver(pending, replies).1[k] == Resolution(pending[id], replies[k]))
    {
      var k :| 0 <= k < |replies| && replies[k].id == id;
    }
  }

  /** What promise `promise` has been resolved with, if anything. */
  function ResolvedWith(resolved: seq<Resolution>, promise: nat): Option<Reply> {
    if resolved == [] then None
    else if resolved[0].promise == promise then Some(resolved[0].data)
    else ResolvedWith(resolved[1..], promise)
  }

  /** The worker client `convertSVGToPNG`: the pending table, the messages
      posted to the worker so far, and the promises resolved so far. Promise
      number k is the one created for the k-th posted request. */
  class PngConverter {
    var pending: map<RequestId, nat>
    var posted: seq<Request>
    var resolved: seq<Resolution>

    /** Every pending promise waits for the request it was created for and
        is still unresolved; every resolved promise got a reply carrying its
        request's id, and was resolved once. */
    ghost predicate Valid()
      reads this
    {
      && (forall id :: id in pending ==> pending[id] < |posted| && posted[pending[id]].id == id)
      && (forall k :: 0 <= k < |resolved| ==>
            resolved[k].promise < |posted| && posted[resolved[k].promise].id == resolved[k].data.id)
      && (forall k, id :: 0 <= k < |resolved| && id in pending ==> resolved[k].promise != pending[id])
      && (forall k, l :: 0 <= k < l < |resolved| ==> resolved[k].promise != resolved[l].promise)
    }

    constructor ()
      ensures Valid()
      ensures pending == map[] && posted == [] && resolved == []
    {
      pending := map[];
      posted := [];
      resolved := [];
    }

    /** The function `convertSVGToPNG` returns: post the request, then
        register a new promise under its id. A reused id replaces the earlier
        entry, whose promise then never resolves. */
    method Dispatch(id: RequestId, svg: SvgDoc, width: real) returns (promise: nat)
      requires Valid()
      modifies this
      ensures Valid()
      ensures promise == old(|posted|)
      ensures posted == old(posted) + [Request(id, svg, width)]
      ensures pending == old(pending)[id := promise]
      ensures id !in old(pending) ==> pending.Keys == old(pending).Keys + {id}
      ensures resolved == old(resolved)
    {
      promise := |posted|;
      posted := posted + [Request(id, svg, width)];
      pending := pending[id := promise];
    }

    /** `worker.onmessage`: a reply with a pending id resolves that promise
        with the whole reply and removes only its entry; any other reply is
        ignored. */
    method OnMessage(data: Reply)
      requires Valid()
      modifies this
      ensures Valid()
      ensures posted == old(posted)
      ensures data.id in old(pending) ==>
        && resolved == old(resolved) + [Resolution(old(pending)[data.id], data)]
        && pending == old(pending) - {data.id}
      ensures data.id !in old(pending) ==> resolved == old(resolved) && pending == old(pending)
    {
      if data.id in pending {
        resolved := resolved + [Resolution(pending[data.id], data)];
        pending := pending - {data.id};
      }
    }

    /** The event loop handing the worker's messages to the handler one by one. */
    method DeliverAll(replies: seq<Reply>)
      requires Valid()
      modifies this
      ensures Valid()
      ensures posted == old(posted)
      ensures pending == Deliver(old(pending), replies).0
      ensures resolved == old(resolved) + Deliver(old(pending), replies).1
    {
      var i := 0;
      while i < |replies|
        invariant 0 <= i <= |replies|
        invariant Valid() && posted == old(posted)
        invariant pending == Deliver(old(pending), replies[..i]).0
        invariant resolved == old(resolved) + Deliver(old(pending), replies[..i]).1
      {
        assert replies[..i + 1][..i] == replies[..i];
        OnMessage(replies[i]);
        i := i + 1;
      }
      assert replies[..i] == replies;
    }
  }

  /** `renderPNG`: build the document for the rescaled settings and hand it
      to the worker client with the image's native width. */
  method RenderPNG(converter: PngConverter, image: ImageInfo, settings: Settings,
                   maxWidth: Option<real>, id: RequestId) returns (promise: nat)
    requires converter.Valid()
    requires image.src != "" ==> image.width > 0.0
    modifies converter
    ensures converter.Valid()
    ensures promise == old(|converter.posted|)
    ensures converter.posted == old(converter.posted) + [Request(id, Render(image, settings, maxWidth), image.width)]
    ensures converter.posted[promise].width == converter.posted[promise].svg.width == image.width
    ensures converter.pending == old(converter.pending)[id := promise]
    ensures converter.resolved == old(converter.resolved)
  {
    var svg := Render(image, settings, maxWidth);
    promise := converter.Dispatch(id, svg, image.width);
  }

  /** Two renders whose replies come back in reverse order, with a stray
      reply in between: each promise gets its own reply, the stray one is
      dropped, and nothing is left pending. */
  method ReversedReplies(idA: RequestId, idB: RequestId, stray: RequestId,
                         docA: SvgDoc, docB: SvgDoc, pngA: Blob, pngB: Blob, pngStray: Blob)
    returns (gotA: Option<Reply>, gotB: Option<Reply>, left: nat)
    requires idA != idB && stray != idA && stray != idB
    ensures gotA == Some(Reply(idA, pngA))
    ensures gotB == Some(Reply(idB, pngB))
    ensures left == 0
  {
    var c := new PngConverter();
    var pa := c.Dispatch(idA, docA, docA.width);
    var pb := c.Dispatch(idB, docB, docB.width);
    assert c.pending == map[idA := 0, idB := 1] && pa == 0 && pb == 1;
    c.OnMessage(Reply(idB, pngB));
    assert c.pending == map[idA := 0];
    c.OnMessage(Reply(stray, pngStray));
    c.OnMessage(Reply(idA, pngA));
    assert c.pending == map[];
    assert c.resolved == [Resolution(1, Reply(idB, pngB)), Resolution(0, Reply(idA, pngA))];
    var tail := c.resolved[1..];
    assert tail == [Resolution(0, Reply(idA, pngA))];
    assert ResolvedWith(tail, 0) == Some(Reply(idA, pngA));
    assert ResolvedWith(c.resolved, 0) == ResolvedWith(tail, 0);
    gotA := ResolvedWith(c.resolved, pa);
    gotB := ResolvedWith(c.resolved, pb);
    left := |c.pending|;
  }
}
