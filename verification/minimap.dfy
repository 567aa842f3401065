/** `_add_minimap`: split a chart into its plot part and its meta part,
    derive a small copy of the plot with an interval brush, link the main
    plot to that brush, and concatenate the two views. */
module Minimap {

  import opened JsonData

  const MiniChartSize := 50

  /** The keys that belong to a plotted view; every other key stays on the
      outer wrapper. */
  const InnerProps: set<string> := {"mark", "encoding", "selection", "width", "height"}

  predicate HasChannel(view: Dict, ch: string) {
    && "encoding" in view
    && view["encoding"].JObj?
    && ch in view["encoding"].fields
    && view["encoding"].fields[ch].JObj?
  }

  function Channel(view: Dict, ch: string): Dict
    requires HasChannel(view, ch)
  {
    view["encoding"].fields[ch].fields
  }

  /** A brushed channel's `scale`, if present, must be a dict. */
  predicate ScaleIsDict(view: Dict, ch: string) {
    HasChannel(view, ch) && ("scale" in Channel(view, ch) ==> Channel(view, ch)["scale"].JObj?)
  }

  /** Replace the encoding of one channel, leaving the rest of the view. */
  function SetChannel(view: Dict, ch: string, enc: Dict): (r: Dict)
    requires HasChannel(view, ch)
    ensures r.Keys == view.Keys
    ensures forall k :: k in view && k != "encoding" ==> r[k] == view[k]
    ensures HasChannel(r, ch) && Channel(r, ch) == enc
    ensures forall c :: HasChannel(view, c) ==> HasChannel(r, c)
    ensures r["encoding"].JObj? && r["encoding"].fields.Keys == view["encoding"].fields.Keys
    ensures forall c :: c != ch && c in view["encoding"].fields ==>
      r["encoding"].fields[c] == view["encoding"].fields[c]
  {
    view["encoding" := JObj(view["encoding"].fields[ch := JObj(enc)])]
  }

  /** The minimap hides the y axis when it sits above or below the chart,
      when it filters, and when it is 2-D. */
  predicate HidesY(encodings: seq<string>, location: string, filter: bool) {
    location in {"bottom", "top"} || filter || |encodings| == 2
  }

  /** The minimap hides the x axis when it filters, when it sits to the
      right, and when it is 2-D. */
  predicate HidesX(encodings: seq<string>, location: string, filter: bool) {
    filter || location == "right" || |encodings| == 2
  }

  predicate Hidden(ch: string, encodings: seq<string>, location: string, filter: bool) {
    (ch == "y" && HidesY(encodings, location, filter)) || (ch == "x" && HidesX(encodings, location, filter))
  }

  /** What `_add_minimap` needs of a spec in order not to fail: the channels
      it rewrites exist as dicts, a brushed channel's scale is a dict, and a
      2-D minimap has numeric sizes to halve. */
  predicate MinimapReady(spec: Dict, encodings: seq<string>, location: string, filter: bool) {
    && (HidesY(encodings, location, filter) ==> HasChannel(spec, "y"))
    && (HidesX(encodings, location, filter) ==> HasChannel(spec, "x"))
    && (!filter ==> forall c :: c in encodings ==> ScaleIsDict(spec, c))
    && (|encodings| == 2 ==>
          && "width" in spec && spec["width"].JInt?
          && (location != "right" ==> "height" in spec && spec["height"].JInt?))
  }

  function BrushSelection(encodings: seq<string>): Json {
    JObj(map["brush" := JObj(map["type" := JStr("interval"), "encodings" := JArr(StrList(encodings))])])
  }

  function BrushDomain(ch: string): Json {
    JObj(map["selection" := JStr("brush"), "encoding" := JStr(ch)])
  }

  function BrushFilter(): Json {
    JArr([JObj(map["filter" := JObj(map["selection" := JStr("brush")])])])
  }

  /** The minimap's size: 50 high below or above a 1-D chart, 50 wide and
      250 high to the right (halved to 125 when 2-D), and half the chart's
      size in both directions when 2-D; otherwise the chart's own size. */
  ghost predicate SizedAsMinimap(mini: Dict, spec: Dict, encodings: seq<string>, location: string) {
    var is2d := |encodings| == 2;
    && (!is2d && location in {"bottom", "top"} ==> "height" in mini && mini["height"] == JInt(MiniChartSize))
    && (!is2d && location == "right" ==>
          && "width" in mini && mini["width"] == JInt(MiniChartSize)
          && "height" in mini && mini["height"] == JInt(MiniChartSize * 5))
    && (is2d ==>
          && "width" in spec && spec["width"].JInt?
          && "width" in mini && mini["width"] == JInt(spec["width"].i / 2)
          && "height" in mini
          && (location == "right" ==> mini["height"] == JInt(MiniChartSize * 5 / 2))
          && (location != "right" ==> "height" in spec && spec["height"].JInt? && mini["height"] == JInt(spec["height"].i / 2)))
    && (!is2d && location !in {"bottom", "top", "right"} ==>
          && ("width" in mini <==> "width" in spec)
          && ("width" in spec ==> mini["width"] == spec["width"])
          && ("height" in mini <==> "height" in spec)
          && ("height" in spec ==> mini["height"] == spec["height"]))
  }

  /** The minimap's channels are the chart's, except for blanked titles and
      axes: in particular no minimap scale refers to the brush. */
  ghost predicate KeepsChannels(mini: Dict, spec: Dict, encodings: seq<string>, location: string, filter: bool) {
    forall c :: HasChannel(spec, c) ==>
      && HasChannel(mini, c)
      && (Hidden(c, encodings, location, filter) ==> Channel(mini, c) == Channel(spec, c)["title" := JNull]["axis" := JNull])
      && (!Hidden(c, encodings, location, filter) ==> Channel(mini, c) == Channel(spec, c))
  }

  /** Blank a channel's title and axis. */
  function Hide(view: Dict, ch: string): (r: Dict)
    requires HasChannel(view, ch)
    ensures r.Keys == view.Keys
    ensures forall k :: k in view && k != "encoding" ==> r[k] == view[k]
    ensures forall c :: HasChannel(view, c) ==> HasChannel(r, c)
    ensures Channel(r, ch) == Channel(view, ch)["title" := JNull]["axis" := JNull]
    ensures forall c :: c != ch && HasChannel(view, c) ==> Channel(r, c) == Channel(view, c)
  {
    SetChannel(view, ch, Channel(view, ch)["title" := JNull]["axis" := JNull])
  }

  /** The size steps of the minimap, in source order. */
  function Resize(view: Dict, encodings: seq<string>, location: string): (r: Dict)
    requires |encodings| == 2 ==>
      && "width" in view && view["width"].JInt?
      && (location != "right" ==> "height" in view && view["height"].JInt?)
    ensures SizedAsMinimap(r, view, encodings, location)
    ensures r.Keys <= view.Keys + {"width", "height"}
    ensures forall k :: k in view && k !in {"width", "height"} ==> k in r && r[k] == view[k]
  {
    var is2d := |encodings| == 2;
    var h1 := if location in {"bottom", "top"} && !is2d then view["height" := JInt(MiniChartSize)] else view;
    var h2 :=
      if location == "right" then
        (if !is2d then h1["width" := JInt(MiniChartSize)] else h1)["height" := JInt(MiniChartSize * 5)]
      else h1;
    if is2d then h2["height" := JInt(h2["height"].i / 2)]["width" := JInt(h2["width"].i / 2)] else h2
  }

  /** The channels the minimap blanks, in the order and with the
      repetitions of the source: y below or above the chart, y and x when
      filtering, x to the right, x and y when 2-D. */
  function HideSteps(encodings: seq<string>, location: string, filter: bool): (r: seq<string>)
    ensures "y" in r <==> HidesY(encodings, location, filter)
    ensures "x" in r <==> HidesX(encodings, location, filter)
    ensures forall c :: c in r ==> c == "x" || c == "y"
  {
    (if location in {"bottom", "top"} then ["y"] else [])
    + (if filter then ["y", "x"] else [])
    + (if location == "right" then ["x"] else [])
    + (if |encodings| == 2 then ["x", "y"] else [])
  }

  /** Blank each listed channel in turn. */
  function HideEach(view: Dict, channels: seq<string>): (r: Dict)
    requires forall c :: c in channels ==> HasChannel(view, c)
    ensures r.Keys == view.Keys
    ensures forall k :: k in view && k != "encoding" ==> r[k] == view[k]
    ensures forall c :: HasChannel(view, c) ==> HasChannel(r, c)
    decreases |channels|
  {
    if channels == [] then view
    else
      assert forall c :: c in channels[1..] ==> c in channels;
      HideEach(Hide(view, channels[0]), channels[1..])
  }

  /** The axis-blanking steps of the minimap, exactly as the source
      performs them (some channels are blanked more than once). */
  function HideAxes(view: Dict, encodings: seq<string>, location: string, filter: bool): (r: Dict)
    requires HidesY(encodings, location, filter) ==> HasChannel(view, "y")
    requires HidesX(encodings, location, filter) ==> HasChannel(view, "x")
    ensures r.Keys == view.Keys
    ensures forall k :: k in view && k != "encoding" ==> r[k] == view[k]
    ensures forall c :: HasChannel(view, c) ==> HasChannel(r, c)
    ensures forall c :: c != "x" && c != "y" && HasChannel(view, c) ==> Channel(r, c) == Channel(view, c)
  {
    var steps := HideSteps(encodings, location, filter);
    HideEachKeepsOthers(view, steps);
    HideEach(view, steps)
  }

  /** Blanking the listed channels leaves every unlisted channel as it was. */
  lemma {:induction false} HideEachKeepsOthers(view: Dict, channels: seq<string>)
    requires forall c :: c in channels ==> HasChannel(view, c)
    ensures forall c :: c !in channels && HasChannel(view, c) ==> Channel(HideEach(view, channels), c) == Channel(view, c)
    decreases |channels|
  {
    if channels != [] {
      var next := Hide(view, channels[0]);
      assert forall c :: c in channels[1..] ==> c in channels;
      HideEachKeepsOthers(next, channels[1..]);
      assert forall c :: c !in channels ==> c != channels[0] && c !in channels[1..];
    }
  }

  /** `view` with y blanked when `y` holds, then x blanked when `x` holds. */
  function Blanked(view: Dict, y: bool, x: bool): Dict
    requires y ==> HasChannel(view, "y")
    requires x ==> HasChannel(view, "x")
  {
    var withY := if y then Hide(view, "y") else view;
    if x then Hide(withY, "x") else withY
  }

  /** Reference definition of the blanking: each affected channel once. y
      is blanked below or above the chart, when filtering and when 2-D; x
      when filtering, to the right and when 2-D. */
  function BlankOnce(view: Dict, encodings: seq<string>, location: string, filter: bool): (r: Dict)
    requires HidesY(encodings, location, filter) ==> HasChannel(view, "y")
    requires HidesX(encodings, location, filter) ==> HasChannel(view, "x")
    ensures KeepsChannels(r, view, encodings, location, filter)
    ensures r.Keys == view.Keys
    ensures forall k :: k in view && k != "encoding" ==> r[k] == view[k]
  {
    Blanked(view, HidesY(encodings, location, filter), HidesX(encodings, location, filter))
  }

  lemma HideTwice(view: Dict, ch: string)
    requires HasChannel(view, ch)
    ensures Hide(Hide(view, ch), ch) == Hide(view, ch)
  {
    var once := Hide(view, ch);
    assert Channel(once, ch)["title" := JNull]["axis" := JNull] == Channel(once, ch);
    assert once["encoding"].fields[ch := JObj(Channel(once, ch))] == once["encoding"].fields;
  }

  lemma HideCommutes(view: Dict, a: string, b: string)
    requires HasChannel(view, a) && HasChannel(view, b) && a != b
    ensures Hide(Hide(view, a), b) == Hide(Hide(view, b), a)
  {
    assert Hide(Hide(view, a), b)["encoding"] == Hide(Hide(view, b), a)["encoding"];
  }

  /** Blanking a list of axis channels after some are already blanked
      leaves each channel blanked once if it was blanked at all. */
  lemma {:induction false} HideEachBlanks(view: Dict, channels: seq<string>, y: bool, x: bool)
    requires forall c :: c in channels ==> c == "x" || c == "y"
    requires (y || "y" in channels) ==> HasChannel(view, "y")
    requires (x || "x" in channels) ==> HasChannel(view, "x")
    ensures forall c :: c in channels ==> HasChannel(Blanked(view, y, x), c)
    ensures HideEach(Blanked(view, y, x), channels) == Blanked(view, y || "y" in channels, x || "x" in channels)
    decreases |channels|
  {
    var start := Blanked(view, y, x);
    assert forall c :: c in channels ==> HasChannel(start, c);
    if channels != [] {
      var rest := channels[1..];
      assert forall c :: c in rest ==> c in channels;
      assert forall c :: c in channels ==> c == channels[0] || c in rest;
      assert channels[0] in channels;
      assert ("y" in channels <==> channels[0] == "y" || "y" in rest) && ("x" in channels <==> channels[0] == "x" || "x" in rest);
      if channels[0] == "y" {
        HideYOnce(view, y, x);
        HideEachBlanks(view, rest, true, x);
      } else {
        HideXOnce(view, y, x);
        HideEachBlanks(view, rest, y, true);
      }
    }
  }

  /** Blanking in the source's order, with its repetitions, gives the same
      view as blanking each affected channel once. */
  lemma SourceOrderHides(view: Dict, encodings: seq<string>, location: string, filter: bool)
    requires HidesY(encodings, location, filter) ==> HasChannel(view, "y")
    requires HidesX(encodings, location, filter) ==> HasChannel(view, "x")
    ensures HideAxes(view, encodings, location, filter) == BlankOnce(view, encodings, location, filter)
  {
    HideEachBlanks(view, HideSteps(encodings, location, filter), false, false);
  }

  lemma HideYOnce(view: Dict, y: bool, x: bool)
    requires HasChannel(view, "y")
    requires x ==> HasChannel(view, "x")
    ensures Hide(Blanked(view, y, x), "y") == Blanked(view, true, x)
  {
    var withY := if y then Hide(view, "y") else view;
    if y { HideTwice(view, "y"); }
    if x { HideCommutes(withY, "x", "y"); }
  }

  lemma HideXOnce(view: Dict, y: bool, x: bool)
    requires HasChannel(view, "x")
    requires y ==> HasChannel(view, "y")
    ensures Hide(Blanked(view, y, x), "x") == Blanked(view, y, true)
  {
    var withY := if y then Hide(view, "y") else view;
    if x { HideTwice(withY, "x"); }
  }

  /** Derive the minimap view from the plotted part of the chart (a deep
      copy in the source: nothing done to the main view reaches it). The
      size and axis steps touch different keys, so they are grouped. */
  function Shrink(inner: Dict, encodings: seq<string>, location: string, filter: bool): (r: Dict)
    requires MinimapReady(inner, encodings, location, filter)
    ensures "selection" in r && r["selection"] == BrushSelection(encodings)
    ensures forall k :: k in inner && k !in {"encoding", "selection", "width", "height"} ==> k in r && r[k] == inner[k]
    ensures r.Keys <= inner.Keys + {"selection", "width", "height"}
    ensures SizedAsMinimap(r, inner, encodings, location)
    ensures KeepsChannels(r, inner, encodings, location, filter)
  {
    var sized := Resize(inner, encodings, location);
    SourceOrderHides(sized, encodings, location, filter);
    var blank := HideAxes(sized, encodings, location, filter);
    KeepsChannelsAcrossResize(blank, sized, inner, encodings, location, filter);
    SizedAcrossBlanking(blank, sized, inner, encodings, location);
    blank["selection" := BrushSelection(encodings)]
  }

  lemma KeepsChannelsAcrossResize(mini: Dict, sized: Dict, inner: Dict, encodings: seq<string>, location: string, filter: bool)
    requires KeepsChannels(mini, sized, encodings, location, filter)
    requires "encoding" in inner ==> "encoding" in sized && sized["encoding"] == inner["encoding"]
    ensures KeepsChannels(mini["selection" := BrushSelection(encodings)], inner, encodings, location, filter)
  {
    var r := mini["selection" := BrushSelection(encodings)];
    forall c | HasChannel(inner, c)
      ensures HasChannel(r, c) && HasChannel(sized, c) && Channel(r, c) == Channel(mini, c) && Channel(sized, c) == Channel(inner, c)
    {
      assert sized["encoding"] == inner["encoding"];
      assert HasChannel(sized, c);
      assert HasChannel(mini, c);
      assert r["encoding"] == mini["encoding"];
    }
  }

  lemma SizedAcrossBlanking(mini: Dict, sized: Dict, inner: Dict, encodings: seq<string>, location: string)
    requires SizedAsMinimap(sized, inner, encodings, location)
    requires forall k :: k in sized && k != "encoding" ==> k in mini && mini[k] == sized[k]
    requires mini.Keys == sized.Keys
    ensures SizedAsMinimap(mini["selection" := BrushSelection(encodings)], inner, encodings, location)
  {
  }

  /** A channel's scale dict, or an empty one when it has none. */
  function ScaleOf(enc: Dict): Dict {
    if "scale" in enc && enc["scale"].JObj? then enc["scale"].fields else map[]
  }

  /** A channel linked to the brush: its scale's domain follows the brush
      on this channel, its other scale settings stay, and its title goes. */
  function Brushed(enc: Dict, ch: string): (r: Dict)
    ensures "scale" in r && r["scale"].JObj?
    ensures ScaleOf(r).Keys == ScaleOf(enc).Keys + {"domain"}
    ensures ScaleOf(r)["domain"] == BrushDomain(ch)
    ensures forall k :: k in ScaleOf(enc) && k != "domain" ==> ScaleOf(r)[k] == ScaleOf(enc)[k]
    ensures "title" in r && r["title"] == JNull
    ensures r.Keys == enc.Keys + {"scale", "title"}
    ensures forall k :: k in enc && k !in {"scale", "title"} ==> r[k] == enc[k]
  {
    enc["scale" := JObj(ScaleOf(enc)["domain" := BrushDomain(ch)])]["title" := JNull]
  }

  /** Linking a channel twice is linking it once. */
  lemma BrushedTwice(enc: Dict, ch: string)
    ensures Brushed(Brushed(enc, ch), ch) == Brushed(enc, ch)
  {
    var once := Brushed(enc, ch);
    assert ScaleOf(once)["domain" := BrushDomain(ch)] == ScaleOf(once);
  }

  /** Link one channel of a view to the brush. */
  function LinkChannel(view: Dict, ch: string): (r: Dict)
    requires ScaleIsDict(view, ch)
    ensures r.Keys == view.Keys
    ensures forall k :: k in view && k != "encoding" ==> r[k] == view[k]
    ensures forall c :: HasChannel(view, c) ==> HasChannel(r, c)
    ensures Channel(r, ch) == Brushed(Channel(view, ch), ch)
    ensures forall c :: c != ch && HasChannel(view, c) ==> Channel(r, c) == Channel(view, c)
    ensures forall c :: ScaleIsDict(view, c) ==> ScaleIsDict(r, c)
  {
    var r := SetChannel(view, ch, Brushed(Channel(view, ch), ch));
    assert forall c :: ScaleIsDict(view, c) ==> ScaleIsDict(r, c) by {
      forall c | ScaleIsDict(view, c) ensures ScaleIsDict(r, c) {
        if c != ch {
          assert Channel(r, c) == Channel(view, c);
        }
      }
    }
    r
  }

  /** The loop over the brushed channels of the main view, in order. */
  function BrushScales(view: Dict, channels: seq<string>): (r: Dict)
    requires forall c :: c in channels ==> ScaleIsDict(view, c)
    ensures r.Keys == view.Keys
    ensures forall k :: k in view && k != "encoding" ==> r[k] == view[k]
    ensures forall c :: HasChannel(view, c) ==> HasChannel(r, c)
    ensures forall c :: ScaleIsDict(view, c) ==> ScaleIsDict(r, c)
    decreases |channels|
  {
    if channels == [] then view
    else
      assert channels[0] in channels;
      assert forall c :: c in channels[1..] ==> c in channels;
      BrushScales(LinkChannel(view, channels[0]), channels[1..])
  }

  /** After the loop every brushed channel is linked (once, however often
      it is listed) and every other channel is as it was. */
  lemma {:induction false} BrushScalesLinks(view: Dict, channels: seq<string>, c: string)
    requires forall c :: c in channels ==> ScaleIsDict(view, c)
    requires HasChannel(view, c)
    ensures Channel(BrushScales(view, channels), c) ==
      if c in channels then Brushed(Channel(view, c), c) else Channel(view, c)
    decreases |channels|
  {
    if channels != [] {
      var ch := channels[0];
      assert ch in channels;
      assert forall d :: d in channels[1..] ==> d in channels;
      var linked := LinkChannel(view, ch);
      BrushScalesLinks(linked, channels[1..], c);
      assert c in channels <==> c == ch || c in channels[1..];
      if c == ch {
        BrushedTwice(Channel(view, ch), ch);
      }
    }
  }

  /** The main view: filtered by the brush, or with each brushed channel's
      scale domain following the brush. */
  function LinkPrimary(inner: Dict, encodings: seq<string>, filter: bool): (r: Dict)
    requires !filter ==> forall c :: c in encodings ==> ScaleIsDict(inner, c)
    ensures filter ==> r == inner["transform" := BrushFilter()]
    ensures !filter ==> r.Keys == inner.Keys
    ensures !filter ==> forall k :: k in inner && k != "encoding" ==> r[k] == inner[k]
    ensures !filter ==> forall c :: c in encodings ==> HasChannel(inner, c) && HasChannel(r, c)
    ensures !filter ==> forall c :: c in encodings ==> Channel(r, c) == Brushed(Channel(inner, c), c)
    ensures !filter ==> forall c :: c !in encodings && HasChannel(inner, c) ==> HasChannel(r, c) && Channel(r, c) == Channel(inner, c)
  {
    if filter then inner["transform" := BrushFilter()]
    else
      var r := BrushScales(inner, encodings);
      assert forall c :: HasChannel(inner, c) ==>
          Channel(r, c) == if c in encodings then Brushed(Channel(inner, c), c) else Channel(inner, c) by {
        forall c | HasChannel(inner, c)
          ensures Channel(r, c) == if c in encodings then Brushed(Channel(inner, c), c) else Channel(inner, c)
        {
          BrushScalesLinks(inner, encodings, c);
        }
      }
      r
  }

  /** The keys of a spec that belong to the plotted view. */
  function Inner(spec: Dict): (r: Dict)
    ensures r.Keys == spec.Keys * InnerProps
    ensures forall k :: k in r ==> r[k] == spec[k]
  {
    map k | k in spec && k in InnerProps :: spec[k]
  }

  /** The remaining keys: data, title, config and the like. */
  function Outer(spec: Dict): (r: Dict)
    ensures r.Keys == spec.Keys - InnerProps
    ensures forall k :: k in r ==> r[k] == spec[k]
  {
    map k | k in spec && k !in InnerProps :: spec[k]
  }

  /** The concatenation direction: side by side to the right, stacked
      otherwise. */
  function ConcatKey(location: string): string {
    if location == "right" then "hconcat" else "vconcat"
  }

  /** The position of the main view in the concatenation: second when the
      minimap sits on top, first otherwise. */
  function MainIndex(location: string): nat {
    if location == "top" then 1 else 0
  }

  /** A spec split into a concatenation of two views under `ConcatKey`. */
  predicate IsConcat(r: Dict, location: string) {
    && ConcatKey(location) in r
    && r[ConcatKey(location)].JArr?
    && |r[ConcatKey(location)].items| == 2
    && r[ConcatKey(location)].items[0].JObj?
    && r[ConcatKey(location)].items[1].JObj?
  }

  function MainView(r: Dict, location: string): Dict
    requires IsConcat(r, location)
  {
    r[ConcatKey(location)].items[MainIndex(location)].fields
  }

  function MiniView(r: Dict, location: string): Dict
    requires IsConcat(r, location)
  {
    r[ConcatKey(location)].items[1 - MainIndex(location)].fields
  }

  /** `_add_minimap`: the meta keys stay on the outside; the plotted part
      becomes a concatenation of the main view and its minimap, the minimap
      to the right, on top, or (for any other location) below. */
  function AddMinimap(spec: Dict, encodings: seq<string>, location: string, filter: bool): (r: Dict)
    requires MinimapReady(spec, encodings, location, filter)
    ensures IsConcat(r, location)
    ensures r.Keys == (spec.Keys - InnerProps) + {ConcatKey(location)}
    ensures forall k :: k in spec && k !in InnerProps && k != ConcatKey(location) ==> r[k] == spec[k]
  {
    InnerReady(spec, encodings, location, filter);
    Concat(Outer(spec), LinkPrimary(Inner(spec), encodings, filter), Shrink(Inner(spec), encodings, location, filter), location)
  }

  /** The two views of `AddMinimap`: the plot part linked to the brush, and
      the minimap derived from the plot part as it was before linking. */
  lemma AddMinimapViews(spec: Dict, encodings: seq<string>, location: string, filter: bool)
    requires MinimapReady(spec, encodings, location, filter)
    ensures MinimapReady(Inner(spec), encodings, location, filter)
    ensures MainView(AddMinimap(spec, encodings, location, filter), location) == LinkPrimary(Inner(spec), encodings, filter)
    ensures MiniView(AddMinimap(spec, encodings, location, filter), location) == Shrink(Inner(spec), encodings, location, filter)
  {
    InnerReady(spec, encodings, location, filter);
  }

  /** The minimap chart has no mark or encoding of its own, and keeps the
      chart's data and title on the outside. */
  lemma AddMinimapOuter(spec: Dict, encodings: seq<string>, location: string, filter: bool)
    requires MinimapReady(spec, encodings, location, filter)
    ensures "mark" !in AddMinimap(spec, encodings, location, filter)
    ensures "encoding" !in AddMinimap(spec, encodings, location, filter)
    ensures "data" in spec ==> "data" in AddMinimap(spec, encodings, location, filter) && AddMinimap(spec, encodings, location, filter)["data"] == spec["data"]
    ensures "title" in spec ==> "title" in AddMinimap(spec, encodings, location, filter) && AddMinimap(spec, encodings, location, filter)["title"] == spec["title"]
  {
    var r := AddMinimap(spec, encodings, location, filter);
    assert r.Keys == (spec.Keys - InnerProps) + {ConcatKey(location)};
    assert ConcatKey(location) == "hconcat" || ConcatKey(location) == "vconcat";
  }

  lemma InnerReady(spec: Dict, encodings: seq<string>, location: string, filter: bool)
    requires MinimapReady(spec, encodings, location, filter)
    ensures MinimapReady(Inner(spec), encodings, location, filter)
  {
    InnerChannels(spec);
  }

  /** Place the main view and the minimap under the concatenation key. */
  function Concat(outer: Dict, main: Dict, mini: Dict, location: string): (r: Dict)
    ensures IsConcat(r, location)
    ensures r.Keys == outer.Keys + {ConcatKey(location)}
    ensures forall k :: k in outer && k != ConcatKey(location) ==> r[k] == outer[k]
    ensures MainView(r, location) == main && MiniView(r, location) == mini
  {
    if location == "right" then outer["hconcat" := JArr([JObj(main), JObj(mini)])]
    else if location == "top" then outer["vconcat" := JArr([JObj(mini), JObj(main)])]
    else outer["vconcat" := JArr([JObj(main), JObj(mini)])]
  }

  /** The minimap view holds the brush over the brushed channels, is sized
      as a minimap, shows the chart's channels with blanked axes, and has
      only plot keys (in particular no filter). */
  lemma {:induction false} MinimapView(spec: Dict, encodings: seq<string>, location: string, filter: bool)
    requires MinimapReady(spec, encodings, location, filter)
    ensures var mini := MiniView(AddMinimap(spec, encodings, location, filter), location);
      && mini.Keys <= InnerProps
      && "selection" in mini && mini["selection"] == BrushSelection(encodings)
      && SizedAsMinimap(mini, spec, encodings, location)
      && KeepsChannels(mini, spec, encodings, location, filter)
  {
    var inner := Inner(spec);
    InnerChannels(spec);
    AddMinimapViews(spec, encodings, location, filter);
    var mini := Shrink(inner, encodings, location, filter);
    assert SizedAsMinimap(mini, spec, encodings, location) by {
      assert "width" in spec ==> inner["width"] == spec["width"];
      assert "height" in spec ==> inner["height"] == spec["height"];
    }
  }

  /** The main view follows the brush: by filtering on it, or (when the
      minimap does not filter) through the scale domain of every brushed
      channel. */
  lemma MainViewFollowsBrush(spec: Dict, encodings: seq<string>, location: string, filter: bool)
    requires MinimapReady(spec, encodings, location, filter)
    ensures var main := MainView(AddMinimap(spec, encodings, location, filter), location);
      && ("transform" in main <==> filter)
      && (filter ==> main["transform"] == BrushFilter())
      && (!filter ==> forall c :: c in encodings ==>
            HasChannel(main, c) && ScaleOf(Channel(main, c))["domain"] == BrushDomain(c))
  {
    AddMinimapViews(spec, encodings, location, filter);
  }

  /** The main view keeps the chart's mark, selection and sizes. */
  lemma MainViewKeepsPlot(spec: Dict, encodings: seq<string>, location: string, filter: bool)
    requires MinimapReady(spec, encodings, location, filter)
    ensures var main := MainView(AddMinimap(spec, encodings, location, filter), location);
      forall k :: k in spec && k in InnerProps - {"encoding"} ==> k in main && main[k] == spec[k]
  {
    var main := MainView(AddMinimap(spec, encodings, location, filter), location);
    var inner := Inner(spec);
    AddMinimapViews(spec, encodings, location, filter);
    LinkPrimaryKeeps(inner, encodings, filter);
    assert main == LinkPrimary(inner, encodings, filter);
    forall k | k in spec && k in InnerProps - {"encoding"}
      ensures k in main && main[k] == spec[k]
    {
      assert k in inner && k != "transform";
    }
  }

  /** Linking the main view touches only its encoding and transform. */
  lemma LinkPrimaryKeeps(inner: Dict, encodings: seq<string>, filter: bool)
    requires !filter ==> forall c :: c in encodings ==> ScaleIsDict(inner, c)
    ensures forall k :: k in inner && k != "encoding" && k != "transform" ==>
      k in LinkPrimary(inner, encodings, filter) && LinkPrimary(inner, encodings, filter)[k] == inner[k]
  {
  }

  /** The plot part of a spec has the spec's channels. */
  lemma InnerChannels(spec: Dict)
    ensures forall c :: HasChannel(Inner(spec), c) <==> HasChannel(spec, c)
    ensures forall c :: HasChannel(spec, c) ==> Channel(Inner(spec), c) == Channel(spec, c)
  {
    assert "encoding" in spec ==> Inner(spec)["encoding"] == spec["encoding"];
  }
}
