/** Parts of a specification shared by the chart builders: the pan/zoom
    selection, the legend dict, and annotation rule layers. */
module Compose {

  import opened Results
  import opened JsonData

  /** `_get_selection`: no selection for no pan/zoom or for the minimap
      mode; otherwise one interval selection bound to the scales, under the
      key "foo", with zooming off for "pan" and translation off for "zoom". */
  function Selection(panZoom: Option<string>): (r: Json)
    ensures r == JNull <==> panZoom == None || panZoom == Some("minimap")
    ensures r != JNull ==>
      && r.JObj? && r.fields.Keys == {"foo"} && r.fields["foo"].JObj?
      && var sel := r.fields["foo"].fields;
      && "type" in sel && "bind" in sel
      && sel["type"] == JStr("interval") && sel["bind"] == JStr("scales")
      && ("zoom" in sel <==> panZoom == Some("pan"))
      && ("translate" in sel <==> panZoom == Some("zoom"))
      && sel.Keys <= {"type", "bind", "zoom", "translate"}
      && (forall k :: k in sel && k !in {"type", "bind"} ==> sel[k] == JBool(false))
  {
    if panZoom == None || panZoom == Some("minimap") then JNull
    else
      var base := map["type" := JStr("interval"), "bind" := JStr("scales")];
      var withPan := if panZoom == Some("pan") then base["zoom" := JBool(false)] else base;
      var sel := if panZoom == Some("zoom") then withPan["translate" := JBool(false)] else withPan;
      JObj(map["foo" := JObj(sel)])
  }

  /** `_get_legend_dict`: a missing legend disables it; otherwise the
      legend string is its orientation. */
  function LegendDict(legend: Option<string>): (r: Json)
    ensures r.JObj? && |r.fields| == 1
    ensures legend.None? <==> "disable" in r.fields
    ensures legend.None? ==> r.fields["disable"] == JBool(true)
    ensures legend.Some? ==> "orient" in r.fields && r.fields["orient"] == JStr(legend.value)
  {
    match legend
    case None => JObj(map["disable" := JBool(true)])
    case Some(o) => JObj(map["orient" := JStr(o)])
  }

  /** Distinct legend settings give distinct legend dicts: the dict keeps
      whether a legend is shown and, if so, its orientation. */
  lemma LegendDictInjective(a: Option<string>, b: Option<string>)
    ensures LegendDict(a) == LegendDict(b) <==> a == b
  {
    if LegendDict(a) == LegendDict(b) && a.Some? && b.Some? {
      assert LegendDict(a).fields["orient"] == JStr(a.value);
    }
  }

  /** An annotation argument: absent, a list of coordinates, a dict from
      coordinate to caption (in insertion order), or a single coordinate.
      A list or dict argument is always `Coords` or `Labelled`, which the
      source iterates; `Scalar` stands for any other value (a number or a
      string), which the source wraps in a one-element list. */
  datatype Annot =
    | NoAnnot
    | Coords(coords: seq<Json>)
    | Labelled(entries: seq<(Json, Json)>)
    | Scalar(coord: Json)

  predicate AnnotTruthy(a: Annot) {
    match a
    case NoAnnot => false
    case Coords(cs) => |cs| > 0
    case Labelled(es) => |es| > 0
    case Scalar(c) => Truthy(c)
  }

  /** The (coordinate, caption text) pairs an annotation argument stands for:
      a dict's values are shown as labels, list items get an empty caption. */
  function AnnotEntries(a: Annot, show: Json -> string): (r: seq<(Json, string)>)
    ensures !AnnotTruthy(a) ==> r == []
    ensures AnnotTruthy(a) ==> |r| > 0
    ensures a.Coords? ==> |r| == |a.coords| && forall i :: 0 <= i < |r| ==> r[i] == (a.coords[i], "")
    ensures a.Labelled? ==> |r| == |a.entries| && forall i :: 0 <= i < |r| ==> r[i] == (a.entries[i].0, show(a.entries[i].1))
    ensures a.Scalar? && Truthy(a.coord) ==> r == [(a.coord, "")]
  {
    match a
    case NoAnnot => []
    case Coords(cs) => seq(|cs|, i requires 0 <= i < |cs| => (cs[i], ""))
    case Labelled(es) => seq(|es|, i requires 0 <= i < |es| => (es[i].0, show(es[i].1)))
    case Scalar(c) => if Truthy(c) then [(c, "")] else []
  }

  /** The tooltip text "caption (coordinate)". */
  function Tooltip(caption: string, coord: Json, show: Json -> string): string {
    caption + " (" + show(coord) + ")"
  }

  /** One rule layer pinned at `coord` on `channel`. */
  function RuleLayer(channel: string, coord: Json, caption: string, show: Json -> string): Json {
    JObj(map[
      "mark" := JStr("rule"),
      "encoding" := JObj(map[
        channel := JObj(map["datum" := coord]),
        "tooltip" := JObj(map["value" := JStr(Tooltip(caption, coord, show))])])])
  }

  /** `_add_encoding_annotations`: the rule layers for one channel, one per
      annotation coordinate, in order. Layer i is a `rule` mark pinned at the
      i-th coordinate on the channel, whose tooltip reads
      "caption (coordinate)". */
  function EncodingAnnotations(channel: string, a: Annot, show: Json -> string): (r: seq<Json>)
    ensures |r| == |AnnotEntries(a, show)|
    ensures forall i :: 0 <= i < |r| ==>
      && r[i].JObj? && r[i].fields.Keys == {"mark", "encoding"}
      && r[i].fields["mark"] == JStr("rule")
      && r[i].fields["encoding"] == JObj(map[
           channel := JObj(map["datum" := AnnotEntries(a, show)[i].0]),
           "tooltip" := JObj(map["value" := JStr(AnnotEntries(a, show)[i].1 + " (" + show(AnnotEntries(a, show)[i].0) + ")")])])
    ensures forall i :: 0 <= i < |r| ==>
      r[i] == RuleLayer(channel, AnnotEntries(a, show)[i].0, AnnotEntries(a, show)[i].1, show)
  {
    var es := AnnotEntries(a, show);
    seq(|es|, i requires 0 <= i < |es| => RuleLayer(channel, es[i].0, es[i].1, show))
  }

  /** `_add_annotations`: with no annotations the spec is unchanged;
      otherwise it becomes the first layer, followed by the x rules and then
      the y rules. */
  function AddAnnotations(spec: Dict, xAnnot: Annot, yAnnot: Annot, show: Json -> string): (r: Dict)
    ensures !AnnotTruthy(xAnnot) && !AnnotTruthy(yAnnot) ==> r == spec
    ensures AnnotTruthy(xAnnot) || AnnotTruthy(yAnnot) ==>
      && r.Keys == {"layer"}
      && r["layer"] == JArr([JObj(spec)] + (EncodingAnnotations("x", xAnnot, show) + EncodingAnnotations("y", yAnnot, show)))
  {
    var layers := EncodingAnnotations("x", xAnnot, show) + EncodingAnnotations("y", yAnnot, show);
    if |layers| > 0 then map["layer" := JArr([JObj(spec)] + layers)] else spec
  }

  /** The layers of an annotated spec, one by one: the spec, then a rule
      for every x annotation in order, then one for every y annotation. */
  lemma AnnotationOrder(spec: Dict, xAnnot: Annot, yAnnot: Annot, show: Json -> string)
    requires AnnotTruthy(xAnnot) || AnnotTruthy(yAnnot)
    ensures var r := AddAnnotations(spec, xAnnot, yAnnot, show);
      && "layer" in r && r["layer"].JArr?
      && var layers := r["layer"].items;
      && var nx := |AnnotEntries(xAnnot, show)|;
      && |layers| == 1 + nx + |AnnotEntries(yAnnot, show)|
      && layers[0] == JObj(spec)
      && (forall i :: 0 <= i < nx ==>
            layers[1 + i] == RuleLayer("x", AnnotEntries(xAnnot, show)[i].0, AnnotEntries(xAnnot, show)[i].1, show))
      && (forall i :: 0 <= i < |AnnotEntries(yAnnot, show)| ==>
            layers[1 + nx + i] == RuleLayer("y", AnnotEntries(yAnnot, show)[i].0, AnnotEntries(yAnnot, show)[i].1, show))
  {
    var xs := EncodingAnnotations("x", xAnnot, show);
    var ys := EncodingAnnotations("y", yAnnot, show);
    assert AddAnnotations(spec, xAnnot, yAnnot, show)["layer"].items == [JObj(spec)] + (xs + ys);
    HeadThenBoth(JObj(spec), xs, ys);
  }

  /** Where the parts of `[h] + (xs + ys)` sit. */
  lemma HeadThenBoth<T>(h: T, xs: seq<T>, ys: seq<T>)
    ensures |[h] + (xs + ys)| == 1 + |xs| + |ys| && ([h] + (xs + ys))[0] == h
    ensures forall i :: 0 <= i < |xs| ==> ([h] + (xs + ys))[1 + i] == xs[i]
    ensures forall i :: 0 <= i < |ys| ==> ([h] + (xs + ys))[1 + |xs| + i] == ys[i]
  {
  }

  /** Every annotation layer is a rule whose tooltip ends in the coordinate
      it is pinned at. */
  lemma AnnotationTooltip(channel: string, a: Annot, show: Json -> string, i: nat)
    requires channel != "tooltip"
    requires i < |AnnotEntries(a, show)|
    ensures var layer := EncodingAnnotations(channel, a, show)[i];
      && layer.JObj? && layer.fields["mark"] == JStr("rule")
      && layer.fields["encoding"].fields[channel] == JObj(map["datum" := AnnotEntries(a, show)[i].0])
      && var text := layer.fields["encoding"].fields["tooltip"].fields["value"].s;
      && |text| >= |show(AnnotEntries(a, show)[i].0)| + 3
      && text[|text| - |show(AnnotEntries(a, show)[i].0)| - 1..] == show(AnnotEntries(a, show)[i].0) + ")"
  {
    var (coord, caption) := AnnotEntries(a, show)[i];
    var text := Tooltip(caption, coord, show);
    assert text == (caption + " (") + (show(coord) + ")");
  }
}
